/**
 The cooperative-close journal (ops/router_closing.py): a list of requests that is never pruned,
 and at most one `closechannel` per wallet and channel point.
 */
module CloseJournal {
  import opened Runs
  import opened Wrappers
  import opened Intents

  datatype State = Submitting | Uncertain | Closing | Closed

  datatype Plan = Plan(identity: string, point: string, peer: string, local: int, capacity: int, rate: int,
                       maximum: int)

  datatype Record = Record(plan: Plan, state: State, closingTx: Option<string>)

  predicate Concerns(r: Record, identity: string, point: string) {
    r.plan.identity == identity && r.plan.point == point
  }

  datatype Channel = Channel(point: string, peer: string, active: bool, htlcs: bool, local: int, capacity: int)
  /** An entry of any of the three pending-close groups, in the source's order of groups. */
  datatype PendingClose = PendingClose(point: string, closingTx: Option<string>)
  datatype ClosedChannel = ClosedChannel(point: string, closingTx: Option<string>, height: int)

  /** One full reading of the node; `identity` is None when a read raises. */
  datatype View = View(identity: Option<string>, channels: seq<Channel>, pending: seq<PendingClose>,
                       closed: seq<ClosedChannel>)

  // ----- status -----

  function FirstPending(ps: seq<PendingClose>, point: string): Option<PendingClose> {
    if ps == [] then None else if ps[0].point == point then Some(ps[0]) else FirstPending(ps[1..], point)
  }

  function FirstClosed(cs: seq<ClosedChannel>, point: string): Option<ClosedChannel> {
    if cs == [] then None else if cs[0].point == point then Some(cs[0]) else FirstClosed(cs[1..], point)
  }

  function Refreshed(r: Record, identity: string, v: View): Record {
    var waiting := FirstPending(v.pending, r.plan.point);
    var done := FirstClosed(v.closed, r.plan.point);
    if r.plan.identity != identity then r
    else if waiting.Some? then
      r.(state := Closing, closingTx := if waiting.value.closingTx.Some? then waiting.value.closingTx else r.closingTx)
    else if done.Some? && done.value.closingTx.Some? && done.value.height > 0 then
      r.(state := Closed, closingTx := done.value.closingTx)
    else r
  }

  function RefreshAll(rs: seq<Record>, identity: string, v: View): (out: seq<Record>)
    ensures |out| == |rs| && forall i :: 0 <= i < |rs| ==> out[i] == Refreshed(rs[i], identity, v)
  {
    if rs == [] then [] else RefreshAll(rs[..|rs| - 1], identity, v) + [Refreshed(rs[|rs| - 1], identity, v)]
  }

  /** Nothing for this point is pending, and a close of it is confirmed. */
  ghost predicate ConfirmedIn(v: View, point: string) {
    && (forall p :: p in v.pending ==> p.point != point)
    && exists c :: c in v.closed && c.point == point && c.closingTx.Some? && c.height > 0
  }

  lemma {:induction false} FirstPendingFinds(ps: seq<PendingClose>, point: string)
    ensures FirstPending(ps, point).None? <==> forall p :: p in ps ==> p.point != point
    ensures FirstPending(ps, point).Some? ==>
              FirstPending(ps, point).value in ps && FirstPending(ps, point).value.point == point
  {
    if ps != [] {
      FirstPendingFinds(ps[1..], point);
      assert ps == [ps[0]] + ps[1..];
    }
  }

  lemma {:induction false} FirstClosedFinds(cs: seq<ClosedChannel>, point: string)
    ensures FirstClosed(cs, point).Some? ==>
              FirstClosed(cs, point).value in cs && FirstClosed(cs, point).value.point == point
  {
    if cs != [] {
      FirstClosedFinds(cs[1..], point);
    }
  }

  /** A status pass sets `closed` only on a confirmed close with nothing pending, keeps every
      request, and leaves other wallets' records alone. */
  lemma StatusClosesOnEvidence(r: Record, identity: string, v: View)
    ensures Refreshed(r, identity, v).plan == r.plan
    ensures r.plan.identity != identity ==> Refreshed(r, identity, v) == r
    ensures Refreshed(r, identity, v).state.Closed? && !r.state.Closed? ==> ConfirmedIn(v, r.plan.point)
    ensures r.plan.identity == identity && FirstPending(v.pending, r.plan.point).Some? ==>
              Refreshed(r, identity, v).state.Closing?
  {
    FirstPendingFinds(v.pending, r.plan.point);
    FirstClosedFinds(v.closed, r.plan.point);
  }

  /** Entry k is the first of these points that is this one. */
  ghost predicate FirstAt(points: seq<string>, point: string, k: int) {
    0 <= k < |points| && points[k] == point && forall i :: 0 <= i < k ==> points[i] != point
  }

  ghost function PendingPoints(v: View): seq<string> {
    seq(|v.pending|, i requires 0 <= i < |v.pending| => v.pending[i].point)
  }

  ghost function ClosedPoints(v: View): seq<string> {
    seq(|v.closed|, i requires 0 <= i < |v.closed| => v.closed[i].point)
  }

  ghost function ChannelPoints(v: View): seq<string> {
    seq(|v.channels|, i requires 0 <= i < |v.channels| => v.channels[i].point)
  }

  lemma {:induction false} FirstPendingAt(ps: seq<PendingClose>, point: string, k: nat)
    requires k < |ps| && ps[k].point == point && forall i :: 0 <= i < k ==> ps[i].point != point
    ensures FirstPending(ps, point) == Some(ps[k])
  {
    if k > 0 { FirstPendingAt(ps[1..], point, k - 1); }
  }

  lemma {:induction false} FirstClosedAt(cs: seq<ClosedChannel>, point: string, k: nat)
    requires k < |cs| && cs[k].point == point && forall i :: 0 <= i < k ==> cs[i].point != point
    ensures FirstClosed(cs, point) == Some(cs[k])
  {
    if k > 0 { FirstClosedAt(cs[1..], point, k - 1); }
  }

  lemma {:induction false} NoneClosed(cs: seq<ClosedChannel>, point: string)
    requires forall i :: 0 <= i < |cs| ==> cs[i].point != point
    ensures FirstClosed(cs, point).None?
  {
    if cs != [] { NoneClosed(cs[1..], point); }
  }

  /** What a status pass makes of one record: nothing of another wallet's; closing, with the transaction if it is
      known, while its point is pending; closed when it is not, and its close has a transaction and a height. */
  lemma RefreshIsExact(r: Record, identity: string, v: View)
    ensures r.plan.identity != identity ==> Refreshed(r, identity, v) == r
    ensures r.plan.identity == identity ==>
              forall k :: FirstAt(PendingPoints(v), r.plan.point, k) ==>
                Refreshed(r, identity, v)
                == Record(r.plan, Closing,
                          if v.pending[k].closingTx.Some? then v.pending[k].closingTx else r.closingTx)
    ensures r.plan.identity == identity && r.plan.point !in PendingPoints(v) ==>
              && (forall k :: FirstAt(ClosedPoints(v), r.plan.point, k) ==>
                    Refreshed(r, identity, v)
                    == if v.closed[k].closingTx.Some? && v.closed[k].height > 0
                       then Record(r.plan, Closed, v.closed[k].closingTx) else r)
              && (r.plan.point !in ClosedPoints(v) ==> Refreshed(r, identity, v) == r)
  {
    var point := r.plan.point;
    FirstPendingFinds(v.pending, point);
    forall k | FirstAt(PendingPoints(v), point, k) ensures FirstPending(v.pending, point) == Some(v.pending[k]) {
      forall i | 0 <= i < k ensures v.pending[i].point != point { assert PendingPoints(v)[i] != point; }
      FirstPendingAt(v.pending, point, k);
    }
    if point !in PendingPoints(v) {
      forall p | p in v.pending ensures p.point != point {
        var i :| 0 <= i < |v.pending| && v.pending[i] == p;
        assert PendingPoints(v)[i] == p.point;
      }
      forall k | FirstAt(ClosedPoints(v), point, k) ensures FirstClosed(v.closed, point) == Some(v.closed[k]) {
        forall i | 0 <= i < k ensures v.closed[i].point != point { assert ClosedPoints(v)[i] != point; }
        FirstClosedAt(v.closed, point, k);
      }
      if point !in ClosedPoints(v) {
        forall i | 0 <= i < |v.closed| ensures v.closed[i].point != point { assert ClosedPoints(v)[i] != point; }
        NoneClosed(v.closed, point);
      }
    }
  }

  // ----- preview and submit -----

  function FirstChannel(cs: seq<Channel>, point: string): Option<Channel> {
    if cs == [] then None else if cs[0].point == point then Some(cs[0]) else FirstChannel(cs[1..], point)
  }

  /** `wellFormed` is the channel-point pattern check. */
  function Preview(point: string, rate: int, maximum: int, v: View, wellFormed: bool): Result<Plan> {
    var c := FirstChannel(v.channels, point);
    if !wellFormed || !(1 <= rate <= maximum <= 10000) || v.identity.None? || c.None? then Raised
    else if !c.value.active || c.value.htlcs || FirstPending(v.pending, point).Some? then Raised
    else Ok(Plan(v.identity.value, point, c.value.peer, c.value.local, c.value.capacity, rate, maximum))
  }

  lemma {:induction false} FirstChannelAt(cs: seq<Channel>, point: string, k: nat)
    requires k < |cs| && cs[k].point == point && forall i :: 0 <= i < k ==> cs[i].point != point
    ensures FirstChannel(cs, point) == Some(cs[k])
  {
    if k > 0 { FirstChannelAt(cs[1..], point, k - 1); }
  }

  lemma {:induction false} FirstChannelFinds(cs: seq<Channel>, point: string) returns (k: nat)
    requires FirstChannel(cs, point).Some?
    ensures k < |cs| && cs[k].point == point && forall i :: 0 <= i < k ==> cs[i].point != point
  {
    if cs[0].point == point {
      k := 0;
    } else {
      var n := FirstChannelFinds(cs[1..], point);
      k := n + 1;
    }
  }

  /** The plan is that of the first listed channel of its point, active and idle, with nothing pending for it, on
      this wallet and within the rate bounds. */
  ghost predicate PlannedOn(v: View, p: Plan, k: int) {
    && 1 <= p.rate && p.rate <= p.maximum && p.maximum <= 10000 && v.identity == Some(p.identity)
    && FirstAt(ChannelPoints(v), p.point, k) && v.channels[k].active && !v.channels[k].htlcs
    && p.point !in PendingPoints(v)
    && p.peer == v.channels[k].peer && p.local == v.channels[k].local && p.capacity == v.channels[k].capacity
  }

  /** Exactly which plans a preview returns. */
  lemma PreviewIsExact(v: View, p: Plan, wellFormed: bool)
    ensures Preview(p.point, p.rate, p.maximum, v, wellFormed) == Ok(p) <==>
              wellFormed && exists k :: PlannedOn(v, p, k)
  {
    PendingIsListed(v, p.point);
    if FirstChannel(v.channels, p.point).Some? {
      var k := FirstChannelFinds(v.channels, p.point);
      assert FirstAt(ChannelPoints(v), p.point, k);
      ChannelIsFirst(v, p.point, k);
      if Preview(p.point, p.rate, p.maximum, v, wellFormed) == Ok(p) { assert PlannedOn(v, p, k); }
    }
    forall k | PlannedOn(v, p, k) ensures FirstChannel(v.channels, p.point) == Some(v.channels[k]) {
      ChannelIsFirst(v, p.point, k);
    }
  }

  lemma PendingIsListed(v: View, point: string)
    ensures FirstPending(v.pending, point).Some? <==> point in PendingPoints(v)
  {
    FirstPendingFinds(v.pending, point);
    if x :| x in v.pending && x.point == point {
      var i :| 0 <= i < |v.pending| && v.pending[i] == x;
      assert PendingPoints(v)[i] == point;
    }
    if point in PendingPoints(v) {
      var i :| 0 <= i < |v.pending| && PendingPoints(v)[i] == point;
      assert v.pending[i] in v.pending;
    }
  }

  lemma ChannelIsFirst(v: View, point: string, k: int)
    requires FirstAt(ChannelPoints(v), point, k)
    ensures FirstChannel(v.channels, point) == Some(v.channels[k])
  {
    forall i | 0 <= i < k ensures v.channels[i].point != point { assert ChannelPoints(v)[i] != point; }
    FirstChannelAt(v.channels, point, k);
  }

  /** History: a stored request, an issued `closechannel`, or a stored confirmation of a close. */
  datatype Entry =
    | Recorded(identity: string, point: string)
    | Asked(identity: string, point: string)
    | Confirmed(identity: string, point: string, view: View)

  datatype Disk = Disk(records: seq<Record>, log: seq<Entry>)

  const EMPTY := Disk([], [])

  function Confirmations(rs: seq<Record>, rs': seq<Record>, v: View): seq<Entry>
    requires |rs| == |rs'|
  {
    if rs == [] then []
    else
      var n := |rs| - 1;
      Confirmations(rs[..n], rs'[..n], v)
      + if rs'[n].state.Closed? && !rs[n].state.Closed? then
          [Confirmed(rs[n].plan.identity, rs[n].plan.point, v)]
        else []
  }

  datatype Pass = Stopped(disk: Disk) | Went(disk: Disk, left: nat)

  /** Status rewrites the file only when there are records. */
  function StatusPass(d: Disk, v: View, effects: nat): Pass {
    if v.identity.None? then Stopped(d)
    else if d.records == [] then Went(d, effects)
    else if effects == 0 then Stopped(d)
    else
      var rs := RefreshAll(d.records, v.identity.value, v);
      Went(Disk(rs, d.log + Confirmations(d.records, rs, v)), effects - 1)
  }

  predicate AlreadyAsked(rs: seq<Record>, identity: string, point: string) {
    exists r :: r in rs && Concerns(r, identity, point)
  }

  /** `answer` is the closing transaction of a well-formed answer. */
  function Close(d: Disk, p: Plan, answer: Option<string>, effects: nat): Disk {
    if effects == 0 then d
    else
      var stored := d.records + [Record(p, Submitting, None)];
      var recorded := d.log + [Recorded(p.identity, p.point)];
      if effects == 1 then Disk(stored, recorded)
      else
        var asked := recorded + [Asked(p.identity, p.point)];
        if effects == 2 then Disk(stored, asked)
        else Disk(d.records + [if answer.Some? then Record(p, Closing, answer) else Record(p, Uncertain, None)], asked)
  }

  datatype Action =
    | Status(view: View, effects: nat)
    | Submit(view: View, plan: Plan, again: View, wellFormed: bool, answer: Option<string>, effects: nat)

  function Apply(d: Disk, a: Action): Disk {
    match a
    case Status(v, effects) => StatusPass(d, v, effects).disk
    case Submit(v, p, again, wellFormed, answer, effects) =>
      var pass := StatusPass(d, v, effects);
      if pass.Stopped? || AlreadyAsked(pass.disk.records, v.identity.value, p.point)
         || Preview(p.point, p.rate, p.maximum, again, wellFormed) != Ok(p)
      then pass.disk
      else Close(pass.disk, p, answer, pass.left)
  }

  ghost function Run(actions: seq<Action>): Disk {
    Fold(Apply, EMPTY, actions)
  }

  class CloseStore {
    var records: seq<Record>
    ghost var log: seq<Entry>

    ghost function OnDisk(): Disk
      reads this
    {
      Disk(records, log)
    }

    constructor ()
      ensures OnDisk() == EMPTY
    {
      records, log := [], [];
    }

    /** The loop that updates the loaded records in place, then the rewrite. */
    method RefreshStatus(v: View, effects: nat) returns (alive: bool, left: nat)
      modifies this
      ensures
        var p := StatusPass(old(OnDisk()), v, effects);
        OnDisk() == p.disk && (alive <==> p.Went?) && (p.Went? ==> left == p.left)
    {
      left := effects;
      if v.identity.None? { return false, left; }
      if records == [] { return true, left; }
      var loaded := records;
      for i := 0 to |records|
        invariant |loaded| == |records| && records == old(records) && log == old(log)
        invariant forall j :: 0 <= j < i ==> loaded[j] == Refreshed(records[j], v.identity.value, v)
        invariant forall j :: i <= j < |records| ==> loaded[j] == records[j]
      {
        loaded := loaded[i := Refreshed(loaded[i], v.identity.value, v)];
      }
      assert loaded == RefreshAll(records, v.identity.value, v);
      if effects == 0 { return false, left; }
      log := log + Confirmations(records, loaded, v);
      records := loaded;
      return true, effects - 1;
    }

    method SubmitClose(v: View, p: Plan, again: View, wellFormed: bool, answer: Option<string>, effects: nat)
      modifies this
      ensures OnDisk() == Apply(old(OnDisk()), Submit(v, p, again, wellFormed, answer, effects))
    {
      var alive, left := RefreshStatus(v, effects);
      if !alive || AlreadyAsked(records, v.identity.value, p.point) { return; }
      if Preview(p.point, p.rate, p.maximum, again, wellFormed) != Ok(p) { return; }
      if left == 0 { return; }
      var n := |records|;
      records, log := records + [Record(p, Submitting, None)], log + [Recorded(p.identity, p.point)];
      if left == 1 { return; }
      log := log + [Asked(p.identity, p.point)];
      if left == 2 { return; }
      records := records[n := if answer.Some? then Record(p, Closing, answer) else Record(p, Uncertain, None)];
    }
  }

  // ----- what an operation leaves behind, wherever it is cut -----

  /** A status pass rewrites every record as it finds it, unless a read raises or it dies before. */
  lemma StatusEnds(d: Disk, v: View, effects: nat)
    ensures
      var d' := Apply(d, Status(v, effects));
      if v.identity.None? || effects == 0 then d' == d
      else |d'.records| == |d.records| && forall i :: 0 <= i < |d.records| ==>
             d'.records[i] == Refreshed(d.records[i], v.identity.value, v)
  {
  }

  /** A submit first does that. It then stores its request, asks, and stores how the call ended, as far as it lives,
      exactly when no record of the wallet it read concerns the point and the plan still holds. */
  lemma SubmitEnds(d: Disk, v: View, p: Plan, again: View, wellFormed: bool, answer: Option<string>, effects: nat)
    ensures v.identity.None? ==> Apply(d, Submit(v, p, again, wellFormed, answer, effects)) == d
    ensures v.identity.Some? ==>
      var d1, d' := Apply(d, Status(v, effects)), Apply(d, Submit(v, p, again, wellFormed, answer, effects));
      var left := if d.records == [] then effects else effects - 1;
      if && left >= 1
         && (forall i :: 0 <= i < |d.records| ==>
               d.records[i].plan.identity != v.identity.value || d.records[i].plan.point != p.point)
         && wellFormed && exists k :: PlannedOn(again, p, k)
      then
        && d'.records == d1.records + [if left < 3 then Record(p, Submitting, None)
                                       else Record(p, if answer.Some? then Closing else Uncertain, answer)]
        && d'.log == d1.log + if left == 1 then [Recorded(p.identity, p.point)]
                              else [Recorded(p.identity, p.point), Asked(p.identity, p.point)]
      else d' == d1
  {
    if v.identity.Some? {
      PreviewIsExact(again, p, wellFormed);
      RecordsStayConcerned(d.records, v.identity.value, v, v.identity.value, p.point);
      var d1 := Apply(d, Status(v, effects));
      assert d1.log + [Recorded(p.identity, p.point)] + [Asked(p.identity, p.point)]
             == d1.log + [Recorded(p.identity, p.point), Asked(p.identity, p.point)];
      assert AlreadyAsked(d.records, v.identity.value, p.point)
             <==> exists i :: 0 <= i < |d.records| && Concerns(d.records[i], v.identity.value, p.point);
    }
  }

  // ----- every run -----

  /** Every close that was recorded or asked for has a record; every closed record has its confirmation. */
  ghost predicate Inv(d: Disk) {
    && (forall e :: e in d.log && !e.Confirmed? ==> AlreadyAsked(d.records, e.identity, e.point))
    && (forall r :: r in d.records && r.state.Closed? ==>
          HasConfirmation(d.log, r))
    && (forall e :: e in d.log && e.Confirmed? ==> ConfirmedIn(e.view, e.point))
  }

  lemma {:induction false} ConfirmationsAre(rs: seq<Record>, rs': seq<Record>, v: View, e: Entry)
    requires |rs| == |rs'|
    ensures e in Confirmations(rs, rs', v) <==>
            exists i :: 0 <= i < |rs| && rs'[i].state.Closed? && !rs[i].state.Closed?
                        && e == Confirmed(rs[i].plan.identity, rs[i].plan.point, v)
  {
    if rs != [] {
      var n := |rs| - 1;
      ConfirmationsAre(rs[..n], rs'[..n], v, e);
      assert forall i :: 0 <= i < n ==> rs[..n][i] == rs[i] && rs'[..n][i] == rs'[i];
    }
  }

  lemma ConfirmationsHold(rs: seq<Record>, id: string, v: View, e: Entry)
    requires e in Confirmations(rs, RefreshAll(rs, id, v), v)
    ensures e.Confirmed? && ConfirmedIn(e.view, e.point)
  {
    var rs' := RefreshAll(rs, id, v);
    ConfirmationsAre(rs, rs', v, e);
    var i :| 0 <= i < |rs| && rs'[i].state.Closed? && !rs[i].state.Closed?
        && e == Confirmed(rs[i].plan.identity, rs[i].plan.point, v);
    StatusClosesOnEvidence(rs[i], id, v);
  }

  lemma AsksStayRecorded(rs: seq<Record>, id: string, v: View, identity: string, point: string)
    requires AlreadyAsked(rs, identity, point)
    ensures AlreadyAsked(RefreshAll(rs, id, v), identity, point)
  {
    var rs' := RefreshAll(rs, id, v);
    var r :| r in rs && Concerns(r, identity, point);
    var i :| 0 <= i < |rs| && rs[i] == r;
    StatusClosesOnEvidence(r, id, v);
    assert rs'[i] in rs' && Concerns(rs'[i], identity, point);
  }

  ghost predicate HasConfirmation(log: seq<Entry>, r: Record) {
    exists e :: e in log && e.Confirmed? && Concerns(r, e.identity, e.point)
  }

  lemma ClosedStayConfirmed(d: Disk, id: string, v: View, r': Record)
    requires Inv(d) && r' in RefreshAll(d.records, id, v) && r'.state.Closed?
    ensures HasConfirmation(d.log + Confirmations(d.records, RefreshAll(d.records, id, v), v), r')
  {
    var rs := d.records;
    var rs' := RefreshAll(rs, id, v);
    var i :| 0 <= i < |rs| && rs'[i] == r';
    StatusClosesOnEvidence(rs[i], id, v);
    var e;
    if rs[i].state.Closed? {
      assert rs[i] in rs;
      e :| e in d.log && e.Confirmed? && Concerns(rs[i], e.identity, e.point);
    } else {
      e := Confirmed(rs[i].plan.identity, rs[i].plan.point, v);
      ConfirmationsAre(rs, rs', v, e);
    }
    assert e in d.log + Confirmations(rs, rs', v);
  }

  lemma StatusKeeps(d: Disk, v: View, effects: nat)
    requires Inv(d)
    ensures Inv(StatusPass(d, v, effects).disk)
  {
    if v.identity.Some? && d.records != [] && effects > 0 {
      var id := v.identity.value;
      var rs' := RefreshAll(d.records, id, v);
      var log' := d.log + Confirmations(d.records, rs', v);
      forall e | e in Confirmations(d.records, rs', v) ensures e.Confirmed? && ConfirmedIn(e.view, e.point) {
        ConfirmationsHold(d.records, id, v, e);
      }
      forall e | e in log' && !e.Confirmed? ensures AlreadyAsked(rs', e.identity, e.point) {
        AsksStayRecorded(d.records, id, v, e.identity, e.point);
      }
      forall r' | r' in rs' && r'.state.Closed? ensures HasConfirmation(log', r') {
        ClosedStayConfirmed(d, id, v, r');
      }
    }
  }

  lemma CloseKeeps(d: Disk, p: Plan, answer: Option<string>, effects: nat)
    requires Inv(d)
    ensures Inv(Close(d, p, answer, effects))
  {
    var d' := Close(d, p, answer, effects);
    if effects > 0 {
      var added := d'.records[|d.records|];
      assert d'.records == d.records + [added] && Concerns(added, p.identity, p.point) && added in d'.records;
      forall e | e in d'.log && !e.Confirmed? ensures AlreadyAsked(d'.records, e.identity, e.point) {
        if e in d.log {
          var r :| r in d.records && Concerns(r, e.identity, e.point);
          assert r in d'.records;
        }
      }
      forall r | r in d'.records && r.state.Closed?
        ensures HasConfirmation(d'.log, r)
      {
        assert r in d.records;
        var e :| e in d.log && e.Confirmed? && Concerns(r, e.identity, e.point);
        assert e in d'.log;
      }
    }
  }

  lemma {:induction false} RunKeeps(actions: seq<Action>)
    ensures Inv(Run(actions))
  {
    if actions != [] {
      var before, last := Run(actions[..|actions| - 1]), actions[|actions| - 1];
      RunKeeps(actions[..|actions| - 1]);
      StatusKeeps(before, last.view, last.effects);
      if last.Submit? {
        var pass := StatusPass(before, last.view, last.effects);
        if pass.Went? { CloseKeeps(pass.disk, last.plan, last.answer, pass.left); }
      }
    }
  }

  /** The wallet read by the status pass is the one the plan was made for, in every submit. */
  predicate WalletStable(a: Action) {
    a.Submit? ==> a.view.identity == Some(a.plan.identity)
  }

  // ----- the shared discipline, one slot per close -----

  datatype Key = Key(identity: string, point: string)

  function AbstractEntry(e: Entry): seq<Event<Key>> {
    match e
    case Recorded(identity, point) => [Intent(Key(identity, point))]
    case Asked(identity, point) => [Effect(Key(identity, point))]
    case Confirmed(_, _, _) => []
  }

  function Abstract(log: seq<Entry>): seq<Event<Key>> {
    if log == [] then [] else Abstract(log[..|log| - 1]) + AbstractEntry(log[|log| - 1])
  }

  lemma AbstractAppend(log: seq<Entry>, e: Entry)
    ensures Abstract(log + [e]) == Abstract(log) + AbstractEntry(e)
  {
    assert (log + [e])[..|log|] == log;
  }

  lemma {:induction false} AbstractHas(log: seq<Entry>, e: Entry)
    ensures e in log && !e.Confirmed? ==> AbstractEntry(e)[0] in Abstract(log)
    ensures e.Recorded? && AbstractEntry(e)[0] in Abstract(log) ==> e in log
  {
    if log != [] {
      var n := |log| - 1;
      AbstractHas(log[..n], e);
      assert log == log[..n] + [log[n]];
    }
  }

  lemma {:induction false} AbstractConcat(a: seq<Entry>, b: seq<Entry>)
    ensures Abstract(a + b) == Abstract(a) + Abstract(b)
  {
    if b == [] {
      assert a + b == a;
    } else {
      assert (a + b)[..|a + b| - 1] == a + b[..|b| - 1];
      AbstractConcat(a, b[..|b| - 1]);
    }
  }

  lemma {:induction false} ConfirmationsAreSilent(rs: seq<Record>, rs': seq<Record>, v: View)
    requires |rs| == |rs'|
    ensures Abstract(Confirmations(rs, rs', v)) == []
  {
    if rs != [] {
      var n := |rs| - 1;
      ConfirmationsAreSilent(rs[..n], rs'[..n], v);
      var before := Confirmations(rs[..n], rs'[..n], v);
      var e := Confirmed(rs[n].plan.identity, rs[n].plan.point, v);
      AbstractAppend(before, e);
      assert before + [] == before;
    }
  }

  lemma StatusIsSilent(d: Disk, v: View, effects: nat)
    ensures Abstract(StatusPass(d, v, effects).disk.log) == Abstract(d.log)
  {
    if v.identity.Some? && d.records != [] && effects > 0 {
      var rs' := RefreshAll(d.records, v.identity.value, v);
      ConfirmationsAreSilent(d.records, rs', v);
      AbstractConcat(d.log, Confirmations(d.records, rs', v));
    }
  }

  lemma CloseFollows(d: Disk, p: Plan, answer: Option<string>, effects: nat)
    requires Inv(d) && Keywise(Abstract(d.log)) && !AlreadyAsked(d.records, p.identity, p.point)
    ensures Keywise(Abstract(Close(d, p, answer, effects).log))
  {
    var r, a := Recorded(p.identity, p.point), Asked(p.identity, p.point);
    AbstractHas(d.log, r);
    KeywiseFresh(Abstract(d.log), Key(p.identity, p.point));
    AbstractAppend(d.log, r);
    AbstractAppend(d.log + [r], a);
  }

  /** The close journal keeps the shared discipline, with one slot per wallet and channel point. */
  lemma {:induction false} ClosesFollowDiscipline(actions: seq<Action>)
    requires forall a :: a in actions ==> WalletStable(a)
    ensures Keywise(Abstract(Run(actions).log))
  {
    if actions == [] {
      DisciplinedIsKeywise<Key>([]);
    } else {
      var before, last := Run(actions[..|actions| - 1]), actions[|actions| - 1];
      ClosesFollowDiscipline(actions[..|actions| - 1]);
      RunKeeps(actions[..|actions| - 1]);
      StatusKeeps(before, last.view, last.effects);
      StatusIsSilent(before, last.view, last.effects);
      var pass := StatusPass(before, last.view, last.effects);
      if last.Submit? && pass.Went? && !AlreadyAsked(pass.disk.records, last.view.identity.value, last.plan.point) {
        assert last in actions && WalletStable(last);
        CloseFollows(pass.disk, last.plan, last.answer, pass.left);
      }
    }
  }

  /** In every run with crashes and lost replies, one wallet asks to close one point at most once, and
      only after the request was stored, provided the wallet does not change in the middle of a submit. */
  lemma ClosedAtMostOnce(actions: seq<Action>)
    requires forall a :: a in actions ==> WalletStable(a)
    ensures
      var log := Run(actions).log;
      forall j {:trigger log[j]} :: 0 <= j < |log| && log[j].Asked? ==>
        log[j] !in log[..j] && Recorded(log[j].identity, log[j].point) in log[..j]
  {
    ClosesFollowDiscipline(actions);
    var log := Run(actions).log;
    forall j {:trigger log[j]} | 0 <= j < |log| && log[j].Asked?
      ensures log[j] !in log[..j] && Recorded(log[j].identity, log[j].point) in log[..j]
    {
      AskedOnce(log, j);
    }
  }

  lemma AskedOnce(log: seq<Entry>, j: nat)
    requires Keywise(Abstract(log)) && j < |log| && log[j].Asked?
    ensures log[j] !in log[..j] && Recorded(log[j].identity, log[j].point) in log[..j]
  {
    KeywiseUpTo(log, log[..j + 1]);
    AskedLast(log[..j + 1], j);
    assert log[..j + 1][..j] == log[..j];
  }

  lemma KeywiseUpTo(log: seq<Entry>, before: seq<Entry>)
    requires Keywise(Abstract(log)) && before <= log
    ensures Keywise(Abstract(before))
  {
    var h := Abstract(before);
    assert before == log[..|before|];
    AbstractPrefix(log, |before|);
    KeywisePrefix(Abstract(log), |h|);
    assert Abstract(log)[..|h|] == h;
  }

  lemma AskedLast(log: seq<Entry>, n: nat)
    requires |log| == n + 1 && log[n].Asked? && Keywise(Abstract(log))
    ensures log[n] !in log[..n] && Recorded(log[n].identity, log[n].point) in log[..n]
  {
    var g, e, k := log[..n], log[n], |Abstract(log[..n])|;
    assert Abstract(log)[..k] == Abstract(g) && Abstract(log)[k] == Effect(Key(e.identity, e.point));
    KeywiseEffectOnce(Abstract(log), k);
    AbstractHas(g, e);
    AbstractHas(g, Recorded(e.identity, e.point));
  }

  lemma {:induction false} AbstractPrefix(log: seq<Entry>, n: nat)
    requires n <= |log|
    ensures Abstract(log[..n]) <= Abstract(log)
    decreases |log|
  {
    if n == |log| {
      assert log[..n] == log;
    } else {
      AbstractPrefix(log[..|log| - 1], n);
      assert log[..|log| - 1][..n] == log[..n];
    }
  }

  /** Whatever the run, a record says closed only after a stored pass saw the confirmed close. */
  lemma ClosedRecordsWereConfirmed(actions: seq<Action>, r: Record)
    requires r in Run(actions).records && r.state.Closed?
    ensures exists e ::
              e in Run(actions).log && e.Confirmed? && Concerns(r, e.identity, e.point) && ConfirmedIn(e.view, e.point)
  {
    RunKeeps(actions);
  }

  function Asks(log: seq<Entry>, identity: string, point: string): nat {
    if log == [] then 0
    else Asks(log[..|log| - 1], identity, point) + if log[|log| - 1] == Asked(identity, point) then 1 else 0
  }

  lemma {:induction false} AsksAppend(log: seq<Entry>, more: seq<Entry>, identity: string, point: string)
    ensures Asks(log + more, identity, point) == Asks(log, identity, point) + Asks(more, identity, point)
  {
    if more == [] {
      assert log + more == log;
    } else {
      assert (log + more)[..|log + more| - 1] == log + more[..|more| - 1];
      AsksAppend(log, more[..|more| - 1], identity, point);
    }
  }

  lemma {:induction false} ConfirmationsAskNothing(rs: seq<Record>, rs': seq<Record>, v: View, identity: string,
                                                   point: string)
    requires |rs| == |rs'|
    ensures Asks(Confirmations(rs, rs', v), identity, point) == 0
  {
    if rs != [] {
      var n := |rs| - 1;
      ConfirmationsAskNothing(rs[..n], rs'[..n], v, identity, point);
      AsksAppend(Confirmations(rs[..n], rs'[..n], v),
                 if rs'[n].state.Closed? && !rs[n].state.Closed? then
                   [Confirmed(rs[n].plan.identity, rs[n].plan.point, v)]
                 else [],
                 identity, point);
    }
  }

  lemma RecordsStayConcerned(rs: seq<Record>, id: string, v: View, identity: string, point: string)
    ensures AlreadyAsked(RefreshAll(rs, id, v), identity, point) <==> AlreadyAsked(rs, identity, point)
  {
    var rs' := RefreshAll(rs, id, v);
    if AlreadyAsked(rs, identity, point) { AsksStayRecorded(rs, id, v, identity, point); }
    if AlreadyAsked(rs', identity, point) {
      var r :| r in rs' && Concerns(r, identity, point);
      var i :| 0 <= i < |rs'| && rs'[i] == r;
      assert rs[i] in rs && Concerns(rs[i], identity, point);
    }
  }

  /** The submit lives past its request, its plan still holds, and its status pass read another wallet
      than the plan's, one that has no record of the point. */
  predicate Repeats(d: Disk, a: Action, identity: string, point: string) {
    && a.Submit? && a.plan.identity == identity && a.plan.point == point && a.effects >= 3
    && Preview(point, a.plan.rate, a.plan.maximum, a.again, a.wellFormed) == Ok(a.plan)
    && a.view.identity.Some? && a.view.identity.value != identity
    && !AlreadyAsked(d.records, a.view.identity.value, point)
  }

  /** Exactly when any action asks again for a close that was asked for. */
  lemma RepeatsExactlyOnSwitch(actions: seq<Action>, a: Action, identity: string, point: string)
    requires Asked(identity, point) in Run(actions).log
    ensures
      var d := Run(actions);
      Asks(Apply(d, a).log, identity, point)
      == Asks(d.log, identity, point) + if Repeats(d, a, identity, point) then 1 else 0
  {
    RunKeeps(actions);
    var d := Run(actions);
    assert AlreadyAsked(d.records, identity, point);
    AsksOfStatus(d, a.view, a.effects, identity, point);
    if a.Submit? && a.view.identity.Some? && a.effects >= 1 {
      RecordsStayConcerned(d.records, a.view.identity.value, a.view, a.view.identity.value, a.plan.point);
      AsksOfClose(StatusPass(d, a.view, a.effects).disk, a.plan, a.answer, a.effects - 1, identity, point);
    }
  }

  lemma AsksOfStatus(d: Disk, v: View, effects: nat, identity: string, point: string)
    ensures Asks(StatusPass(d, v, effects).disk.log, identity, point) == Asks(d.log, identity, point)
  {
    if v.identity.Some? && d.records != [] && effects > 0 {
      var rs' := RefreshAll(d.records, v.identity.value, v);
      ConfirmationsAskNothing(d.records, rs', v, identity, point);
      AsksAppend(d.log, Confirmations(d.records, rs', v), identity, point);
    }
  }

  lemma AsksOfClose(d: Disk, p: Plan, answer: Option<string>, effects: nat, identity: string, point: string)
    ensures Asks(Close(d, p, answer, effects).log, identity, point)
            == Asks(d.log, identity, point)
               + if effects >= 2 && p.identity == identity && p.point == point then 1 else 0
  {
    AsksAppend(d.log, [Recorded(p.identity, p.point)], identity, point);
    AsksAppend(d.log + [Recorded(p.identity, p.point)], [Asked(p.identity, p.point)], identity, point);
  }

  /** Without the proviso it fails: when the wallet changes between the status read and the
      preview, the check looks at the wrong wallet's records and the close is asked for twice. */
  lemma WalletSwitchRepeatsClose() returns (actions: seq<Action>)
    ensures Run(actions).log == [Recorded("A", "p"), Asked("A", "p"), Recorded("A", "p"), Asked("A", "p")]
  {
    var open := Channel("p", "peer", true, false, 5, 9);
    var home, away := View(Some("A"), [open], [], []), View(Some("B"), [], [], []);
    var plan := Plan("A", "p", "peer", 5, 9, 1, 1);
    var first, second := Submit(home, plan, home, true, None, 3), Submit(away, plan, home, true, None, 4);
    assert FirstChannel([open], "p") == Some(open) && FirstPending([], "p") == None;
    assert Preview("p", 1, 1, home, true) == Ok(plan);
    var r := Record(plan, Uncertain, None);
    var log := [Recorded("A", "p"), Asked("A", "p")];
    assert [Recorded("A", "p")] + [Asked("A", "p")] == log;
    assert Apply(EMPTY, first) == Disk([r], log);
    assert Refreshed(r, "B", away) == r;
    assert RefreshAll([r], "B", away) == [r];
    assert Confirmations([r], [r], away) == [];
    assert log + [] == log;
    assert StatusPass(Disk([r], log), away, 4) == Went(Disk([r], log), 3);
    assert Apply(Disk([r], log), second) == Disk([r, r], log + log);
    actions := [first, second];
    assert actions[..1] == [first] && [first][..0] == [];
    assert Run([]) == EMPTY && Run([first]) == Apply(EMPTY, first);
  }
}
