/**
 The channel-open journal (ops/router_channels.py): one current request file, one archive file
 per request, one irreversible `openchannel`. Operations run one at a time under the lock; a
 process may die after any durable write or RPC, which `effects` counts.
 */
module OpenJournal {
  import opened Arithmetic
  import opened Runs
  import opened Wrappers
  import opened Funding
  import opened Selections

  const MIN_CHANNEL_SAT := 20000

  /** A channel point; `index` is None when the text is not txid:number. */
  datatype Point = Point(txid: string, index: Option<nat>)

  datatype Channel = Channel(point: Point, memo: string, peer: string, capacity: int, active: bool)

  /** `closingTx` is None when the hash is malformed; `knownType` says the close type is one of the real closes. */
  datatype ClosedChannel = ClosedChannel(channel: Channel, height: int, closingTx: Option<string>, knownType: bool)

  datatype State = Submitting | Uncertain | Broadcast | Closing | Active | Confirmed | Closed | Rejected

  /** The approved summary that `preview` computes and `submit` computes again. */
  datatype Approval = Approval(identity: string, peer: string, amount: int, rate: int, feeCap: int, totalCap: int,
                               committed: int, confirmed: int, reserved: int, currentReserved: int, locked: int,
                               selection: Selection)

  datatype Record = Record(approval: Approval, id: string, memo: string, state: State, fundingTxid: Option<string>,
                           point: Option<Point>, closingTx: Option<string>)

  predicate Blocking(r: Record) {
    r.state in {Submitting, Uncertain, Broadcast, Closing}
  }

  // ----- preview -----

  /** What `preview` reads; None where the read or its check raises. */
  datatype PreviewView = PreviewView(identity: Option<string>, channels: seq<Channel>, pendingOpen: seq<Channel>,
                                     peers: set<string>, confirmed: int, anchorReserved: int, locked: int,
                                     requiredReserve: Option<nat>, utxos: seq<Utxo>)

  function Capacities(cs: seq<Channel>): int {
    if cs == [] then 0 else Capacities(cs[..|cs| - 1]) + cs[|cs| - 1].capacity
  }

  predicate NoChannelWith(cs: seq<Channel>, peer: string) {
    forall c :: c in cs ==> c.peer != peer
  }

  /** Every check of `preview` before it selects inputs, and every field it fills. */
  predicate Summarized(v: PreviewView, a: Approval) {
    && a.amount > 0 && a.rate > 0 && a.feeCap > 0 && a.totalCap > 0
    && a.amount >= MIN_CHANNEL_SAT
    && v.identity == Some(a.identity) && a.peer != a.identity
    && NoChannelWith(v.channels, a.peer) && NoChannelWith(v.pendingOpen, a.peer)
    && a.peer in v.peers
    && a.committed == Capacities(v.channels + v.pendingOpen)
    && a.committed + a.amount <= a.totalCap
    && v.requiredReserve.Some?
    && a.confirmed == v.confirmed && a.currentReserved == v.anchorReserved && a.locked == v.locked
    && a.reserved == Max(v.anchorReserved, v.requiredReserve.value)
    && a.confirmed - a.reserved - a.locked >= a.amount + a.feeCap
  }

  /** `preview` on this view returns exactly this summary. */
  ghost predicate Previewed(v: PreviewView, a: Approval) {
    Summarized(v, a) && Decided(Candidates(v.utxos), a.amount, a.rate, a.feeCap, Selected(a.selection))
  }

  /** `preview` again, compared with what was approved. */
  method StillApproved(v: PreviewView, a: Approval) returns (same: bool)
    ensures same <==> Previewed(v, a)
  {
    if !Summarized(v, a) { return false; }
    var r := FundingSelection(v.utxos, a.amount, a.rate, a.feeCap);
    if Previewed(v, a) {
      DecisionIsUnique(Candidates(v.utxos), a.amount, a.rate, a.feeCap, r, Selected(a.selection));
    }
    return r == Selected(a.selection);
  }

  // ----- reconcile -----

  /** What `reconcile` reads. `identity` is None when one of its first reads raises; `closed` and
      `transactions` say whether the two later reads, if made, succeed. */
  datatype View = View(identity: Option<string>, channels: seq<Channel>, pendingOpen: seq<Channel>,
                       closing: seq<Channel>, closed: Option<seq<ClosedChannel>>, transactions: bool)

  predicate Identified(r: Record, c: Channel) {
    if r.point.Some? then Some(c.point) == r.point
    else c.memo == r.memo && (r.fundingTxid.Some? ==> c.point.txid == r.fundingTxid.value)
  }

  predicate Matches(r: Record, c: Channel) {
    Identified(r, c) && c.peer == r.approval.peer && c.capacity == r.approval.amount
  }

  datatype Candidate = Candidate(state: State, channel: Channel)

  function MatchingIn(r: Record, cs: seq<Channel>, state: Channel -> State): seq<Candidate> {
    var found := Select(cs, (c: Channel) => Matches(r, c));
    seq(|found|, i requires 0 <= i < |found| => Candidate(state(found[i]), found[i]))
  }

  function OpenOn(r: Record, v: View): seq<Candidate> {
    MatchingIn(r, v.channels, (c: Channel) => if c.active then Active else Confirmed)
  }

  function PendingOn(r: Record, v: View): seq<Candidate> {
    MatchingIn(r, v.pendingOpen, (c: Channel) => Broadcast)
  }

  function ClosingOn(r: Record, v: View): seq<Candidate> {
    MatchingIn(r, v.closing, (c: Channel) => Closing)
  }

  function FoundOn(r: Record, v: View): seq<Candidate> {
    OpenOn(r, v) + PendingOn(r, v) + ClosingOn(r, v)
  }

  function MatchingClosed(r: Record, cs: seq<ClosedChannel>): seq<ClosedChannel> {
    Select(cs, (c: ClosedChannel) => Matches(r, c.channel))
  }

  predicate ConfirmsClose(cs: seq<ClosedChannel>) {
    |cs| == 1 && cs[0].height > 0 && cs[0].closingTx.Some? && cs[0].knownType
  }

  function Uncertainly(r: Record, v: View): Result<Record> {
    if v.transactions then Ok(r.(state := Uncertain)) else Raised
  }

  function Reconciled(r: Record, v: View): Result<Record> {
    if v.identity != Some(r.approval.identity) then Raised
    else
      var found := FoundOn(r, v);
      if |found| == 1 then
        if found[0].channel.point.index.None? then Raised
        else Ok(r.(state := found[0].state, point := Some(found[0].channel.point)))
      else if found == [] && r.point.Some? then
        if v.closed.None? then Raised
        else
          var closed := MatchingClosed(r, v.closed.value);
          if ConfirmsClose(closed) then Ok(r.(state := Closed, closingTx := closed[0].closingTx))
          else Uncertainly(r, v)
      else Uncertainly(r, v)
  }

  // ----- the disk and its operations -----

  datatype RejectionKind = Minimum | Reserve

  datatype Why = Observed(view: View) | Refused | Attested(kind: RejectionKind)

  /** History: a stored new request, an issued `openchannel`, a stored resolution with its ground. A
      request that an older journal left behind is inherited, and presumed sent. */
  datatype Entry =
    | Inherited(record: Record)
    | Presumed(record: Record)
    | Intended(record: Record, seen: PreviewView)
    | Sent(record: Record)
    | Settled(record: Record, after: Record, why: Why)

  datatype Disk = Disk(current: Option<Record>, archive: map<string, Record>, log: seq<Entry>)

  const EMPTY := Disk(None, map[], [])

  /** The two atomic file replacements, as far as the process lives. */
  function Save(d: Disk, r: Record, entries: seq<Entry>, effects: nat): Disk {
    if effects == 0 then d
    else if effects == 1 then d.(current := Some(r), log := d.log + entries)
    else Disk(Some(r), d.archive[r.id := r], d.log + entries)
  }

  /** How an operation's reconcile ended: it raised or died, or it goes on with this record. */
  datatype Pass = Stopped(disk: Disk) | Went(disk: Disk, left: nat)

  function ReconcilePass(d: Disk, v: View, effects: nat): Pass {
    if d.current.None? || !Blocking(d.current.value) then Went(d, effects)
    else
      var r := d.current.value;
      match Reconciled(r, v)
      case Raised => Stopped(d)
      case Ok(after) =>
        var saved := Save(d, after, if Blocking(after) then [] else [Settled(r, after, Observed(v))], effects);
        if effects < 2 then Stopped(saved) else Went(saved, effects - 2)
  }

  /** The daemon's answer; a field is None when malformed. `index` is absent in lncli's own answer. */
  datatype IndexField = Absent | Malformed | Index(n: nat)
  datatype Reply = Answer(txid: Option<string>, index: IndexField) | PreFundingRejection | Lost

  function AfterReply(r: Record, reply: Reply): Record {
    match reply
    case Lost => r.(state := Uncertain)
    case PreFundingRejection => r.(state := Rejected)
    case Answer(None, _) => r.(state := Uncertain)
    case Answer(Some(txid), Malformed) => r.(state := Uncertain, fundingTxid := Some(txid))
    case Answer(Some(txid), Absent) => r.(state := Broadcast, fundingTxid := Some(txid))
    case Answer(Some(txid), Index(n)) =>
      r.(state := Broadcast, fundingTxid := Some(txid), point := Some(Point(txid, Some(n))))
  }

  function Memo(id: string): string {
    "lndops-router-" + id
  }

  function NewRecord(a: Approval, id: string): Record {
    Record(a, id, Memo(id), Submitting, None, None, None)
  }

  /** The answer is stored, a refusal as a resolution. */
  function Outcome(d: Disk, r: Record, reply: Reply, effects: nat): Disk {
    var after := AfterReply(r, reply);
    Save(d, after, if reply.PreFundingRejection? then [Settled(r, after, Refused)] else [], effects)
  }

  /** From the stored intent through the RPC to its stored outcome. */
  function Open(d: Disk, a: Approval, id: string, seen: PreviewView, reply: Reply, effects: nat): Disk {
    var r := NewRecord(a, id);
    var intended := Save(d, r, [Intended(r, seen)], effects);
    if effects < 3 then intended else Outcome(intended.(log := intended.log + [Sent(r)]), r, reply, effects - 3)
  }

  datatype Action =
    | Reconcile(view: View, effects: nat)
    | Acknowledge(view: View, kind: RejectionKind, identity: Option<string>, pinned: bool, effects: nat)
    | Submit(view: View, approved: Approval, seen: PreviewView, id: string, reply: Reply, effects: nat)

  predicate MayAcknowledge(r: Record, kind: RejectionKind, identity: Option<string>, pinned: bool) {
    && r.state.Uncertain? && r.approval.amount > 0 && r.fundingTxid.None? && r.point.None?
    && (kind.Minimum? ==> r.approval.amount < MIN_CHANNEL_SAT)
    && identity == Some(r.approval.identity) && pinned
  }

  predicate Unused(d: Disk, id: string) {
    forall e :: e in d.log ==> e.record.id != id
  }

  /** One whole operation under the lock. Request ids are fresh UUIDs. */
  ghost function Apply(d: Disk, a: Action): Disk {
    match a
    case Reconcile(v, effects) => ReconcilePass(d, v, effects).disk
    case Acknowledge(v, kind, identity, pinned, effects) =>
      var p := ReconcilePass(d, v, effects);
      if p.Stopped? || p.disk.current.None? || !MayAcknowledge(p.disk.current.value, kind, identity, pinned) then p.disk
      else
        var r := p.disk.current.value;
        var after := r.(state := Rejected);
        Save(p.disk, after, [Settled(r, after, Attested(kind))], p.left)
    case Submit(v, approved, seen, id, reply, effects) =>
      var p := ReconcilePass(d, v, effects);
      if !Unused(d, id) || p.Stopped? || (p.disk.current.Some? && Blocking(p.disk.current.value))
         || !Previewed(seen, approved) then p.disk
      else Open(p.disk, approved, id, seen, reply, p.left)
  }

  ghost function Run(d: Disk, actions: seq<Action>): Disk {
    Fold(Apply, d, actions)
  }

  // ----- the operations as the source performs them -----

  class OpenStore {
    var current: Option<Record>
    var archive: map<string, Record>
    ghost var log: seq<Entry>

    ghost function OnDisk(): Disk
      reads this
    {
      Disk(current, archive, log)
    }

    constructor (d: Disk)
      ensures OnDisk() == d
    {
      current, archive, log := d.current, d.archive, d.log;
    }

    method SaveBoth(r: Record, ghost entries: seq<Entry>, effects: nat)
      modifies this
      ensures OnDisk() == Save(old(OnDisk()), r, entries, effects)
    {
      if effects == 0 { return; }
      current, log := Some(r), log + entries;
      if effects == 1 { return; }
      archive := archive[r.id := r];
    }

    method ReconcileFirst(v: View, effects: nat) returns (alive: bool, left: nat)
      modifies this
      ensures
        var p := ReconcilePass(old(OnDisk()), v, effects);
        OnDisk() == p.disk && (alive <==> p.Went?) && (p.Went? ==> left == p.left)
    {
      left := effects;
      if current.None? || !Blocking(current.value) { return true, left; }
      var after := Reconciled(current.value, v);
      if after.Raised? { return false, left; }
      SaveBoth(after.value,
               if Blocking(after.value) then [] else [Settled(current.value, after.value, Observed(v))], effects);
      if effects < 2 { return false, left; }
      return true, effects - 2;
    }

    method AcknowledgeRejection(v: View, kind: RejectionKind, identity: Option<string>, pinned: bool, effects: nat)
      modifies this
      ensures OnDisk() == Apply(old(OnDisk()), Acknowledge(v, kind, identity, pinned, effects))
    {
      var alive, left := ReconcileFirst(v, effects);
      if !alive || current.None? || !MayAcknowledge(current.value, kind, identity, pinned) { return; }
      var after := current.value.(state := Rejected);
      SaveBoth(after, [Settled(current.value, after, Attested(kind))], left);
    }

    method SubmitOpen(v: View, approved: Approval, seen: PreviewView, id: string, reply: Reply, effects: nat)
      requires Unused(OnDisk(), id)
      modifies this
      ensures OnDisk() == Apply(old(OnDisk()), Submit(v, approved, seen, id, reply, effects))
    {
      var alive, left := ReconcileFirst(v, effects);
      if !alive || (current.Some? && Blocking(current.value)) { return; }
      var same := StillApproved(seen, approved);
      if !same { return; }
      var r := NewRecord(approved, id);
      SaveBoth(r, [Intended(r, seen)], left);
      if left < 3 { return; }
      log := log + [Sent(r)];
      var after := AfterReply(r, reply);
      SaveBoth(after, if reply.PreFundingRejection? then [Settled(r, after, Refused)] else [], left - 3);
    }
  }
}
