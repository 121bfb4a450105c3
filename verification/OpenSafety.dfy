/** What the channel-open journal promises over every run of its operations and crashes. */
module OpenSafety {
  import opened Wrappers
  import opened Intents
  import opened OpenJournal
  import opened Selections

  function AbstractEntry(e: Entry): Event<string> {
    match e
    case Intended(r, _) => Intent(r.id)
    case Inherited(r) => Intent(r.id)
    case Sent(r) => Effect(r.id)
    case Presumed(r) => Effect(r.id)
    case Settled(r, _, _) => Resolve(r.id)
  }

  // ----- what a reconcile decides -----

  /** The channel carries the request's point, or before one is known its memo and funding transaction, and has
      its peer and capacity. */
  ghost predicate Fits(r: Record, c: Channel) {
    && c.peer == r.approval.peer && c.capacity == r.approval.amount
    && (if r.point.Some? then c.point == r.point.value
        else c.memo == r.memo && (r.fundingTxid.Some? ==> c.point.txid == r.fundingTxid.value))
  }

  /** Every channel of every group: open ones, then pending opens, then those closing. */
  ghost function Listed(v: View): seq<Channel> {
    v.channels + v.pendingOpen + v.closing
  }

  /** Entry k fits, and no other entry of any group does. */
  ghost predicate OnlyMatch(r: Record, v: View, k: int) {
    && 0 <= k < |Listed(v)| && Fits(r, Listed(v)[k])
    && forall i :: 0 <= i < |Listed(v)| && i != k ==> !Fits(r, Listed(v)[i])
  }

  ghost predicate NoMatch(r: Record, v: View) {
    forall i :: 0 <= i < |Listed(v)| ==> !Fits(r, Listed(v)[i])
  }

  /** What the group of entry k says of a request. */
  ghost function StateAt(v: View, k: int): State
    requires 0 <= k < |Listed(v)|
  {
    if k < |v.channels| then (if v.channels[k].active then Active else Confirmed)
    else if k < |v.channels| + |v.pendingOpen| then Broadcast
    else State.Closing
  }

  /** Closed channel k alone fits, and its close is confirmed and of a known type. */
  ghost predicate OnlyClose(r: Record, cs: seq<ClosedChannel>, k: int) {
    && 0 <= k < |cs| && Fits(r, cs[k].channel)
    && (forall i :: 0 <= i < |cs| && i != k ==> !Fits(r, cs[i].channel))
    && cs[k].height > 0 && cs[k].closingTx.Some? && cs[k].knownType
  }

  lemma FoundNothing(r: Record, v: View)
    ensures FoundOn(r, v) == [] <==> NoMatch(r, v)
  {
    var p := (c: Channel) => Matches(r, c);
    assert forall c :: p(c) <==> Fits(r, c);
    SelectNone(v.channels, p);
    SelectNone(v.pendingOpen, p);
    SelectNone(v.closing, p);
    SelectNone(Listed(v), p);
    SelectOver(v.channels, v.pendingOpen, p);
    SelectOver(v.channels + v.pendingOpen, v.closing, p);
  }

  lemma GroupOf(r: Record, cs: seq<Channel>, state: Channel -> State, k: int)
    requires 0 <= k < |cs| && Fits(r, cs[k]) && forall i :: 0 <= i < |cs| && i != k ==> !Fits(r, cs[i])
    ensures MatchingIn(r, cs, state) == [Candidate(state(cs[k]), cs[k])]
  {
    var p := (c: Channel) => Matches(r, c);
    assert forall c :: p(c) <==> Fits(r, c);
    SelectOnly(cs, p, k);
  }

  lemma EmptyGroup(r: Record, cs: seq<Channel>, state: Channel -> State)
    requires forall i :: 0 <= i < |cs| ==> !Fits(r, cs[i])
    ensures MatchingIn(r, cs, state) == []
  {
    SelectNone(cs, (c: Channel) => Matches(r, c));
  }

  lemma ListedIs(v: View)
    ensures
      var a, b := |v.channels|, |v.pendingOpen|;
      && (forall i :: 0 <= i < a ==> Listed(v)[i] == v.channels[i])
      && (forall i :: 0 <= i < b ==> Listed(v)[a + i] == v.pendingOpen[i])
      && (forall i :: 0 <= i < |v.closing| ==> Listed(v)[a + b + i] == v.closing[i])
  {
  }

  /** The candidate of entry k, if it is in this part of the list. */
  ghost function PartAt(v: View, k: int, from: int, to: int): seq<Candidate>
    requires 0 <= k < |Listed(v)|
  {
    if from <= k < to then [Candidate(StateAt(v, k), Listed(v)[k])] else []
  }

  lemma OpenPart(r: Record, v: View, k: int)
    requires OnlyMatch(r, v, k)
    ensures OpenOn(r, v) == PartAt(v, k, 0, |v.channels|)
  {
    var state := (c: Channel) => if c.active then Active else Confirmed;
    ListedIs(v);
    if k < |v.channels| { GroupOf(r, v.channels, state, k); } else { EmptyGroup(r, v.channels, state); }
  }

  lemma PendingPart(r: Record, v: View, k: int)
    requires OnlyMatch(r, v, k)
    ensures PendingOn(r, v) == PartAt(v, k, |v.channels|, |v.channels| + |v.pendingOpen|)
  {
    var a, b := |v.channels|, |v.pendingOpen|;
    var state := (c: Channel) => Broadcast;
    ListedIs(v);
    if a <= k < a + b { GroupOf(r, v.pendingOpen, state, k - a); } else { EmptyGroup(r, v.pendingOpen, state); }
  }

  lemma ClosingPart(r: Record, v: View, k: int)
    requires OnlyMatch(r, v, k)
    ensures ClosingOn(r, v) == PartAt(v, k, |v.channels| + |v.pendingOpen|, |Listed(v)|)
  {
    var n := |v.channels| + |v.pendingOpen|;
    var state := (c: Channel) => State.Closing;
    ListedIs(v);
    if n <= k { GroupOf(r, v.closing, state, k - n); } else { EmptyGroup(r, v.closing, state); }
  }

  lemma FoundOne(r: Record, v: View, k: int)
    requires OnlyMatch(r, v, k)
    ensures FoundOn(r, v) == [Candidate(StateAt(v, k), Listed(v)[k])]
  {
    OpenPart(r, v, k);
    PendingPart(r, v, k);
    ClosingPart(r, v, k);
  }

  lemma FoundSingle(r: Record, v: View) returns (k: nat)
    requires |FoundOn(r, v)| == 1
    ensures OnlyMatch(r, v, k)
  {
    var p := (c: Channel) => Matches(r, c);
    assert forall c :: p(c) <==> Fits(r, c);
    SelectOver(v.channels, v.pendingOpen, p);
    SelectOver(v.channels + v.pendingOpen, v.closing, p);
    k := SelectSingle(Listed(v), p);
  }

  lemma CloseIsOnly(r: Record, cs: seq<ClosedChannel>)
    ensures ConfirmsClose(MatchingClosed(r, cs)) <==> exists k :: OnlyClose(r, cs, k)
    ensures forall k :: OnlyClose(r, cs, k) ==> MatchingClosed(r, cs) == [cs[k]]
  {
    var p := (c: ClosedChannel) => Matches(r, c.channel);
    assert forall c: ClosedChannel :: p(c) <==> Fits(r, c.channel);
    if |MatchingClosed(r, cs)| == 1 {
      var k := SelectSingle(cs, p);
      assert OnlyClose(r, cs, k) <==> ConfirmsClose([cs[k]]);
    }
    forall k | OnlyClose(r, cs, k) ensures MatchingClosed(r, cs) == [cs[k]] { SelectOnly(cs, p, k); }
  }

  /** No answer resolves the request: it stays uncertain, if the wallet's transactions could be read. */
  ghost function Undecided(r: Record, v: View): Result<Record> {
    if v.transactions then Ok(r.(state := Uncertain)) else Raised
  }

  /** What a reconcile stores, in every case: the state of the one matching entry's group, with its point; closed,
      when a known point is nowhere left and one close of it is confirmed; and otherwise uncertain. */
  lemma ReconcileIsExact(r: Record, v: View)
    ensures v.identity != Some(r.approval.identity) ==> Reconciled(r, v).Raised?
    ensures v.identity == Some(r.approval.identity) ==>
              && (forall k :: OnlyMatch(r, v, k) ==>
                    Reconciled(r, v) == if Listed(v)[k].point.index.None? then Raised
                                        else Ok(r.(state := StateAt(v, k), point := Some(Listed(v)[k].point))))
              && (!NoMatch(r, v) && !(exists k :: OnlyMatch(r, v, k)) ==> Reconciled(r, v) == Undecided(r, v))
              && (NoMatch(r, v) && r.point.None? ==> Reconciled(r, v) == Undecided(r, v))
              && (NoMatch(r, v) && r.point.Some? && v.closed.None? ==> Reconciled(r, v).Raised?)
    ensures v.identity == Some(r.approval.identity) && NoMatch(r, v) && r.point.Some? && v.closed.Some? ==>
              && (forall k :: OnlyClose(r, v.closed.value, k) ==>
                    Reconciled(r, v) == Ok(r.(state := Closed, closingTx := v.closed.value[k].closingTx)))
              && (!(exists k :: OnlyClose(r, v.closed.value, k)) ==> Reconciled(r, v) == Undecided(r, v))
  {
    FoundNothing(r, v);
    forall k | OnlyMatch(r, v, k) ensures FoundOn(r, v) == [Candidate(StateAt(v, k), Listed(v)[k])] {
      FoundOne(r, v, k);
    }
    if |FoundOn(r, v)| == 1 { var k := FoundSingle(r, v); }
    if v.closed.Some? { CloseIsOnly(r, v.closed.value); }
  }

  // ----- what counts as a resolution -----

  /** Exactly one channel anywhere matches, and it is among the open ones. */
  ghost predicate UniquelyLive(r: Record, after: Record, v: View) {
    exists k :: OnlyMatch(r, v, k) && k < |v.channels| && v.channels[k].point.index.Some?
      && after == r.(state := if v.channels[k].active then Active else Confirmed, point := Some(v.channels[k].point))
  }

  /** The recorded point is nowhere open or pending, and exactly one confirmed close matches it. */
  ghost predicate ConfirmedClosed(r: Record, after: Record, v: View) {
    && r.point.Some? && NoMatch(r, v) && v.closed.Some?
    && exists k :: OnlyClose(r, v.closed.value, k)
         && after == r.(state := Closed, closingTx := v.closed.value[k].closingTx)
  }

  ghost predicate Justified(e: Entry) {
    match e
    case Intended(r, seen) => r == NewRecord(r.approval, r.id) && Previewed(seen, r.approval)
    case Sent(r) => r == NewRecord(r.approval, r.id)
    case Inherited(_) => true
    case Presumed(_) => true
    case Settled(r, after, Observed(v)) =>
      v.identity == Some(r.approval.identity) && (UniquelyLive(r, after, v) || ConfirmedClosed(r, after, v))
    case Settled(r, after, Refused) => r == NewRecord(r.approval, r.id) && after == r.(state := Rejected)
    case Settled(r, after, Attested(kind)) =>
      && r.state.Uncertain? && r.fundingTxid.None? && r.point.None? && after == r.(state := Rejected)
      && r.approval.amount > 0 && (kind.Minimum? ==> r.approval.amount < MIN_CHANNEL_SAT)
  }

  // ----- identity -----

  /** A later version of the same request: what identified it stays. */
  predicate Extends(r: Record, r': Record) {
    && r'.id == r.id && r'.approval == r.approval && r'.memo == r.memo
    && (r.fundingTxid.Some? ==> r'.fundingTxid == r.fundingTxid)
    && (r.point.Some? ==> r'.point == r.point)
  }

  /** A recorded point is well formed and belongs to the recorded funding transaction. */
  predicate PointFits(r: Record) {
    r.point.Some? ==> r.point.value.index.Some? && (r.fundingTxid.Some? ==> r.point.value.txid == r.fundingTxid.value)
  }

  /** A point is assigned only by a unique candidate that agrees on peer, capacity and memo and
      extends the recorded funding transaction; several candidates, or none, assign nothing. */
  lemma OnlyAUniqueMatchAssigns(r: Record, v: View)
    requires PointFits(r) && Reconciled(r, v).Ok?
    ensures
      var after := Reconciled(r, v).value;
      && Extends(r, after) && PointFits(after)
      && (after.point != r.point ==>
            && r.point.None?
            && exists k :: OnlyMatch(r, v, k) && after.point == Some(Listed(v)[k].point) && Listed(v)[k].memo == r.memo)
      && ((exists i, j :: 0 <= i < j < |Listed(v)| && Fits(r, Listed(v)[i]) && Fits(r, Listed(v)[j])) ==>
            after == r.(state := Uncertain))
  {
    ReconcileIsExact(r, v);
    if |FoundOn(r, v)| == 1 { var k := FoundSingle(r, v); }
  }

  /** A request stops blocking if and only if one open channel is its only match, or its known point is nowhere
      left and one close of it is confirmed; and then it is stored as that says. */
  lemma ResolutionIsExact(r: Record, v: View)
    ensures Reconciled(r, v).Ok? && !Blocking(Reconciled(r, v).value) <==>
            && v.identity == Some(r.approval.identity)
            && ((exists k :: OnlyMatch(r, v, k) && k < |v.channels| && v.channels[k].point.index.Some?)
                || (r.point.Some? && NoMatch(r, v) && v.closed.Some? && exists k :: OnlyClose(r, v.closed.value, k)))
    ensures Reconciled(r, v).Ok? && !Blocking(Reconciled(r, v).value) ==>
              Justified(Settled(r, Reconciled(r, v).value, Observed(v)))
  {
    ReconcileIsExact(r, v);
    if |FoundOn(r, v)| == 1 { var k := FoundSingle(r, v); }
    FoundNothing(r, v);
  }

  // ----- the invariant -----

  ghost predicate JournalMatchesLog(d: Disk) {
    && Disciplined(Project(d.log, AbstractEntry))
    && var m := Replay(Project(d.log, AbstractEntry)).value;
       && (m.slot.Held? <==> d.current.Some? && Blocking(d.current.value))
       && (m.slot.Held? ==> d.current.value.id == m.slot.key)
       && (d.current.Some? ==> d.current.value.id in m.used)
       && (forall id :: id in d.archive ==> id in m.used)
  }

  ghost predicate Versions(d: Disk) {
    && (d.current.Some? ==> PointFits(d.current.value))
    && (forall id :: id in d.archive ==> d.archive[id].id == id && PointFits(d.archive[id]))
    && (d.current.Some? && d.current.value.id in d.archive ==> Extends(d.archive[d.current.value.id], d.current.value))
  }

  ghost predicate Inv(d: Disk) {
    && JournalMatchesLog(d) && Versions(d)
    && (forall e :: e in d.log ==> Justified(e))
  }

  /** Nothing on disk forgets: archives extend, and the current request extends or is replaced by a new one. */
  ghost predicate Remembers(d: Disk, d': Disk)
    requires JournalMatchesLog(d) && JournalMatchesLog(d')
  {
    && StateOf(d.log).used <= StateOf(d'.log).used
    && (forall id :: id in d.archive ==> id in d'.archive && Extends(d.archive[id], d'.archive[id]))
    && (d.current.Some? ==>
          && d'.current.Some?
          && (if d'.current.value.id == d.current.value.id then Extends(d.current.value, d'.current.value)
              else d'.current.value.id !in StateOf(d.log).used))
  }

  lemma RemembersCompose(d: Disk, d': Disk, d'': Disk)
    requires JournalMatchesLog(d) && JournalMatchesLog(d') && JournalMatchesLog(d'')
    requires Remembers(d, d') && Remembers(d', d'')
    ensures Remembers(d, d'')
  {
  }

  // ----- one save keeps it -----

  ghost function StateOf(log: seq<Entry>): Machine<string>
    requires Disciplined(Project(log, AbstractEntry))
  {
    Replay(Project(log, AbstractEntry)).value
  }

  /** A later version of the request comes with its resolution exactly when it no longer blocks. */
  predicate Closes(after: Record, entries: seq<Entry>) {
    if Blocking(after) then entries == []
    else |entries| == 1 && entries[0].Settled? && entries[0].record.id == after.id
  }

  ghost predicate Accounts(after: Record, entries: seq<Entry>) {
    Closes(after, entries) && forall e :: e in entries ==> Justified(e)
  }

  lemma LogOfVersion(log: seq<Entry>, after: Record, entries: seq<Entry>)
    requires Disciplined(Project(log, AbstractEntry)) && StateOf(log).slot.Held? && StateOf(log).slot.key == after.id
    requires Closes(after, entries)
    ensures Disciplined(Project(log + entries, AbstractEntry)) && StateOf(log + entries).used == StateOf(log).used
    ensures StateOf(log + entries).slot == if Blocking(after) then StateOf(log).slot else Free
  {
    if entries == [] {
      assert log + entries == log;
    } else {
      assert entries == [entries[0]];
      LogOfSettled(log, entries[0]);
    }
  }

  lemma LogOfSettled(log: seq<Entry>, e: Entry)
    requires Disciplined(Project(log, AbstractEntry)) && e.Settled?
    requires StateOf(log).slot.Held? && StateOf(log).slot.key == e.record.id
    ensures Disciplined(Project(log + [e], AbstractEntry)) && StateOf(log + [e]) == StateOf(log).(slot := Free)
  {
    ProjectAppend(log, e, AbstractEntry);
    ReplayAppend(Project(log, AbstractEntry), Resolve(e.record.id));
  }

  lemma SaveKeepsSlot(d: Disk, after: Record, entries: seq<Entry>, effects: nat)
    requires JournalMatchesLog(d) && d.current.Some? && Blocking(d.current.value) && d.current.value.id == after.id
    requires Closes(after, entries)
    ensures JournalMatchesLog(Save(d, after, entries, effects))
    ensures StateOf(Save(d, after, entries, effects).log).used == StateOf(d.log).used
  {
    LogOfVersion(d.log, after, entries);
  }

  /** Storing a later version of the current request, with its resolution if it no longer blocks. */
  lemma SaveVersionKeeps(d: Disk, after: Record, entries: seq<Entry>, effects: nat)
    requires Inv(d) && d.current.Some? && Blocking(d.current.value)
    requires Extends(d.current.value, after) && PointFits(after) && Accounts(after, entries)
    ensures Inv(Save(d, after, entries, effects)) && Remembers(d, Save(d, after, entries, effects))
    ensures StateOf(Save(d, after, entries, effects).log).used == StateOf(d.log).used
  {
    SaveKeepsSlot(d, after, entries, effects);
  }

  lemma ReconcileKeeps(d: Disk, v: View, effects: nat)
    requires Inv(d)
    ensures Inv(ReconcilePass(d, v, effects).disk) && Remembers(d, ReconcilePass(d, v, effects).disk)
    ensures StateOf(ReconcilePass(d, v, effects).disk.log).used == StateOf(d.log).used
  {
    if d.current.Some? && Blocking(d.current.value) && Reconciled(d.current.value, v).Ok? {
      var r := d.current.value;
      var after := Reconciled(r, v).value;
      OnlyAUniqueMatchAssigns(r, v);
      if Blocking(after) {
        SaveVersionKeeps(d, after, [], effects);
        assert d.log + [] == d.log;
      } else {
        ResolutionIsExact(r, v);
        SaveVersionKeeps(d, after, [Settled(r, after, Observed(v))], effects);
      }
    }
  }

  lemma LogOfIntent(log: seq<Entry>, r: Record, seen: PreviewView)
    requires Disciplined(Project(log, AbstractEntry)) && StateOf(log).slot.Free? && r.id !in StateOf(log).used
    ensures Disciplined(Project(log + [Intended(r, seen)], AbstractEntry))
    ensures StateOf(log + [Intended(r, seen)]) == Machine(Held(r.id, false), StateOf(log).used + {r.id})
  {
    ProjectAppend(log, Intended(r, seen), AbstractEntry);
    ReplayAppend(Project(log, AbstractEntry), Intent(r.id));
  }

  /** A new request may take the slot when nothing blocks and its id was never used. */
  lemma SaveIntentKeeps(d: Disk, r: Record, seen: PreviewView, effects: nat)
    requires Inv(d) && Justified(Intended(r, seen)) && r.id !in StateOf(d.log).used
    requires d.current.Some? ==> !Blocking(d.current.value)
    ensures
      var d' := Save(d, r, [Intended(r, seen)], effects);
      && Inv(d') && Remembers(d, d')
      && (effects > 0 ==> d'.current == Some(r) && StateOf(d'.log).slot == Held(r.id, false))
  {
    var d' := Save(d, r, [Intended(r, seen)], effects);
    LogOfIntent(d.log, r, seen);
    assert JournalMatchesLog(d');
  }

  lemma SentKeeps(d: Disk, r: Record)
    requires Inv(d) && d.current == Some(r) && r == NewRecord(r.approval, r.id)
    requires StateOf(d.log).slot == Held(r.id, false)
    ensures
      var d' := d.(log := d.log + [Sent(r)]);
      Inv(d') && Remembers(d, d')
  {
    ProjectAppend(d.log, Sent(r), AbstractEntry);
    ReplayAppend(Project(d.log, AbstractEntry), Effect(r.id));
  }

  /** Any reply but an explicit refusal leaves the request blocking, and one that named a funding
      transaction can never be acknowledged as rejected. */
  lemma ReplyAccounts(r: Record, reply: Reply)
    requires r == NewRecord(r.approval, r.id)
    ensures Extends(r, AfterReply(r, reply)) && PointFits(AfterReply(r, reply))
    ensures Accounts(AfterReply(r, reply),
                     if reply.PreFundingRejection? then [Settled(r, AfterReply(r, reply), Refused)] else [])
    ensures reply.Answer? && reply.txid.Some? ==>
              && AfterReply(r, reply).fundingTxid == reply.txid
              && forall kind, identity, pinned :: !MayAcknowledge(AfterReply(r, reply), kind, identity, pinned)
  {
  }

  lemma OpenKeeps(d: Disk, a: Approval, id: string, seen: PreviewView, reply: Reply, effects: nat)
    requires Inv(d) && Previewed(seen, a) && id !in StateOf(d.log).used
    requires d.current.Some? ==> !Blocking(d.current.value)
    ensures Inv(Open(d, a, id, seen, reply, effects)) && Remembers(d, Open(d, a, id, seen, reply, effects))
  {
    var r := NewRecord(a, id);
    SaveIntentKeeps(d, r, seen, effects);
    if effects >= 3 {
      var intended := Save(d, r, [Intended(r, seen)], effects);
      var sent := intended.(log := intended.log + [Sent(r)]);
      SentKeeps(intended, r);
      FinishKeeps(sent, r, reply, effects - 3);
      RemembersCompose(d, intended, sent);
      RemembersCompose(d, sent, Outcome(sent, r, reply, effects - 3));
    }
  }

  lemma FinishKeeps(d: Disk, r: Record, reply: Reply, effects: nat)
    requires Inv(d) && d.current == Some(r) && r == NewRecord(r.approval, r.id)
    ensures Inv(Outcome(d, r, reply, effects)) && Remembers(d, Outcome(d, r, reply, effects))
  {
    ReplyAccounts(r, reply);
    SaveVersionKeeps(d, AfterReply(r, reply),
                     if reply.PreFundingRejection? then [Settled(r, AfterReply(r, reply), Refused)] else [], effects);
  }

  lemma UnusedIsNew(d: Disk, id: string)
    requires Inv(d) && Unused(d, id)
    ensures id !in StateOf(d.log).used
  {
    ReplayExplains(Project(d.log, AbstractEntry));
  }

  lemma ApplyKeeps(d: Disk, a: Action)
    requires Inv(d)
    ensures Inv(Apply(d, a)) && Remembers(d, Apply(d, a))
  {
    ReconcileKeeps(d, a.view, a.effects);
    var p := ReconcilePass(d, a.view, a.effects);
    match a
    case Reconcile(_, _) =>
    case Acknowledge(v, kind, identity, pinned, effects) =>
      if p.Went? && p.disk.current.Some? && MayAcknowledge(p.disk.current.value, kind, identity, pinned) {
        var r := p.disk.current.value;
        var after := r.(state := Rejected);
        SaveVersionKeeps(p.disk, after, [Settled(r, after, Attested(kind))], p.left);
        RemembersCompose(d, p.disk, Apply(d, a));
      }
    case Submit(v, approved, seen, id, reply, effects) =>
      if Unused(d, id) && p.Went? && (p.disk.current.Some? ==> !Blocking(p.disk.current.value))
          && Previewed(seen, approved) {
        UnusedIsNew(d, id);
        OpenKeeps(p.disk, approved, id, seen, reply, p.left);
        RemembersCompose(d, p.disk, Apply(d, a));
      }
  }

  lemma {:induction false} RunKeeps(d: Disk, actions: seq<Action>)
    requires Inv(d)
    ensures Inv(Run(d, actions)) && Remembers(d, Run(d, actions))
  {
    if actions != [] {
      var before := Run(d, actions[..|actions| - 1]);
      RunKeeps(d, actions[..|actions| - 1]);
      ApplyKeeps(before, actions[|actions| - 1]);
      RemembersCompose(d, before, Run(d, actions));
    }
  }
}
