/** The channel-open journal's theorems, over every run from an empty disk or from one that an older
    version of the tool left with a request still open. */
module OpenTheorems {
  import opened Wrappers
  import opened Intents
  import opened Funding
  import opened OpenJournal
  import opened OpenSafety

  // ----- where a run may start -----

  /** One blocking request of an older journal, which may have been sent; nothing else is known of it. */
  ghost predicate Legacy(d: Disk) {
    && d.current.Some? && Blocking(d.current.value) && Versions(d)
    && d.archive.Keys <= {d.current.value.id}
    && d.log == [Inherited(d.current.value), Presumed(d.current.value)]
  }

  ghost predicate Origin(d: Disk) {
    d == EMPTY || Legacy(d)
  }

  lemma OriginIsFine(d: Disk)
    requires Origin(d)
    ensures Inv(d)
  {
    if Legacy(d) {
      var id := d.current.value.id;
      var h: seq<Event<string>> := [Intent(id)];
      assert Project(d.log, AbstractEntry) == h + [Effect(id)];
      assert [] + h == h;
      ReplayAppend<string>([], Intent(id));
      ReplayAppend(h, Effect(id));
    }
  }

  // ----- where the entries of a history come from -----

  predicate Old(e: Entry) {
    e.Inherited? || e.Presumed?
  }

  /** The entry that brought this request into the journal, perhaps in an earlier version. */
  predicate Roots(e: Entry, r: Record) {
    (e.Intended? || e.Inherited?) && Extends(e.record, r)
  }

  ghost predicate Rooted(log: seq<Entry>, r: Record) {
    exists e :: e in log && Roots(e, r)
  }

  ghost predicate Traced(d: Disk) {
    && (d.current.Some? ==> Rooted(d.log, d.current.value))
    && (forall e :: e in d.log && e.Settled? ==> Rooted(d.log, e.record))
  }

  /** Only the start of a history is old. */
  ghost predicate Continues(d: Disk, d': Disk) {
    d.log <= d'.log && forall i {:trigger d'.log[i]} :: |d.log| <= i < |d'.log| ==> !Old(d'.log[i])
  }

  lemma SaveTraces(d: Disk, r: Record, entries: seq<Entry>, effects: nat)
    requires Traced(d) && forall e :: e in entries ==> !Old(e)
    requires Rooted(d.log, r) || exists e :: e in entries && Roots(e, r)
    requires forall e :: e in entries && e.Settled? ==> Rooted(d.log, e.record)
    ensures Traced(Save(d, r, entries, effects)) && Continues(d, Save(d, r, entries, effects))
  {
  }

  lemma PassTraces(d: Disk, v: View, effects: nat)
    requires Traced(d) && Versions(d)
    ensures Traced(ReconcilePass(d, v, effects).disk) && Continues(d, ReconcilePass(d, v, effects).disk)
  {
    if d.current.Some? && Blocking(d.current.value) && Reconciled(d.current.value, v).Ok? {
      var r, after := d.current.value, Reconciled(d.current.value, v).value;
      OnlyAUniqueMatchAssigns(r, v);
      SaveTraces(d, after, if Blocking(after) then [] else [Settled(r, after, Observed(v))], effects);
    }
  }

  lemma IntentTraces(d: Disk, r: Record, seen: PreviewView, effects: nat)
    requires Traced(d)
    ensures
      var d' := Save(d, r, [Intended(r, seen)], effects);
      Traced(d') && Continues(d, d') && (effects > 0 ==> Rooted(d'.log, r))
  {
    var e := Intended(r, seen);
    assert e in [e] && Roots(e, r);
    assert e in d.log + [e];
    SaveTraces(d, r, [e], effects);
  }

  lemma OutcomeTraces(d: Disk, r: Record, reply: Reply, effects: nat)
    requires Traced(d) && r == NewRecord(r.approval, r.id) && Rooted(d.log, r)
    ensures Traced(Outcome(d, r, reply, effects)) && Continues(d, Outcome(d, r, reply, effects))
  {
    var after := AfterReply(r, reply);
    SaveTraces(d, after, if reply.PreFundingRejection? then [Settled(r, after, Refused)] else [], effects);
  }

  lemma SentTraces(d: Disk, r: Record)
    requires Traced(d) && Justified(Sent(r)) && Rooted(d.log, r)
    ensures
      var d' := d.(log := d.log + [Sent(r)]);
      Traced(d') && Continues(d, d') && Rooted(d'.log, r)
  {
  }

  lemma OpenTraces(d: Disk, a: Approval, id: string, seen: PreviewView, reply: Reply, effects: nat)
    requires Traced(d)
    ensures Traced(Open(d, a, id, seen, reply, effects)) && Continues(d, Open(d, a, id, seen, reply, effects))
  {
    var r := NewRecord(a, id);
    IntentTraces(d, r, seen, effects);
    if effects >= 3 {
      var intended := Save(d, r, [Intended(r, seen)], effects);
      SentTraces(intended, r);
      OutcomeTraces(intended.(log := intended.log + [Sent(r)]), r, reply, effects - 3);
    }
  }

  lemma ApplyTraces(d: Disk, a: Action)
    requires Traced(d) && Versions(d)
    ensures Traced(Apply(d, a)) && Continues(d, Apply(d, a))
  {
    PassTraces(d, a.view, a.effects);
    var p := ReconcilePass(d, a.view, a.effects);
    match a
    case Reconcile(_, _) =>
    case Acknowledge(v, kind, identity, pinned, effects) =>
      if p.Went? && p.disk.current.Some? && MayAcknowledge(p.disk.current.value, kind, identity, pinned) {
        var r := p.disk.current.value;
        SaveTraces(p.disk, r.(state := Rejected), [Settled(r, r.(state := Rejected), Attested(kind))], p.left);
      }
    case Submit(v, approved, seen, id, reply, effects) =>
      if p.Went? { OpenTraces(p.disk, approved, id, seen, reply, p.left); }
  }

  lemma {:induction false} RunTraces(d: Disk, actions: seq<Action>)
    requires Traced(d) && Inv(d)
    ensures Traced(Run(d, actions)) && Continues(d, Run(d, actions))
  {
    if actions != [] {
      RunTraces(d, actions[..|actions| - 1]);
      RunKeeps(d, actions[..|actions| - 1]);
      ApplyTraces(Run(d, actions[..|actions| - 1]), actions[|actions| - 1]);
    }
  }

  /** Everything known of a run's history. */
  lemma RunIsKnown(d: Disk, actions: seq<Action>)
    requires Origin(d)
    ensures Inv(Run(d, actions)) && Traced(Run(d, actions)) && Continues(d, Run(d, actions))
  {
    OriginIsFine(d);
    RunKeeps(d, actions);
    if Legacy(d) { assert Roots(d.log[0], d.current.value); }
    RunTraces(d, actions);
  }

  // ----- theorems -----

  /** An `openchannel` of this tool, or one that the older tool may have issued. */
  predicate Opens(e: Entry) {
    e.Sent? || e.Presumed?
  }

  /** What stands right before an `openchannel` of this tool. */
  lemma SentAfterIntended(d: Disk, actions: seq<Action>, j: nat)
    requires Origin(d) && j < |Run(d, actions).log| && Run(d, actions).log[j].Sent?
    ensures
      var log := Run(d, actions).log;
      j > 0 && log[j - 1].Intended? && log[j - 1].record.id == log[j].record.id && Justified(log[j - 1])
  {
    RunIsKnown(d, actions);
    var log := Run(d, actions).log;
    var h := Project(log, AbstractEntry);
    assert h[j] == AbstractEntry(log[j]);
    EffectNeighbours(h, j);
    assert h[j - 1] == AbstractEntry(log[j - 1]);
    assert log[j - 1] in log;
    assert log[j - 1].Inherited? ==> j - 1 < |d.log|;
  }

  /** In every run a second `openchannel` comes only after a stored, justified resolution of the
      first request, be it inherited or not, and after its own intent was stored. */
  lemma SecondOpenNeedsResolution(d: Disk, actions: seq<Action>, i: nat, j: nat)
    requires Origin(d) && i < j < |Run(d, actions).log|
    requires Opens(Run(d, actions).log[i]) && Opens(Run(d, actions).log[j])
    ensures
      var log := Run(d, actions).log;
      && log[j].Sent? && log[i].record.id != log[j].record.id
      && i + 1 < j - 1
      && log[i + 1].Settled? && log[i + 1].record.id == log[i].record.id && Justified(log[i + 1])
      && log[j - 1].Intended? && log[j - 1].record.id == log[j].record.id
  {
    RunIsKnown(d, actions);
    var log := Run(d, actions).log;
    var h := Project(log, AbstractEntry);
    assert h[i] == AbstractEntry(log[i]) && h[j] == AbstractEntry(log[j]);
    ResolvedBetweenEffects(h, i, j);
    assert h[i + 1] == AbstractEntry(log[i + 1]);
    assert log[i + 1] in log;
    SentAfterIntended(d, actions, j);
  }

  /** Every check of the preview: a new peer that is connected, both budgets, the reserve for one more channel and
      what is locked kept back, and a smallest choice of inputs, largest first, that pays amount and fee bound. */
  ghost predicate AffordableOn(seen: PreviewView, a: Approval) {
    && a.amount >= 20000 && a.rate > 0 && a.feeCap > 0 && a.totalCap > 0
    && seen.identity == Some(a.identity) && a.peer != a.identity && a.peer in seen.peers
    && (forall c :: c in seen.channels || c in seen.pendingOpen ==> c.peer != a.peer)
    && a.committed == Capacities(seen.channels) + Capacities(seen.pendingOpen) && a.committed + a.amount <= a.totalCap
    && seen.requiredReserve.Some? && a.reserved >= seen.anchorReserved && a.reserved >= seen.requiredReserve.value
    && (a.reserved == seen.anchorReserved || a.reserved == seen.requiredReserve.value)
    && a.currentReserved == seen.anchorReserved && a.confirmed == seen.confirmed && a.locked == seen.locked
    && seen.confirmed >= a.reserved + seen.locked + a.amount + a.feeCap
    && a.selection.feeUpperBound <= a.feeCap && a.selection.inputSat >= a.amount + a.selection.feeUpperBound
    && exists picked ::
         && Pays(seen.utxos, picked, a.amount, a.rate, a.feeCap) && IsSelection(a.selection, picked, a.rate)
         && forall other :: Pays(seen.utxos, other, a.amount, a.rate, a.feeCap) ==> |picked| <= |other|
  }

  /** Capacities are summed. */
  lemma {:induction false} CapacitiesAdd(a: seq<Channel>, b: seq<Channel>)
    ensures Capacities(a + b) == Capacities(a) + Capacities(b)
    ensures |a| == 1 ==> Capacities(a) == a[0].capacity
  {
    if b == [] {
      assert a + b == a;
    } else {
      assert (a + b)[..|a + b| - 1] == a + b[..|b| - 1];
      CapacitiesAdd(a, b[..|b| - 1]);
    }
  }

  lemma PreviewedIsAffordable(seen: PreviewView, a: Approval)
    requires Previewed(seen, a)
    ensures AffordableOn(seen, a)
  {
    CapacitiesAdd(seen.channels, seen.pendingOpen);
    SelectionIsMinimal(seen.utxos, a.amount, a.rate, a.feeCap, a.selection);
  }

  /** A summary is previewed exactly when it says what the view says, passes every check, and its inputs are the
      ones the selection decides on. */
  lemma PreviewIsExact(seen: PreviewView, a: Approval)
    ensures Previewed(seen, a) <==>
              && AffordableOn(seen, a)
              && Decided(Candidates(seen.utxos), a.amount, a.rate, a.feeCap, Selected(a.selection))
  {
    CapacitiesAdd(seen.channels, seen.pendingOpen);
    if Previewed(seen, a) { PreviewedIsAffordable(seen, a); }
  }

  /** Every `openchannel` was preceded by the stored intent of a plan that the same locked
      operation had just recomputed: its inputs pay amount and bounded fee, and the budgets hold. */
  lemma SentOpensWereAffordable(d: Disk, actions: seq<Action>)
    requires Origin(d)
    ensures
      var log := Run(d, actions).log;
      forall j {:trigger log[j]} :: 0 <= j < |log| && log[j].Sent? ==>
        && j > 0 && log[j - 1].Intended? && log[j - 1].record.id == log[j].record.id
        && AffordableOn(log[j - 1].seen, log[j - 1].record.approval)
  {
    var log := Run(d, actions).log;
    forall j {:trigger log[j]} | 0 <= j < |log| && log[j].Sent?
      ensures j > 0 && log[j - 1].Intended? && log[j - 1].record.id == log[j].record.id
      ensures AffordableOn(log[j - 1].seen, log[j - 1].record.approval)
    {
      SentAfterIntended(d, actions, j);
      PreviewedIsAffordable(log[j - 1].seen, log[j - 1].record.approval);
    }
  }

  /** Channel identity is write-once: whatever happens later, a request on disk, current or
      archived, keeps its funding transaction and channel point; a recorded point always extends
      the recorded funding transaction. */
  lemma IdentityIsWriteOnce(start: Disk, first: seq<Action>, later: seq<Action>)
    requires Origin(start)
    ensures
      var d := Run(start, first);
      var d' := Run(d, later);
      && (forall id :: id in d.archive ==>
            id in d'.archive && Extends(d.archive[id], d'.archive[id]) && PointFits(d'.archive[id]))
      && (d.current.Some? ==>
            && d'.current.Some? && PointFits(d'.current.value)
            && (d'.current.value.id == d.current.value.id ==> Extends(d.current.value, d'.current.value)))
  {
    OriginIsFine(start);
    RunKeeps(start, first);
    RunKeeps(Run(start, first), later);
  }

  // ----- what an operation leaves behind, wherever it is cut -----

  ghost predicate Unresolved(d: Disk) {
    d.current.Some? && d.current.value.state in {Submitting, Uncertain, Broadcast, State.Closing}
  }

  /** A version stored in the current file and then in the archive, as far as the process lives. */
  ghost predicate Stored(d: Disk, d': Disk, r: Record, entries: seq<Entry>, effects: int) {
    && d'.current == (if effects >= 1 then Some(r) else d.current)
    && d'.archive == (if effects >= 2 then d.archive[r.id := r] else d.archive)
    && d'.log == d.log + if effects >= 1 then entries else []
  }

  /** What each answer makes of a new request: refused, unknown, or broadcast under the transaction it names and,
      when a valid output is named too, at that point. */
  ghost predicate IsAnswered(r: Record, reply: Reply, after: Record) {
    && after == r.(state := after.state, fundingTxid := after.fundingTxid, point := after.point)
    && after.state == (match reply
                       case PreFundingRejection => Rejected
                       case Answer(Some(_), index) => if index.Malformed? then Uncertain else Broadcast
                       case _ => Uncertain)
    && after.fundingTxid == (if reply.Answer? then reply.txid else None)
    && after.point == (if reply.Answer? && reply.txid.Some? && reply.index.Index?
                       then Some(Point(reply.txid.value, Some(reply.index.n))) else None)
  }

  /** With no request unresolved, a submit whose plan holds stores its request, calls, and stores the answer, as far
      as the process lives; one whose plan does not hold changes nothing. */
  lemma SubmitEnds(d: Disk, v: View, a: Approval, seen: PreviewView, id: string, reply: Reply, effects: nat)
    requires !Unresolved(d) && Unused(d, id)
    ensures
      var d' := Apply(d, Submit(v, a, seen, id, reply, effects));
      if !Previewed(seen, a) then d' == d
      else
        var r := Record(a, id, "lndops-router-" + id, Submitting, None, None, None);
        if effects < 3 then Stored(d, d', r, [Intended(r, seen)], effects)
        else
          exists after, d1 ::
            && IsAnswered(r, reply, after) && Stored(d, d1, r, [Intended(r, seen), Sent(r)], 2)
            && Stored(d1, d', after, if reply.PreFundingRejection? then [Settled(r, after, Refused)] else [],
                      effects - 3)
  {
    assert d.log + [] == d.log;
    if Previewed(seen, a) && effects >= 3 { OpenEnds(d, a, seen, id, reply, effects); }
  }

  lemma OpenEnds(d: Disk, a: Approval, seen: PreviewView, id: string, reply: Reply, effects: nat)
    requires effects >= 3
    ensures
      var r := Record(a, id, "lndops-router-" + id, Submitting, None, None, None);
      var d' := Open(d, a, id, seen, reply, effects);
      exists after, d1 ::
        && IsAnswered(r, reply, after) && Stored(d, d1, r, [Intended(r, seen), Sent(r)], 2)
        && Stored(d1, d', after, if reply.PreFundingRejection? then [Settled(r, after, Refused)] else [], effects - 3)
  {
    var r := NewRecord(a, id);
    var after, d1 := AfterReply(r, reply), Save(d, r, [Intended(r, seen)], effects);
    assert IsAnswered(r, reply, after);
    var sent := d1.(log := d1.log + [Sent(r)]);
    assert sent.log == d.log + [Intended(r, seen), Sent(r)];
    assert Stored(d, sent, r, [Intended(r, seen), Sent(r)], 2);
    assert sent.log + [] == sent.log;
  }

  /** An unresolved request that a reconcile does not resolve blocks every submit: only the reconcile is stored. */
  lemma SubmitBlocked(d: Disk, v: View, a: Approval, seen: PreviewView, id: string, reply: Reply, effects: nat)
    requires Unresolved(d) && (Reconciled(d.current.value, v).Ok? ==> Blocking(Reconciled(d.current.value, v).value))
    ensures Apply(d, Submit(v, a, seen, id, reply, effects)) == Apply(d, Reconcile(v, effects))
  {
  }

  /** A submit first stores what its reconcile decides, and goes on from there. */
  lemma SubmitResolves(d: Disk, v: View, a: Approval, seen: PreviewView, id: string, reply: Reply, effects: nat)
    requires Unresolved(d) && effects >= 2 && Reconciled(d.current.value, v).Ok?
    requires !Blocking(Reconciled(d.current.value, v).value)
    requires Unused(d, id) && Unused(Apply(d, Reconcile(v, 2)), id)
    ensures Apply(d, Submit(v, a, seen, id, reply, effects))
            == Apply(Apply(d, Reconcile(v, 2)), Submit(v, a, seen, id, reply, effects - 2))
  {
  }

  /** A reconcile stores what it decides, a resolution with its ground; when it cannot decide, or nothing is
      unresolved, it changes nothing. */
  lemma ReconcileEnds(d: Disk, v: View, effects: nat)
    ensures
      var d' := Apply(d, Reconcile(v, effects));
      if !Unresolved(d) || Reconciled(d.current.value, v).Raised? then d' == d
      else
        var r, after := d.current.value, Reconciled(d.current.value, v).value;
        Stored(d, d', after, if after.state in {Active, Confirmed, Closed, Rejected}
                             then [Settled(r, after, Observed(v))] else [], effects)
  {
    assert d.log + [] == d.log;
    if Unresolved(d) && Reconciled(d.current.value, v).Ok? { ReconcileKeepsId(d.current.value, v); }
  }

  lemma ReconcileKeepsId(r: Record, v: View)
    requires Reconciled(r, v).Ok?
    ensures Reconciled(r, v).value.id == r.id
  {
  }

  /** An attestation rejects exactly the request that a reconcile leaves uncertain, of a positive amount, with no
      funding transaction and no point, below the minimum if that is what is attested, on its own wallet and the
      pinned version. */
  lemma AcknowledgeEnds(d: Disk, v: View, kind: RejectionKind, identity: Option<string>, pinned: bool, effects: nat)
    ensures !Unresolved(d) || Reconciled(d.current.value, v).Raised? ==>
              Apply(d, Acknowledge(v, kind, identity, pinned, effects)) == d
    ensures Unresolved(d) && Reconciled(d.current.value, v).Ok? ==>
      var r := Reconciled(d.current.value, v).value;
      var d1 := Apply(d, Reconcile(v, effects));
      var d' := Apply(d, Acknowledge(v, kind, identity, pinned, effects));
      if && effects >= 2 && r.state == Uncertain && r.approval.amount > 0 && r.fundingTxid == None && r.point == None
         && (kind == Minimum ==> r.approval.amount < 20000)
         && identity == Some(r.approval.identity) && pinned
      then Stored(d1, d', r.(state := Rejected), [Settled(r, r.(state := Rejected), Attested(kind))], effects - 2)
      else d' == d1
  {
    var d1 := Apply(d, Reconcile(v, effects));
    assert d1.log + [] == d1.log;
  }

  // ----- the attestation made for old journals -----

  /** A rejection attested as below the minimum amount only ever ends the inherited request. */
  lemma MinimumIsForLegacy(d: Disk, actions: seq<Action>, k: nat)
    requires Origin(d) && k < |Run(d, actions).log|
    requires Run(d, actions).log[k].Settled? && Run(d, actions).log[k].why == Attested(Minimum)
    ensures Legacy(d) && Run(d, actions).log[k].record.id == d.current.value.id
    ensures 0 < d.current.value.approval.amount < MIN_CHANNEL_SAT
    ensures d.current.value.fundingTxid.None? && d.current.value.point.None?
  {
    RunIsKnown(d, actions);
    var log := Run(d, actions).log;
    assert log[k] in log;
    assert Rooted(log, log[k].record) && Justified(log[k]);
    var i :| 0 <= i < |log| && Roots(log[i], log[k].record);
    assert log[i] in log;
    assert Justified(log[i]);
    assert log[i].Inherited?;
    assert Old(log[i]);
    assert log[i] == d.log[i];
  }

  /** What the reconcile before the attestation makes of the inherited request. */
  lemma LegacyReconciles(d: Disk, v: View, effects: nat)
    requires Legacy(d) && effects >= 2 && d.current.value.point.None?
    ensures
      var r, p := d.current.value, ReconcilePass(d, v, effects);
      if v.identity == Some(r.approval.identity) && |FoundOn(r, v)| != 1 && v.transactions then
        p == Went(Save(d, r.(state := Uncertain), [], effects), effects - 2)
      else
        p.Went? ==> p.disk.current.Some? && p.disk.current.value.point.Some?
  {
  }

  /** And it does end it, exactly when nothing on the node says which channel it became, no identifier
      is known, and the amount is below the minimum. The rejection is stored in both files. */
  lemma LegacyMayBeRejected(d: Disk, v: View, effects: nat)
    requires Legacy(d) && effects >= 4
    ensures
      var r, d' := d.current.value, Apply(d, Acknowledge(v, Minimum, v.identity, true, effects));
      d'.current == Some(r.(state := Rejected)) <==>
        && v.identity == Some(r.approval.identity) && 0 < r.approval.amount < MIN_CHANNEL_SAT
        && r.fundingTxid.None? && r.point.None? && |FoundOn(r, v)| != 1 && v.transactions
    ensures
      var r, d' := d.current.value, Apply(d, Acknowledge(v, Minimum, v.identity, true, effects));
      d'.current == Some(r.(state := Rejected)) ==>
        && d'.archive == d.archive[r.id := r.(state := Rejected)]
        && d'.log == d.log + [Settled(r.(state := Uncertain), r.(state := Rejected), Attested(Minimum))]
  {
    if d.current.value.point.None? { LegacyReconciles(d, v, effects); }
  }
}
