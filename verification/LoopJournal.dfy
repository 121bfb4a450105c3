/**
 The Loop swap journal (ops/loop_ops.py): one JSON document updated by compare-and-swap,
 any number of concurrent clients, a rolling fee budget and one-shot automatic approvals.
 This file holds the data and what one client computes; LoopMachine runs clients together.
 */
module LoopJournal {
  import opened Arithmetic
  import opened Selections
  import opened Wrappers

  /** Labels and approval ids are fresh UUIDs in the source; here they are numbers. */
  type Label = nat
  type ApprovalId = nat

  /** Clock readings are integers in nanoseconds. */
  const SECOND := 1_000_000_000
  const DAY := 86400 * SECOND
  const QUOTE_LIFETIME := 60 * SECOND

  datatype Direction = LoopOut | LoopIn

  /** SUBMITTING is written by this tool; every other state is the daemon's. */
  datatype Status = Submitting | InFlight(name: string) | Success | Failed

  predicate Terminal(s: Status) {
    s.Success? || s.Failed?
  }

  /** A swap as the daemon lists it. A label of None is a swap made by some other tool. */
  datatype Swap = Swap(tag: Option<Label>, amount: int, kind: Option<Direction>, state: Option<Status>, id: nat,
                       costServer: Option<nat>, costOnchain: Option<nat>, costOffchain: Option<nat>,
                       offchainFailure: bool, updated: int)

  function StateOf(s: Swap): Status {
    if s.state.Some? then s.state.value else InFlight("INITIATED")
  }

  function OrZero(n: Option<nat>): nat {
    if n.Some? then n.value else 0
  }

  function Cost(s: Swap): nat {
    OrZero(s.costServer) + OrZero(s.costOnchain) + OrZero(s.costOffchain)
  }

  predicate CostsComplete(s: Swap) {
    s.costServer.Some? && s.costOnchain.Some? && s.costOffchain.Some?
  }

  datatype Seen = Seen(swapId: nat, fee: nat)

  datatype Record = Record(tag: Label, direction: Direction, scid: string, amount: int, reservation: nat, created: int,
                           automatic: bool, status: Status, seen: Option<Seen>, observedAt: Option<int>,
                           settled: Option<bool>)

  function ActualFee(r: Record): nat {
    if r.seen.Some? then r.seen.value.fee else 0
  }

  datatype Automatic = Automatic(enabled: bool, approval: Option<ApprovalId>, scid: string, maxAmount: int,
                                 feeLimit: int, dailyBudget: int)

  datatype State = State(records: seq<Record>, auto: Automatic)

  const EMPTY := State([], Automatic(false, None, "", 0, 0, 0))

  datatype PaymentStatus = PaymentFailed | PaymentSucceeded | PaymentOther
  datatype Payment = Payment(hash: nat, status: PaymentStatus)
  /** `htlcs` is the number of pending HTLCs, None when the field is absent. */
  datatype LndChannel = LndChannel(scid: string, htlcs: Option<nat>)
  /** What one pass over one record reads besides the swap list. */
  datatype LndView = LndView(payments: seq<Payment>, channels: Option<seq<LndChannel>>, now: int)

  // ----- reconcile -----

  function Matching(listing: seq<Swap>, l: Label): seq<Swap> {
    Select(listing, (s: Swap) => s.tag == Some(l))
  }

  /** Evidence that a failed outgoing swap can no longer cost its reservation. */
  predicate Released(r: Record, s: Swap, view: LndView) {
    && r.direction.LoopOut? && StateOf(s).Failed? && s.offchainFailure && CostsComplete(s)
    && view.channels.Some?
    && (exists c :: c in view.channels.value && c.scid == r.scid)
    && (forall c :: c in view.channels.value ==> c.htlcs == Some(0))
    && (forall p :: p in view.payments ==> !p.status.PaymentOther?)
    && Payment(s.id, PaymentFailed) in view.payments
  }

  function ReconcileRecord(r: Record, listing: seq<Swap>, view: LndView): Option<Record> {
    var matches := Matching(listing, r.tag);
    if |matches| > 1 then None
    else if matches == [] then Some(r.(settled := Some(false)))
    else
      var s := matches[0];
      if s.amount != r.amount || (if s.kind.Some? then s.kind.value else LoopOut) != r.direction then None
      else
        var changed := Cost(s) != ActualFee(r) || (Terminal(StateOf(s)) && !Terminal(r.status));
        Some(r.(status := StateOf(s), seen := Some(Seen(s.id, Cost(s))),
                observedAt := if changed then Some(view.now) else r.observedAt,
                settled := Some(Released(r, s, view))))
  }

  /** Entry k of the listing alone carries this label. */
  ghost predicate OnlySwap(listing: seq<Swap>, l: Label, k: int) {
    && 0 <= k < |listing| && listing[k].tag == Some(l)
    && forall i :: 0 <= i < |listing| && i != k ==> listing[i].tag != Some(l)
  }

  /** What one listed swap has cost: its three parts, a missing one being nothing. */
  ghost function Parts(s: Swap): nat {
    (match s.costServer case Some(n) => n case None => 0) + (match s.costOnchain case Some(n) => n case None => 0)
    + (match s.costOffchain case Some(n) => n case None => 0)
  }

  /** A swap out that failed off-chain, with all costs known, while its channel is listed, no channel has an HTLC
      pending, every payment has ended, and its own has failed. */
  ghost predicate FailedOffchain(r: Record, s: Swap, view: LndView) {
    && r.direction == LoopOut && s.state == Some(Failed) && s.offchainFailure
    && s.costServer.Some? && s.costOnchain.Some? && s.costOffchain.Some? && view.channels.Some?
    && (exists i {:trigger view.channels.value[i]} ::
          0 <= i < |view.channels.value| && view.channels.value[i].scid == r.scid)
    && (forall i :: 0 <= i < |view.channels.value| ==> view.channels.value[i].htlcs == Some(0))
    && (forall i :: 0 <= i < |view.payments| ==> view.payments[i].status in {PaymentFailed, PaymentSucceeded})
    && (exists i {:trigger view.payments[i]} ::
          0 <= i < |view.payments| && view.payments[i].hash == s.id && view.payments[i].status == PaymentFailed)
  }

  /** The record repeats what the swap says now; a new cost or a completion is dated by this pass, and only a
      failure proved in this pass settles it. */
  ghost predicate IsRead(r: Record, s: Swap, view: LndView, after: Record) {
    var state := if s.state.Some? then s.state.value else InFlight("INITIATED");
    var paid := if r.seen.Some? then r.seen.value.fee else 0;
    var ended := state in {Success, Failed} && r.status !in {Success, Failed};
    && after == r.(status := state, seen := Some(Seen(s.id, Parts(s))), observedAt := after.observedAt,
                   settled := after.settled)
    && after.observedAt == (if paid != Parts(s) || ended then Some(view.now) else r.observedAt)
    && after.settled == Some(FailedOffchain(r, s, view))
  }

  /** What a pass makes of one record: nothing but the settlement withdrawn, when no swap carries its label; a
      refusal, when two do or the one differs in amount or direction; otherwise what that one says. */
  lemma ReconcileRecordIsExact(r: Record, listing: seq<Swap>, view: LndView)
    ensures (forall i :: 0 <= i < |listing| ==> listing[i].tag != Some(r.tag)) ==>
              ReconcileRecord(r, listing, view) == Some(r.(settled := Some(false)))
    ensures (exists i, j :: 0 <= i < j < |listing| && listing[i].tag == listing[j].tag == Some(r.tag)) ==>
              ReconcileRecord(r, listing, view).None?
    ensures forall k :: OnlySwap(listing, r.tag, k) ==>
              var s, after := listing[k], ReconcileRecord(r, listing, view);
              && (after.Some? <==>
                    s.amount == r.amount && r.direction == if s.kind == None then LoopOut else s.kind.value)
              && (after.Some? ==> IsRead(r, s, view, after.value))
  {
    var p := (s: Swap) => s.tag == Some(r.tag);
    SelectNone(listing, p);
    if i, j :| 0 <= i < j < |listing| && listing[i].tag == listing[j].tag == Some(r.tag) {
      if |Matching(listing, r.tag)| == 1 { var k := SelectSingle(listing, p); }
    }
    forall k | OnlySwap(listing, r.tag, k)
      ensures
        var s, after := listing[k], ReconcileRecord(r, listing, view);
        && (after.Some? <==> s.amount == r.amount && r.direction == if s.kind == None then LoopOut else s.kind.value)
        && (after.Some? ==> IsRead(r, s, view, after.value))
    {
      SelectOnly(listing, p, k);
      ReleasedIsExact(r, listing[k], view);
    }
  }

  lemma ReleasedIsExact(r: Record, s: Swap, view: LndView)
    ensures Released(r, s, view) <==> FailedOffchain(r, s, view)
  {
    if view.channels.Some? {
      var cs, ps := view.channels.value, view.payments;
      assert (forall c :: c in cs ==> c.htlcs == Some(0)) <==> forall i :: 0 <= i < |cs| ==> cs[i].htlcs == Some(0);
      assert (forall x :: x in ps ==> !x.status.PaymentOther?)
             <==> forall i :: 0 <= i < |ps| ==> ps[i].status in {PaymentFailed, PaymentSucceeded};
      if Released(r, s, view) {
        var i :| 0 <= i < |ps| && ps[i] == Payment(s.id, PaymentFailed);
      }
      if FailedOffchain(r, s, view) {
        var i :| 0 <= i < |ps| && ps[i].hash == s.id && ps[i].status == PaymentFailed;
        assert ps[i] == Payment(s.id, PaymentFailed);
      }
    }
  }

  /** All records after one pass, or None when some record makes the pass raise. */
  function ReconcileRecords(rs: seq<Record>, listing: seq<Swap>, views: seq<LndView>): (out: Option<seq<Record>>)
    requires |rs| == |views|
    ensures out.Some? ==> |out.value| == |rs|
  {
    if rs == [] then Some([])
    else
      var n := |rs| - 1;
      var before := ReconcileRecords(rs[..n], listing, views[..n]);
      var last := ReconcileRecord(rs[n], listing, views[n]);
      if before.Some? && last.Some? then Some(before.value + [last.value]) else None
  }

  ghost predicate Completes(rs: seq<Record>, rs': seq<Record>) {
    exists i :: 0 <= i < |rs| && i < |rs'| && !Terminal(rs[i].status) && Terminal(rs'[i].status)
  }

  ghost function ReconcileState(st: State, listing: seq<Swap>, views: seq<LndView>): Option<State>
    requires |st.records| == |views|
  {
    var rs := ReconcileRecords(st.records, listing, views);
    if rs.None? then None
    else Some(State(rs.value, if Completes(st.records, rs.value) then st.auto.(enabled := false) else st.auto))
  }

  lemma {:induction false} ReconcileAt(rs: seq<Record>, listing: seq<Swap>, views: seq<LndView>, i: nat)
    requires |rs| == |views| && i < |rs|
    requires ReconcileRecords(rs, listing, views).Some?
    ensures Some(ReconcileRecords(rs, listing, views).value[i]) == ReconcileRecord(rs[i], listing, views[i])
  {
    var n := |rs| - 1;
    if i < n {
      ReconcileAt(rs[..n], listing, views[..n], i);
    }
  }

  lemma {:induction false} ReconcilePrefix(rs: seq<Record>, listing: seq<Swap>, views: seq<LndView>, n: nat)
    requires |rs| == |views| && n <= |rs|
    requires ReconcileRecords(rs[..n], listing, views[..n]).None?
    ensures ReconcileRecords(rs, listing, views).None?
    decreases |rs| - n
  {
    if n == |rs| {
      assert rs[..n] == rs && views[..n] == views;
    } else {
      assert rs[..n + 1][..n] == rs[..n] && views[..n + 1][..n] == views[..n];
      ReconcilePrefix(rs, listing, views, n + 1);
    }
  }

  lemma CompletesAppend(rs: seq<Record>, rs': seq<Record>, r: Record, r': Record)
    requires |rs| == |rs'|
    ensures Completes(rs + [r], rs' + [r']) <==> Completes(rs, rs') || (!Terminal(r.status) && Terminal(r'.status))
  {
    var n := |rs|;
    if Completes(rs, rs') {
      var i :| 0 <= i < n && !Terminal(rs[i].status) && Terminal(rs'[i].status);
      assert !Terminal((rs + [r])[i].status) && Terminal((rs' + [r'])[i].status);
    }
    if !Terminal(r.status) && Terminal(r'.status) {
      assert !Terminal((rs + [r])[n].status) && Terminal((rs' + [r'])[n].status);
    }
  }

  lemma ReconcileTurn(rs: seq<Record>, listing: seq<Swap>, views: seq<LndView>, i: nat, before: seq<Record>, r: Record)
    requires |rs| == |views| && i < |rs|
    requires ReconcileRecords(rs[..i], listing, views[..i]) == Some(before)
    requires ReconcileRecord(rs[i], listing, views[i]) == Some(r)
    ensures ReconcileRecords(rs[..i + 1], listing, views[..i + 1]) == Some(before + [r])
    ensures Completes(rs[..i + 1], before + [r]) <==>
              Completes(rs[..i], before) || (!Terminal(rs[i].status) && Terminal(r.status))
  {
    assert rs[..i + 1][..i] == rs[..i] && views[..i + 1][..i] == views[..i];
    CompletesAppend(rs[..i], before, rs[i], r);
    assert rs[..i] + [rs[i]] == rs[..i + 1];
  }

  lemma ReconcileStops(rs: seq<Record>, listing: seq<Swap>, views: seq<LndView>, i: nat)
    requires |rs| == |views| && i < |rs| && ReconcileRecord(rs[i], listing, views[i]).None?
    ensures ReconcileRecords(rs, listing, views).None?
  {
    assert rs[..i + 1][i] == rs[i] && views[..i + 1][i] == views[i];
    ReconcilePrefix(rs, listing, views, i + 1);
  }

  lemma {:induction false} SomeStops(rs: seq<Record>, listing: seq<Swap>, views: seq<LndView>)
    requires |rs| == |views|
    ensures ReconcileRecords(rs, listing, views).None? <==>
              exists i :: 0 <= i < |rs| && ReconcileRecord(rs[i], listing, views[i]).None?
  {
    if rs != [] {
      var n := |rs| - 1;
      SomeStops(rs[..n], listing, views[..n]);
      assert forall i :: 0 <= i < n ==> rs[..n][i] == rs[i] && views[..n][i] == views[i];
    }
  }

  /** A whole pass: it raises when one record makes it raise; otherwise every record becomes what the pass makes of it,
      and automation is switched off exactly when one of them has just ended. */
  lemma PassIsExact(st: State, listing: seq<Swap>, views: seq<LndView>)
    requires |st.records| == |views|
    ensures
      var next := ReconcileState(st, listing, views);
      && (next.None? <==> exists i :: 0 <= i < |views| && ReconcileRecord(st.records[i], listing, views[i]).None?)
      && (next.Some? ==>
            && |next.value.records| == |views|
            && (forall i :: 0 <= i < |views| ==>
                  Some(next.value.records[i]) == ReconcileRecord(st.records[i], listing, views[i]))
            && next.value.auto ==
               if exists i :: 0 <= i < |views| && st.records[i].status !in {Success, Failed}
                    && next.value.records[i].status in {Success, Failed}
               then st.auto.(enabled := false) else st.auto)
  {
    SomeStops(st.records, listing, views);
    if ReconcileRecords(st.records, listing, views).Some? {
      forall i | 0 <= i < |views|
        ensures Some(ReconcileRecords(st.records, listing, views).value[i])
                == ReconcileRecord(st.records[i], listing, views[i])
      {
        ReconcileAt(st.records, listing, views, i);
      }
    }
  }

  /** The source's loop: records are rewritten one by one, a completion switches automation
      off, and any raise abandons the whole pass. */
  method Reconcile(st: State, listing: seq<Swap>, views: seq<LndView>) returns (next: Option<State>)
    requires |st.records| == |views|
    ensures next == ReconcileState(st, listing, views)
  {
    var records, auto := [], st.auto;
    for i := 0 to |st.records|
      invariant ReconcileRecords(st.records[..i], listing, views[..i]) == Some(records)
      invariant auto == if Completes(st.records[..i], records) then st.auto.(enabled := false) else st.auto
    {
      var r := ReconcileRecord(st.records[i], listing, views[i]);
      if r.None? {
        ReconcileStops(st.records, listing, views, i);
        return None;
      }
      ReconcileTurn(st.records, listing, views, i, records, r.value);
      if !Terminal(st.records[i].status) && Terminal(r.value.status) {
        auto := auto.(enabled := false);
      }
      records := records + [r.value];
    }
    assert st.records[..|st.records|] == st.records && views[..|st.records|] == views;
    return Some(State(records, auto));
  }

  // ----- the rolling budget -----

  /** Settled failures count what they really cost; everything else its reservation at least. */
  function Charge(r: Record): nat {
    if r.settled == Some(true) then ActualFee(r) else Max(r.reservation, ActualFee(r))
  }

  predicate Counted(r: Record, cutoff: int) {
    Max(r.created, if r.observedAt.Some? then r.observedAt.value else 0) >= cutoff
  }

  function Charges(rs: seq<Record>, cutoff: int): nat {
    if rs == [] then 0
    else Charges(rs[..|rs| - 1], cutoff) + if Counted(rs[|rs| - 1], cutoff) then Charge(rs[|rs| - 1]) else 0
  }

  predicate Foreign(s: Swap, rs: seq<Record>) {
    s.tag.None? || forall r :: r in rs ==> r.tag != s.tag.value
  }

  function ForeignCosts(listing: seq<Swap>, rs: seq<Record>, cutoff: int): nat {
    if listing == [] then 0
    else
      var s := listing[|listing| - 1];
      ForeignCosts(listing[..|listing| - 1], rs, cutoff) + if Foreign(s, rs) && s.updated >= cutoff then Cost(s) else 0
  }

  /** What counts against the budget. */
  function Used(rs: seq<Record>, listing: seq<Swap>, cutoff: int): nat {
    Charges(rs, cutoff) + ForeignCosts(listing, rs, cutoff)
  }

  /** One more swap in the listing adds exactly its three costs, when no record carries its label and it was updated
      since the cutoff, and nothing otherwise. */
  lemma ForeignSwapsCount(rs: seq<Record>, listing: seq<Swap>, s: Swap, cutoff: int)
    ensures Used(rs, listing + [s], cutoff) == Used(rs, listing, cutoff)
            + if (forall i :: 0 <= i < |rs| ==> Some(rs[i].tag) != s.tag) && s.updated >= cutoff then Parts(s) else 0
  {
    assert (listing + [s])[..|listing|] == listing;
    assert Foreign(s, rs) <==> forall i :: 0 <= i < |rs| ==> Some(rs[i].tag) != s.tag;
  }

  /** With no swap listed, one more record adds what it really cost, when its failure is settled, and otherwise its
      reservation or its cost if that is more; and only if it was created or its cost was observed since the cutoff. */
  lemma RecordsCount(rs: seq<Record>, r: Record, cutoff: int)
    ensures Used([], [], cutoff) == 0
    ensures
      var fee := if r.seen.Some? then r.seen.value.fee else 0;
      Used(rs + [r], [], cutoff) == Used(rs, [], cutoff)
      + if r.created < cutoff && (if r.observedAt.Some? then r.observedAt.value else 0) < cutoff then 0
        else if r.settled == Some(true) || fee >= r.reservation then fee
        else r.reservation
  {
    assert (rs + [r])[..|rs|] == rs;
  }

  /** The two accumulating loops of `submit`. */
  method BudgetUsed(rs: seq<Record>, listing: seq<Swap>, cutoff: int) returns (used: nat)
    ensures used == Used(rs, listing, cutoff)
  {
    used := 0;
    for i := 0 to |rs|
      invariant used == Charges(rs[..i], cutoff)
    {
      assert rs[..i + 1][..i] == rs[..i];
      if Counted(rs[i], cutoff) { used := used + Charge(rs[i]); }
    }
    assert rs[..|rs|] == rs;
    for i := 0 to |listing|
      invariant used == Used(rs, listing[..i], cutoff)
    {
      assert listing[..i + 1][..i] == listing[..i];
      if Foreign(listing[i], rs) && listing[i].updated >= cutoff { used := used + Cost(listing[i]); }
    }
    assert listing[..|listing|] == listing;
  }

  /** Fees of the records created at or after `lo`. */
  function WindowFees(rs: seq<Record>, lo: int): nat {
    if rs == [] then 0
    else WindowFees(rs[..|rs| - 1], lo) + if rs[|rs| - 1].created >= lo then ActualFee(rs[|rs| - 1]) else 0
  }

  /** A pass lets a record weigh less than its reservation only on its own fresh evidence that the swap
      failed off-chain; an earlier pass's release never carries over. */
  lemma ReleaseIsFresh(rs: seq<Record>, listing: seq<Swap>, views: seq<LndView>, i: nat)
    requires |rs| == |views| && i < |rs| && ReconcileRecords(rs, listing, views).Some?
    ensures
      var r' := ReconcileRecords(rs, listing, views).value[i];
      Charge(r') < rs[i].reservation ==>
        exists s ::
          && s in listing && s.tag == Some(rs[i].tag) && FailedOffchain(rs[i], s, views[i])
          && Charge(r') == Parts(s)
  {
    ReconcileAt(rs, listing, views, i);
    var matches := Matching(listing, rs[i].tag);
    if matches != [] {
      assert matches[0] in matches;
      ReleasedIsExact(rs[i], matches[0], views[i]);
    }
  }

  /** What is charged against the budget covers the real fees of everything created since the cutoff. */
  lemma {:induction false} ChargesCoverFees(rs: seq<Record>, cutoff: int)
    ensures WindowFees(rs, cutoff) <= Charges(rs, cutoff)
  {
    if rs != [] {
      ChargesCoverFees(rs[..|rs| - 1], cutoff);
    }
  }

  // ----- plans, approvals and the claim -----

  datatype Payload = Payload(amount: nat, maxSwapFee: nat, maxMinerFee: nat, maxPrepay: nat, maxSwapRouting: nat,
                             maxPrepayRouting: nat, outgoing: seq<string>, lastHop: string)

  /** `hashed` is the payload whose digest was approved; digests are taken to be injective. */
  datatype Plan = Plan(tag: Label, direction: Direction, scid: string, peer: string, approved: seq<string>, amount: nat,
                       feeLimit: nat, reservation: nat, created: int, payload: Payload, hashed: Payload)

  function Reserved(p: Plan): nat {
    if p.direction.LoopOut? then
      Max(p.payload.maxSwapFee, p.payload.maxPrepay) + p.payload.maxMinerFee + p.payload.maxSwapRouting
      + p.payload.maxPrepayRouting
    else p.payload.maxSwapFee + p.payload.maxMinerFee
  }

  predicate NoRepeats(ids: seq<string>) {
    forall i, j :: 0 <= i < j < |ids| ==> ids[i] != ids[j]
  }

  predicate Intact(p: Plan) {
    && p.payload == p.hashed && p.payload.amount == p.amount
    && (p.direction.LoopOut? ==>
          && p.approved != [] && NoRepeats(p.approved) && |p.payload.outgoing| == |p.approved|
          && (set id | id in p.payload.outgoing) == (set id | id in p.approved)
          && p.scid in p.approved)
    && (p.direction.LoopIn? ==> p.payload.lastHop == p.peer)
    && Reserved(p) == p.reservation <= p.feeLimit
  }

  predicate AllTerminal(rs: seq<Record>) {
    forall i :: 0 <= i < |rs| ==> Terminal(rs[i].status)
  }

  predicate Quiet(st: State, listing: seq<Swap>) {
    AllTerminal(st.records) && forall s :: s in listing ==> Terminal(StateOf(s))
  }

  /** An automatic request must match the one armed rule. */
  predicate WithinApproval(auto: Automatic, p: Plan, budget: int, approval: Option<ApprovalId>) {
    && (p.direction.LoopOut? ==> p.payload.outgoing == [p.scid])
    && auto.enabled && auto.approval == approval
    && p.scid == auto.scid && p.amount <= auto.maxAmount && p.reservation <= auto.feeLimit && budget == auto.dailyBudget
  }

  /** Every check between reconciling and the claiming write. `gate` stands for the channel,
      balance, binding and Autoloop reads, any of which can refuse. */
  ghost predicate MayClaim(st: State, listing: seq<Swap>, p: Plan, budget: int, automatic: bool,
                           approval: Option<ApprovalId>, now: int, gate: bool)
  {
    && (forall r :: r in st.records ==> r.tag != p.tag)
    && Quiet(st, listing) && gate
    && (automatic ==> WithinApproval(st.auto, p, budget, approval))
    && budget >= 1
    && Used(st.records, listing, now - DAY) + p.reservation <= budget
  }

  function NewRecord(p: Plan, automatic: bool): Record {
    Record(p.tag, p.direction, p.scid, p.amount, p.reservation, p.created, automatic, Submitting, None, None, None)
  }

  function ClaimedState(st: State, p: Plan, automatic: bool): State {
    State(st.records + [NewRecord(p, automatic)], st.auto.(enabled := false))
  }

  datatype Rule = Rule(scid: string, low: int, high: int, maxAmount: int, feeLimit: int, dailyBudget: int,
                       routingLimit: int)

  predicate RuleAccepted(rule: Rule) {
    && rule.maxAmount >= 1 && rule.feeLimit >= 1 && rule.dailyBudget >= 1 && rule.routingLimit >= 0
    && 0 < rule.low < rule.high < 100 && rule.feeLimit <= rule.dailyBudget
  }

  function ArmedState(st: State, rule: Rule, id: ApprovalId): State {
    st.(auto := Automatic(true, Some(id), rule.scid, rule.maxAmount, rule.feeLimit, rule.dailyBudget))
  }

  // ----- the automatic rebalancing amount -----

  datatype Rebalance = Rebalance(direction: Direction, amount: nat)

  function Target(rule: Rule, total: nat): int {
    total * (rule.low + rule.high) / 200
  }

  function Gap(a: int, b: int): nat {
    if a < b then b - a else a - b
  }

  /** The rebalancing branch of `auto_tick`; the ratio is compared exactly, without a float. */
  function AutoRebalance(rule: Rule, local: nat, remote: nat): Option<Rebalance> {
    var total := local + remote;
    if total == 0 || (rule.low * total <= local * 100 <= rule.high * total) then None
    else
      Some(Rebalance(if local * 100 > rule.high * total then LoopOut else LoopIn,
                     Max(0, Min(rule.maxAmount, Gap(local, Target(rule, total))))))
  }

  /** The target is the middle of the two thresholds, rounded down, so it lies between them. */
  lemma TargetIsMiddle(rule: Rule, total: nat)
    requires RuleAccepted(rule) && total > 0
    ensures 200 * Target(rule, total) <= total * (rule.low + rule.high) < 200 * Target(rule, total) + 200
    ensures rule.low * total < 100 * Target(rule, total) + 100 && 100 * Target(rule, total) < rule.high * total
  {
    var low, high := rule.low * total, rule.high * total;
    assert total * (rule.low + rule.high) == low + high;
    assert low < high;
  }

  /** A move is chosen exactly when the local share lies outside the thresholds. It goes towards the target, reaches
      it or stops at the armed maximum before it, and is nothing only at the target. */
  lemma RebalanceNeverOvershoots(rule: Rule, local: nat, remote: nat)
    requires RuleAccepted(rule)
    ensures
      var total, move := local + remote, AutoRebalance(rule, local, remote);
      move.Some? <==> total > 0 && (100 * local < rule.low * total || 100 * local > rule.high * total)
    ensures AutoRebalance(rule, local, remote).Some? ==>
      var total := local + remote;
      var target := Target(rule, total);
      var move := AutoRebalance(rule, local, remote).value;
      && 200 * target <= total * (rule.low + rule.high) < 200 * target + 200
      && move.amount <= rule.maxAmount
      && (move.direction.LoopOut? ==>
            100 * local > rule.high * total && (local - move.amount == target || move.amount == rule.maxAmount)
            && local > target && target <= local - move.amount < local)
      && (move.direction.LoopIn? ==>
            100 * local < rule.low * total && (local + move.amount == target || move.amount == rule.maxAmount)
            && local <= target && local <= local + move.amount <= target)
      && (move.amount == 0 <==> local == target)
  {
    if local + remote > 0 { TargetIsMiddle(rule, local + remote); }
  }
}
