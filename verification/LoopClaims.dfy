/** Exactly when a client of the Loop journal claims or arms, and what every claim of every run was decided on. */
module LoopClaims {
  import opened Wrappers
  import opened LoopJournal
  import opened LoopMachine
  import opened LoopSafety
  import opened LoopTheorems

  // ----- what a client checks, in terms of the plan's own fields -----

  /** The request that is approved by digest, asks for the approved amount, and reserves what it may cost; out, it
      names exactly the approved channels, once each; in, the approved peer. */
  ghost predicate Unaltered(p: Plan) {
    var q := p.payload;
    && q == p.hashed && q.amount == p.amount && p.reservation <= p.feeLimit
    && (p.direction == LoopOut ==>
          && |p.approved| > 0 && |q.outgoing| == |p.approved| && p.scid in p.approved
          && (forall id :: id in q.outgoing <==> id in p.approved)
          && (forall i, j :: 0 <= i < j < |p.approved| ==> p.approved[i] != p.approved[j])
          && p.reservation == (if q.maxSwapFee >= q.maxPrepay then q.maxSwapFee else q.maxPrepay) + q.maxMinerFee
                              + q.maxSwapRouting + q.maxPrepayRouting)
    && (p.direction == LoopIn ==> q.lastHop == p.peer && p.reservation == q.maxSwapFee + q.maxMinerFee)
  }

  /** A submit begins exactly with an unaltered plan that is at most a minute old. */
  lemma BeginIsExact(p: Plan, budget: int, automatic: bool, approval: Option<ApprovalId>, began: int)
    ensures MayBegin(Submit(p, budget, automatic, approval, began)) <==>
              Unaltered(p) && p.created <= began && began <= p.created + 60_000_000_000
  {
    assert (set id | id in p.payload.outgoing) == (set id | id in p.approved)
           <==> forall id :: id in p.payload.outgoing <==> id in p.approved by {
      var a, b := set id | id in p.payload.outgoing, set id | id in p.approved;
      assert forall id :: id in a <==> id in p.payload.outgoing;
      assert forall id :: id in b <==> id in p.approved;
    }
  }

  /** Every swap of the listing has ended. */
  ghost predicate AllEnded(listing: seq<Swap>) {
    forall i :: 0 <= i < |listing| ==> listing[i].state in {Some(Success), Some(Failed)}
  }

  /** The plan stays within what was armed: its one channel, its amount, its fees, and its budget. */
  ghost predicate WithinRule(p: Plan, budget: int, scid: string, maxAmount: int, feeLimit: int, dailyBudget: int) {
    && p.scid == scid && p.amount <= maxAmount && p.reservation <= feeLimit && budget == dailyBudget
    && (p.direction == LoopOut ==> p.payload.outgoing == [p.scid])
  }

  /** A client claims exactly when its label is new, every record and every listed swap has ended, nothing else
      refuses, an automatic request stays within the approval that is armed, and the budget covers what is used
      and the new reservation. */
  lemma ClaimIsExact(st: State, listing: seq<Swap>, p: Plan, budget: int, automatic: bool,
                     approval: Option<ApprovalId>, now: int, gate: bool)
    ensures MayClaim(st, listing, p, budget, automatic, approval, now, gate) <==>
              && (forall i :: 0 <= i < |st.records| ==>
                    st.records[i].tag != p.tag && st.records[i].status in {Success, Failed})
              && AllEnded(listing) && gate
              && (automatic ==>
                    && st.auto.enabled && st.auto.approval == approval
                    && WithinRule(p, budget, st.auto.scid, st.auto.maxAmount, st.auto.feeLimit, st.auto.dailyBudget))
              && budget >= 1
              && Used(st.records, listing, now - 86_400_000_000_000) + p.reservation <= budget
  {
    assert (forall r :: r in st.records ==> r.tag != p.tag)
           <==> forall i :: 0 <= i < |st.records| ==> st.records[i].tag != p.tag;
    assert (forall s :: s in listing ==> Terminal(StateOf(s))) <==> AllEnded(listing) by { EndedIs(listing); }
  }

  lemma EndedIs(listing: seq<Swap>)
    ensures (forall s :: s in listing ==> Terminal(StateOf(s))) <==> AllEnded(listing)
  {
    assert forall s: Swap :: Terminal(StateOf(s)) <==> s.state in {Some(Success), Some(Failed)};
    if AllEnded(listing) {
      forall s | s in listing ensures Terminal(StateOf(s)) {
        var i :| 0 <= i < |listing| && listing[i] == s;
      }
    }
  }

  /** A rule worth arming: positive limits, thresholds in order inside the scale, and no attempt above the day's
      budget. */
  ghost predicate Sensible(rule: Rule) {
    && rule.maxAmount > 0 && rule.feeLimit > 0 && rule.dailyBudget > 0 && rule.routingLimit >= 0
    && 0 < rule.low && rule.low < rule.high && rule.high < 100 && rule.feeLimit <= rule.dailyBudget
  }

  /** The armed settings are those of the rule. */
  ghost predicate IsArmed(auto: Automatic, id: ApprovalId, rule: Rule) {
    && auto.approval == Some(id) && auto.scid == rule.scid && auto.maxAmount == rule.maxAmount
    && auto.feeLimit == rule.feeLimit && auto.dailyBudget == rule.dailyBudget
  }

  /** A disarm goes on to write exactly when automation is on and it is meant, whatever it is meant for or for this
      very approval; else it is done. Every other job reads the document first. */
  lemma LoadIsExact(w: World, c: nat)
    requires c in w.clients && w.clients[c].Started?
    ensures
      var job, w' := w.clients[c].job, Apply(w, Load(c));
      match job
      case Disarm(target) =>
        if w.st.auto.enabled && (target == None || target == w.st.auto.approval) then
          w' == w.(clients := w.clients[c := Saving(w.version, State(w.st.records, w.st.auto.(enabled := false)),
                                                    Disarming(target))])
        else w' == w.(clients := w.clients - {c}, autos := w.autos + [Disarmed(target)])
      case _ => w' == w.(clients := w.clients[c := Loaded(job, w.version, w.st)])
  {
  }

  /** What a client that has read and reconciled does next: a submit goes on to write its claim exactly when it may
      claim, an arming exactly when all is quiet, nothing else refuses and the rule is sensible; and nothing else
      goes on. */
  lemma DecideIsExact(w: World, c: nat, now: int, gate: bool, newId: ApprovalId)
    requires c in w.clients && w.clients[c].Ready? && newId !in w.issued
    ensures
      var cl, w' := w.clients[c], Apply(w, Decide(c, now, gate, newId));
      match cl.job
      case Submit(p, budget, automatic, approval, began) =>
        if MayClaim(cl.st, cl.listing, p, budget, automatic, approval, now, gate) then
          var r := Record(p.tag, p.direction, p.scid, p.amount, p.reservation, p.created, automatic, Submitting, None,
                          None, None);
          w' == w.(clients := w.clients[c := Saving(cl.base, State(cl.st.records + [r], cl.st.auto.(enabled := false)),
                                                    Claiming(r, Claim(began, now, budget,
                                                                      if automatic then approval else None, p,
                                                                      cl.listing)))])
        else w' == w.(clients := w.clients - {c})
      case Arm(rule) =>
        if && (forall i :: 0 <= i < |cl.st.records| ==> cl.st.records[i].status in {Success, Failed})
           && AllEnded(cl.listing) && gate && Sensible(rule)
        then
          && c in w'.clients && w'.clients[c].Saving? && w'.clients[c].base == cl.base
          && w'.clients[c].purpose == Arming(newId) && w'.issued == w.issued[newId := rule]
          && w'.clients[c].next.records == cl.st.records && w'.clients[c].next.auto.enabled
          && IsArmed(w'.clients[c].next.auto, newId, rule)
        else w' == w.(clients := w.clients - {c})
      case _ => w' == w.(clients := w.clients - {c})
  {
    if w.clients[c].job.Arm? { EndedIs(w.clients[c].listing); }
  }

  // ----- what every claim was decided on -----

  /** What the swaps of other tools have cost since the cutoff, as listed: those whose label is none of these. */
  ghost function OthersSpent(listing: seq<Swap>, tags: set<Label>, cutoff: int): nat {
    if listing == [] then 0
    else
      var s := listing[|listing| - 1];
      OthersSpent(listing[..|listing| - 1], tags, cutoff)
      + if s.updated >= cutoff && (s.tag.Some? ==> s.tag.value !in tags) then Parts(s) else 0
  }

  lemma {:induction false} ForeignIsOthers(listing: seq<Swap>, rs: seq<Record>, cutoff: int)
    ensures ForeignCosts(listing, rs, cutoff) == OthersSpent(listing, Tags(rs), cutoff)
  {
    if listing != [] {
      var s := listing[|listing| - 1];
      ForeignIsOthers(listing[..|listing| - 1], rs, cutoff);
      assert Foreign(s, rs) <==> (s.tag.Some? ==> s.tag.value !in Tags(rs));
    }
  }

  /** The record repeats the request of the plan. */
  ghost predicate Requests(r: Record, p: Plan) {
    && r.tag == p.tag && r.direction == p.direction && r.scid == p.scid && r.amount == p.amount
    && r.reservation == p.reservation && r.created == p.created
  }

  /** What this claim was decided on, with these records before it. */
  ghost predicate Grounded(rs: seq<Record>, r: Record, claim: Claim, issued: map<ApprovalId, Rule>) {
    && Requests(r, claim.plan) && Unaltered(claim.plan)
    && claim.plan.created <= claim.began && claim.began <= claim.plan.created + 60_000_000_000
    && AllEnded(claim.listing)
    && WindowFees(rs, claim.now - DAY) + OthersSpent(claim.listing, Tags(rs), claim.now - DAY) + r.reservation
       <= claim.budget
    && (r.automatic <==> claim.approval.Some?)
    && (claim.approval.Some? ==>
          && claim.approval.value in issued
          && var rule := issued[claim.approval.value];
             WithinRule(claim.plan, claim.budget, rule.scid, rule.maxAmount, rule.feeLimit, rule.dailyBudget))
  }

  ghost predicate AllGrounded(rs: seq<Record>, claims: seq<Claim>, issued: map<ApprovalId, Rule>) {
    |claims| == |rs| && forall i {:trigger claims[i]} :: 0 <= i < |rs| ==> Grounded(rs[..i], rs[i], claims[i], issued)
  }

  /** What the writes under way would store, if they still can. */
  ghost predicate PendingOk(w: World, cl: Client) {
    cl.Saving? && cl.base == w.version ==>
      && (cl.purpose.Claiming? ==> Grounded(w.st.records, cl.purpose.record, cl.purpose.claim, w.issued))
      && (cl.purpose.Arming? ==>
            cl.purpose.id in w.issued && IsArmed(cl.next.auto, cl.purpose.id, w.issued[cl.purpose.id]))
  }

  ghost predicate ArmedByRule(auto: Automatic, issued: map<ApprovalId, Rule>) {
    auto.enabled ==> auto.approval.Some? && auto.approval.value in issued
                     && IsArmed(auto, auto.approval.value, issued[auto.approval.value])
  }

  ghost predicate ClaimsOk(w: World) {
    && AllGrounded(w.st.records, w.claims, w.issued)
    && ArmedByRule(w.st.auto, w.issued)
    && (forall id :: id in w.issued ==> Sensible(w.issued[id]))
    && (forall c :: c in w.clients ==> PendingOk(w, w.clients[c]))
  }

  // ----- every step keeps it -----

  ghost predicate MoreIssued(issued: map<ApprovalId, Rule>, issued': map<ApprovalId, Rule>) {
    && (forall id :: id in issued ==> id in issued' && issued'[id] == issued[id])
    && (forall id :: id in issued' && id !in issued ==> Sensible(issued'[id]))
  }

  /** A step that stores nothing: at most one client moved, to where its write is sound. */
  lemma ThinkingClaims(w: World, w': World, c: nat)
    requires ClaimsOk(w) && w'.st == w.st && w'.claims == w.claims && w'.version == w.version
    requires MoreIssued(w.issued, w'.issued)
    requires forall d :: d in w'.clients && d != c ==> d in w.clients && w'.clients[d] == w.clients[d]
    requires c in w'.clients ==> PendingOk(w', w'.clients[c])
    ensures ClaimsOk(w')
  {
    forall d | d in w'.clients ensures PendingOk(w', w'.clients[d]) {
      if d != c { assert PendingOk(w, w.clients[d]); }
    }
  }

  lemma DecisionIsGrounded(w: World, c: nat, now: int, gate: bool, newId: ApprovalId)
    requires Inv(w) && ClaimsOk(w) && c in w.clients && w.clients[c].Ready? && w.clients[c].job.Submit?
    ensures
      var w' := Apply(w, Decide(c, now, gate, newId));
      c in w'.clients ==> PendingOk(w', w'.clients[c])
  {
    var cl := w.clients[c];
    var job := cl.job;
    assert ClientOk(w, cl);
    if cl.base == w.version
       && MayClaim(cl.st, cl.listing, job.plan, job.budget, job.automatic, job.approval, now, gate)
    {
      BeginIsExact(job.plan, job.budget, job.automatic, job.approval, job.began);
      ClaimIsExact(cl.st, cl.listing, job.plan, job.budget, job.automatic, job.approval, now, gate);
      ChargesCoverFees(cl.st.records, now - DAY);
      ForeignIsOthers(cl.listing, cl.st.records, now - DAY);
    }
  }

  lemma ArmingIsOk(w: World, c: nat, now: int, gate: bool, newId: ApprovalId)
    requires ClaimsOk(w) && c in w.clients && w.clients[c].Ready? && !w.clients[c].job.Submit?
    ensures
      var w' := Apply(w, Decide(c, now, gate, newId));
      MoreIssued(w.issued, w'.issued) && (c in w'.clients ==> PendingOk(w', w'.clients[c]))
  {
  }

  lemma DecideKeepsClaims(w: World, c: nat, now: int, gate: bool, newId: ApprovalId)
    requires Inv(w) && ClaimsOk(w) && c in w.clients && w.clients[c].Ready?
    ensures ClaimsOk(Apply(w, Decide(c, now, gate, newId)))
  {
    if w.clients[c].job.Submit? {
      DecisionIsGrounded(w, c, now, gate, newId);
    } else {
      ArmingIsOk(w, c, now, gate, newId);
    }
    ThinkingClaims(w, Apply(w, Decide(c, now, gate, newId)), c);
  }

  /** After a stored write no other client's write can still land. */
  lemma LandedClaims(w: World, w': World, c: nat)
    requires Inv(w) && c in w.clients && w.clients[c].Saving? && w.clients[c].base == w.version
    requires w'.version == w.version + 1 && w'.issued == w.issued && ClaimsOk(w)
    requires forall d :: d in w'.clients && d != c ==> d in w.clients && w'.clients[d] == w.clients[d]
    requires c in w'.clients ==> !w'.clients[c].Saving?
    requires AllGrounded(w'.st.records, w'.claims, w'.issued) && ArmedByRule(w'.st.auto, w'.issued)
    ensures ClaimsOk(w')
  {
    forall d | d in w'.clients ensures PendingOk(w', w'.clients[d]) {
      if d != c { assert ClientOk(w, w.clients[d]); }
    }
  }

  /** Earlier records are terminal, so a reconcile changes nothing a claim was decided on. */
  lemma GroundedKept(rs: seq<Record>, rs': seq<Record>, claims: seq<Claim>, issued: map<ApprovalId, Rule>)
    requires AllKept(rs, rs') && AllGrounded(rs, claims, issued)
    requires forall i :: 0 <= i < |rs| - 1 ==> Terminal(rs[i].status)
    ensures AllGrounded(rs', claims, issued)
  {
    forall i {:trigger claims[i]} | 0 <= i < |rs'| ensures Grounded(rs'[..i], rs'[i], claims[i], issued) {
      assert Grounded(rs[..i], rs[i], claims[i], issued) && Kept(rs[i], rs'[i]);
      WindowFeesKept(rs[..i], rs'[..i], claims[i].now - DAY);
      TagsKept(rs[..i], rs'[..i]);
    }
  }

  lemma GroundedAppend(rs: seq<Record>, r: Record, claims: seq<Claim>, claim: Claim, issued: map<ApprovalId, Rule>)
    requires AllGrounded(rs, claims, issued) && Grounded(rs, r, claim, issued)
    ensures AllGrounded(rs + [r], claims + [claim], issued)
  {
    forall i {:trigger (claims + [claim])[i]} | 0 <= i < |rs + [r]|
      ensures Grounded((rs + [r])[..i], (rs + [r])[i], (claims + [claim])[i], issued)
    {
      if i < |rs| {
        assert (rs + [r])[..i] == rs[..i] && (claims + [claim])[i] == claims[i];
      } else {
        assert (rs + [r])[..i] == rs;
      }
    }
  }

  lemma LandedRecords(w: World, c: nat, acknowledged: bool)
    requires Inv(w) && ClaimsOk(w) && c in w.clients && w.clients[c].Saving? && w.clients[c].base == w.version
    ensures
      var w' := Apply(w, Land(c, acknowledged));
      AllGrounded(w'.st.records, w'.claims, w'.issued) && ArmedByRule(w'.st.auto, w'.issued)
  {
    var cl := w.clients[c];
    assert ClientOk(w, cl) && PendingOk(w, cl);
    match cl.purpose
    case Continue(_, _) => GroundedKept(w.st.records, cl.next.records, w.claims, w.issued);
    case Claiming(r, claim) => GroundedAppend(w.st.records, r, w.claims, claim, w.issued);
    case _ =>
  }

  lemma LandKeepsClaims(w: World, c: nat, acknowledged: bool)
    requires Inv(w) && ClaimsOk(w) && c in w.clients && w.clients[c].Saving?
    ensures ClaimsOk(Apply(w, Land(c, acknowledged)))
  {
    var cl, w' := w.clients[c], Apply(w, Land(c, acknowledged));
    assert ClientOk(w, cl) && PendingOk(w, cl);
    if cl.base != w.version {
      ThinkingClaims(w, w', c);
    } else {
      LandedRecords(w, c, acknowledged);
      LandedClaims(w, w', c);
    }
  }

  lemma ComesAndGoes(w: World, a: Action)
    requires ClaimsOk(w) && (a.Begin? || a.Crash?)
    ensures ClaimsOk(Apply(w, a))
  {
    ThinkingClaims(w, Apply(w, a), a.c);
  }

  lemma LoadKeepsClaims(w: World, c: nat)
    requires ClaimsOk(w) && c in w.clients && w.clients[c].Started?
    ensures ClaimsOk(ApplyLoad(w, c, w.clients[c].job))
  {
    ThinkingClaims(w, ApplyLoad(w, c, w.clients[c].job), c);
  }

  lemma RefreshKeepsClaims(w: World, c: nat, listing: seq<Swap>, views: seq<LndView>)
    requires ClaimsOk(w) && c in w.clients && w.clients[c].Loaded? && |views| == |w.clients[c].st.records|
    ensures ClaimsOk(ApplyRefresh(w, c, w.clients[c], listing, views))
  {
    ThinkingClaims(w, ApplyRefresh(w, c, w.clients[c], listing, views), c);
  }

  lemma OutsideKeepsClaims(w: World, a: Action)
    requires Inv(w) && ClaimsOk(w) && (a.Post? || a.Accept? || a.Progress?)
    ensures ClaimsOk(Apply(w, a))
  {
    ThinkingClaims(w, Apply(w, a), if a.Progress? then 0 else a.c);
  }

  lemma StepKeepsClaims(w: World, a: Action)
    requires Inv(w) && ClaimsOk(w)
    ensures ClaimsOk(Apply(w, a))
  {
    match a
    case Decide(c, now, gate, newId) =>
      if c in w.clients && w.clients[c].Ready? { DecideKeepsClaims(w, c, now, gate, newId); }
    case Land(c, acknowledged) => if c in w.clients && w.clients[c].Saving? { LandKeepsClaims(w, c, acknowledged); }
    case Load(c) => if c in w.clients && w.clients[c].Started? { LoadKeepsClaims(w, c); }
    case Refresh(c, listing, views) =>
      if c in w.clients && w.clients[c].Loaded? && |views| == |w.clients[c].st.records| {
        RefreshKeepsClaims(w, c, listing, views);
      }
    case Begin(_, _) => ComesAndGoes(w, a);
    case Crash(_) => ComesAndGoes(w, a);
    case _ => OutsideKeepsClaims(w, a);
  }

  lemma {:induction false} RunKeepsClaims(actions: seq<Action>)
    ensures ClaimsOk(Run(actions))
  {
    if actions != [] {
      RunKeepsClaims(actions[..|actions| - 1]);
      RunKeepsInvariant(actions[..|actions| - 1]);
      StepKeepsClaims(Run(actions[..|actions| - 1]), actions[|actions| - 1]);
    }
  }

  // ----- theorems -----

  /** In every run, each record repeats an unaltered plan that was at most a minute old, was claimed while every
      listed swap had ended, and, if automatic, stays within the sensible rule behind the very approval it used. At
      its claim, what this tool's swaps created since the cutoff have really cost, what the other tools' swaps
      updated since had cost, and its own reservation together were within its budget. */
  lemma ClaimsAreGrounded(actions: seq<Action>, i: nat, hi: int)
    requires i < |Run(actions).claims|
    ensures
      var w := Run(actions);
      && |w.st.records| == |w.claims| && Grounded(w.st.records[..i], w.st.records[i], w.claims[i], w.issued)
      && (w.claims[i].approval.Some? ==> Sensible(w.issued[w.claims[i].approval.value]))
      && Spent(w.daemon, w.st.records[..i], w.claims[i].now - 86_400_000_000_000, hi)
         + OthersSpent(w.claims[i].listing, Tags(w.st.records[..i]), w.claims[i].now - 86_400_000_000_000)
         + w.st.records[i].reservation
         <= w.claims[i].budget
  {
    RunKeepsInvariant(actions);
    RunKeepsClaims(actions);
    var w := Run(actions);
    SpentBeforeLast(w, w.claims[i].now - DAY, hi, i);
  }
}
