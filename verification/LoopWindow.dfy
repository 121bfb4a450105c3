/** How long a window of creation times the fee budget of the Loop journal really protects. */
module LoopWindow {
  import opened Runs
  import opened Selections
  import opened Wrappers
  import opened LoopJournal
  import opened LoopMachine
  import opened LoopSafety
  import opened LoopTheorems

  // ----- the runs the budget is meant for -----

  function ViewTimes(views: seq<LndView>): seq<int> {
    seq(|views|, i requires 0 <= i < |views| => views[i].now)
  }

  /** The clock readings behind one action, in order. */
  function Readings(a: Action): seq<int> {
    match a
    case Begin(_, Submit(p, _, _, _, began)) => [p.created, began]
    case Refresh(_, _, views) => ViewTimes(views)
    case Decide(_, now, _, _) => [now]
    case _ => []
  }

  function Clocks(actions: seq<Action>): seq<int> {
    if actions == [] then [] else Readings(actions[0]) + Clocks(actions[1..])
  }

  ghost predicate Nondecreasing(s: seq<int>) {
    forall i, j :: 0 <= i < j < |s| ==> s[i] <= s[j]
  }

  /** One budget, claims within `late` of their freshness check, and no swap above its reservation. */
  ghost predicate WithinTerms(w: World, late: nat, budget: nat) {
    && (forall i {:trigger w.claims[i]} :: 0 <= i < |w.claims| ==>
          w.claims[i].budget == budget && w.claims[i].now - w.claims[i].began <= late)
    && (forall r :: r in w.st.records ==> CostNow(w.daemon, r) <= r.reservation)
  }

  ghost predicate Regular(actions: seq<Action>, late: nat, budget: nat) {
    WithinTerms(Run(actions), late, budget) && Nondecreasing(Clocks(actions))
  }

  ghost function SpentIn(actions: seq<Action>, lo: int, width: nat): nat {
    Spent(Run(actions).daemon, Run(actions).st.records, lo, lo + width)
  }

  /** In no regular run do the swaps created in a window this wide cost more than the budget. */
  ghost predicate Protected(width: nat, late: nat) {
    forall actions, lo, budget: nat {:trigger SpentIn(actions, lo, width), Regular(actions, late, budget)} ::
      Regular(actions, late, budget) ==> SpentIn(actions, lo, width) <= budget
  }

  /** The protected windows are exactly those of a day, less the minute a quote may age, less the
      longest delay between a claim's freshness check and its cutoff reading. */
  lemma WindowIsExact(width: nat, late: nat)
    ensures Protected(width, late) <==> width <= DAY - QUOTE_LIFETIME - late
  {
    if width <= DAY - QUOTE_LIFETIME - late {
      forall actions, lo, budget: nat | Regular(actions, late, budget) ensures SpentIn(actions, lo, width) <= budget {
        RunKeepsInvariant(actions);
        FixedBudgetOf(Run(actions), lo, late, budget);
        WiderSpendsMore(Run(actions).daemon, Run(actions).st.records, lo, lo + width, WindowEnd(lo, late));
      }
    } else {
      var actions := OverspendingRun(width, late);
      assert SpentIn(actions, 0, width) > 1;
    }
  }

  lemma {:induction false} WiderSpendsMore(daemon: map<Label, Swap>, rs: seq<Record>, lo: int, hi: int, hi': int)
    requires hi <= hi'
    ensures Spent(daemon, rs, lo, hi) <= Spent(daemon, rs, lo, hi')
  {
    if rs != [] { WiderSpendsMore(daemon, rs[..|rs| - 1], lo, hi, hi'); }
  }

  // ----- runs from any point -----

  lemma {:induction false} ClocksAppend(a: seq<Action>, b: seq<Action>)
    ensures Clocks(a + b) == Clocks(a) + Clocks(b)
  {
    if a == [] {
      assert a + b == b;
    } else {
      assert (a + b)[0] == a[0] && (a + b)[1..] == a[1..] + b;
      ClocksAppend(a[1..], b);
    }
  }

  /** A submit of one client, undisturbed up to the daemon's acceptance. */
  function SubmitActions(c: nat, p: Plan, budget: int, began: int, now: int, listing: seq<Swap>, views: seq<LndView>,
                         swap: Swap): seq<Action> {
    [Begin(c, Submit(p, budget, false, None, began))] + ([Load(c)] + ([Refresh(c, listing, views)]
    + ([Decide(c, now, true, 0)] + ([Land(c, true)] + ([Post(c)] + ([Accept(c, swap)] + []))))))
  }

  /** What of a world this file follows, with no client running. */
  ghost predicate Looks(w: World, st: State, daemon: map<Label, Swap>, claims: seq<Claim>) {
    w.st == st && w.daemon == daemon && w.claims == claims && w.clients == map[]
  }

  ghost function AfterDecide(w: World, c: nat, p: Plan, claim: Claim): World {
    Put(w, c, Saving(w.version, ClaimedState(w.st, p, false), Claiming(NewRecord(p, false), claim)))
  }

  lemma LoadRuns(w: World, c: nat, job: Job)
    requires w.clients == map[] && MayBegin(job) && !job.Disarm?
    ensures Apply(Apply(w, Begin(c, job)), Load(c)) == Put(w, c, Loaded(job, w.version, w.st))
  {
    var w1 := Apply(w, Begin(c, job));
    assert w1 == Put(w, c, Started(job));
  }

  /** Reading, and reconciling with nothing to write. */
  lemma ReadingRuns(w: World, c: nat, job: Job, listing: seq<Swap>, views: seq<LndView>)
    requires w.clients == map[] && MayBegin(job) && !job.Disarm?
    requires |views| == |w.st.records| && Truthful(listing, w.daemon)
             && ReconcileState(w.st, listing, views) == Some(w.st)
    ensures Apply(Apply(Apply(w, Begin(c, job)), Load(c)), Refresh(c, listing, views))
            == Put(w, c, Ready(job, w.version, w.st, listing))
  {
    LoadRuns(w, c, job);
    var w2 := Put(w, c, Loaded(job, w.version, w.st));
    assert Apply(w2, Refresh(c, listing, views)) == Put(w, c, Ready(job, w.version, w.st, listing));
  }

  /** And deciding. */
  lemma DecisionRuns(w: World, c: nat, p: Plan, budget: int, began: int, now: int, listing: seq<Swap>,
                     views: seq<LndView>)
    requires w.clients == map[] && MayBegin(Submit(p, budget, false, None, began))
    requires |views| == |w.st.records| && Truthful(listing, w.daemon)
             && ReconcileState(w.st, listing, views) == Some(w.st)
    requires MayClaim(w.st, listing, p, budget, false, None, now, true)
    ensures
      var job := Submit(p, budget, false, None, began);
      Apply(Apply(Apply(Apply(w, Begin(c, job)), Load(c)), Refresh(c, listing, views)), Decide(c, now, true, 0))
      == AfterDecide(w, c, p, Claim(began, now, budget, None, p, listing))
  {
    ReadingRuns(w, c, Submit(p, budget, false, None, began), listing, views);
  }

  /** The claim lands, is POSTed and accepted. */
  lemma ClaimRuns(w: World, c: nat, p: Plan, claim: Claim, swap: Swap)
    requires w.clients == map[] && swap.tag == Some(p.tag) && claim.approval.None?
    ensures Looks(Apply(Apply(Apply(AfterDecide(w, c, p, claim), Land(c, true)), Post(c)), Accept(c, swap)),
                  ClaimedState(w.st, p, false), w.daemon[p.tag := swap], w.claims + [claim])
  {
    var w1 := Apply(AfterDecide(w, c, p, claim), Land(c, true));
    assert w1.clients == map[c := Claimed(NewRecord(p, false))];
    var w2 := Apply(w1, Post(c));
    assert w2.clients == map[c := Sent(NewRecord(p, false))];
    var w3 := Apply(w2, Accept(c, swap));
    assert w3.clients == map[];
  }

  lemma SubmitRuns(w: World, c: nat, p: Plan, budget: int, began: int, now: int, listing: seq<Swap>,
                   views: seq<LndView>, swap: Swap)
    requires w.clients == map[] && MayBegin(Submit(p, budget, false, None, began))
    requires |views| == |w.st.records| && Truthful(listing, w.daemon)
             && ReconcileState(w.st, listing, views) == Some(w.st)
    requires MayClaim(w.st, listing, p, budget, false, None, now, true) && swap.tag == Some(p.tag)
    ensures Looks(Fold(Apply, w, SubmitActions(c, p, budget, began, now, listing, views, swap)),
                  ClaimedState(w.st, p, false), w.daemon[p.tag := swap],
                  w.claims + [Claim(began, now, budget, None, p, listing)])
  {
    var job := Submit(p, budget, false, None, began);
    var a5 := [Land(c, true)] + ([Post(c)] + ([Accept(c, swap)] + []));
    var w4 := AfterDecide(w, c, p, Claim(began, now, budget, None, p, listing));
    DecisionRuns(w, c, p, budget, began, now, listing, views);
    FourHeads(w, Begin(c, job), Load(c), Refresh(c, listing, views), Decide(c, now, true, 0), a5);
    FoldHead(Apply, w4, Land(c, true), [Post(c)] + ([Accept(c, swap)] + []));
    FoldHead(Apply, Apply(w4, Land(c, true)), Post(c), [Accept(c, swap)] + []);
    FoldHead(Apply, Apply(Apply(w4, Land(c, true)), Post(c)), Accept(c, swap), []);
    ClaimRuns(w, c, p, Claim(began, now, budget, None, p, listing), swap);
  }

  lemma FourHeads(w: World, a: Action, b: Action, c: Action, d: Action, rest: seq<Action>)
    ensures Fold(Apply, w, [a] + ([b] + ([c] + ([d] + rest))))
            == Fold(Apply, Apply(Apply(Apply(Apply(w, a), b), c), d), rest)
  {
    FoldHead(Apply, w, a, [b] + ([c] + ([d] + rest)));
    FoldHead(Apply, Apply(w, a), b, [c] + ([d] + rest));
    FoldHead(Apply, Apply(Apply(w, a), b), c, [d] + rest);
    FoldHead(Apply, Apply(Apply(Apply(w, a), b), c), d, rest);
  }

  /** A status view of one client that has something to write, and stops. */
  function ShowActions(c: nat, listing: seq<Swap>, views: seq<LndView>): seq<Action> {
    [Begin(c, Show)] + ([Load(c)] + ([Refresh(c, listing, views)] + ([Land(c, false)] + [])))
  }

  lemma ShowRuns(w: World, c: nat, listing: seq<Swap>, views: seq<LndView>, next: State)
    requires w.clients == map[] && |views| == |w.st.records| && Truthful(listing, w.daemon)
    requires ReconcileState(w.st, listing, views) == Some(next) && next != w.st
    ensures Looks(Fold(Apply, w, ShowActions(c, listing, views)), next, w.daemon, w.claims)
  {
    FourHeads(w, Begin(c, Show), Load(c), Refresh(c, listing, views), Land(c, false), []);
    ShowReads(w, c, listing, views, next);
    ShowLands(w, c, listing, next);
  }

  ghost function AfterShow(w: World, c: nat, listing: seq<Swap>, next: State): World {
    Put(w, c, Saving(w.version, next, Continue(Show, listing)))
  }

  lemma ShowReads(w: World, c: nat, listing: seq<Swap>, views: seq<LndView>, next: State)
    requires w.clients == map[] && |views| == |w.st.records| && Truthful(listing, w.daemon)
    requires ReconcileState(w.st, listing, views) == Some(next) && next != w.st
    ensures Apply(Apply(Apply(w, Begin(c, Show)), Load(c)), Refresh(c, listing, views))
            == AfterShow(w, c, listing, next)
  {
    LoadRuns(w, c, Show);
    var w2 := Put(w, c, Loaded(Show, w.version, w.st));
    assert Apply(w2, Refresh(c, listing, views)) == AfterShow(w, c, listing, next);
  }

  lemma ShowLands(w: World, c: nat, listing: seq<Swap>, next: State)
    requires w.clients == map[]
    ensures Looks(Apply(AfterShow(w, c, listing, next), Land(c, false)), next, w.daemon, w.claims)
  {
    assert Apply(AfterShow(w, c, listing, next), Land(c, false)).clients == map[];
  }

  // ----- the run that overspends -----

  /** A plan for one satoshi that reserves one. */
  ghost predicate Small(p: Plan, created: int) {
    p.direction.LoopOut? && p.created == created && p.amount == 1 && p.reservation == 1 && Intact(p)
  }

  /** The daemon's final report of such a swap, which cost one satoshi. */
  ghost predicate Finished(s: Swap, tag: Label) {
    s.tag == Some(tag) && s.amount == 1 && s.kind == Some(LoopOut) && s.state == Some(Success) && Cost(s) == 1
  }

  lemma SmallPlan(tag: Label, created: int) returns (p: Plan, s: Swap)
    ensures Small(p, created) && p.tag == tag && Finished(s, tag)
  {
    var payload := Payload(1, 1, 0, 0, 0, 0, ["c"], "");
    p := Plan(tag, LoopOut, "c", "p", ["c"], 1, 1, 1, created, payload, payload);
    s := Swap(Some(tag), 1, Some(LoopOut), Some(Success), tag, Some(1), Some(0), Some(0), false, 0);
  }

  /** The record once the final report was seen at this time. */
  function SeenAt(r: Record, s: Swap, now: int): Record {
    r.(status := Success, seen := Some(Seen(s.id, 1)), observedAt := Some(now), settled := Some(false))
  }

  lemma MatchingOne(s: Swap, l: Label)
    requires s.tag == Some(l)
    ensures Matching([s], l) == [s]
  {
    SelectOnly([s], (x: Swap) => x.tag == Some(l), 0);
  }

  lemma ReconcileOne(r: Record, s: Swap, view: LndView)
    requires Finished(s, r.tag) && r.amount == 1 && r.direction.LoopOut?
    requires !Terminal(r.status) || r == SeenAt(r, s, Or(r.observedAt, 0))
    ensures ReconcileRecord(r, [s], view) == Some(if Terminal(r.status) then r else SeenAt(r, s, view.now))
  {
    MatchingOne(s, r.tag);
  }

  lemma RecordsOfOne(rs: seq<Record>, r: Record, listing: seq<Swap>, view: LndView)
    requires rs == [r] && ReconcileRecord(r, listing, view).Some?
    ensures ReconcileRecords(rs, listing, [view]) == Some([ReconcileRecord(r, listing, view).value])
  {
    var views, x := [view], ReconcileRecord(r, listing, view).value;
    assert rs[..0] == [] && views[..0] == [];
    assert ReconcileRecords(rs[..0], listing, views[..0]) == Some([]);
    assert [] + [x] == [x];
  }

  lemma ReconcileAlone(st: State, r: Record, s: Swap, view: LndView)
    requires st.records == [r] && !st.auto.enabled
    requires Finished(s, r.tag) && r.amount == 1 && r.direction.LoopOut?
    requires !Terminal(r.status) || r == SeenAt(r, s, Or(r.observedAt, 0))
    ensures ReconcileState(st, [s], [view]) == Some(State([if Terminal(r.status) then r else SeenAt(r, s, view.now)],
                                                          st.auto))
  {
    ReconcileOne(r, s, view);
    RecordsOfOne(st.records, r, [s], view);
    assert st.auto.(enabled := false) == st.auto;
  }

  /** A day after it was observed the first swap is charged no more. */
  lemma SecondMayClaim(st: State, r: Record, s: Swap, p: Plan, now: int)
    requires st.records == [r] && r.status.Success? && r.created == 0 && r.observedAt == Some(0) && Finished(s, r.tag)
    requires p.tag != r.tag && p.reservation == 1 && now > DAY
    ensures MayClaim(st, [s], p, 1, false, None, now, true)
  {
    assert [r][..0] == [] && [s][..0] == [];
    assert Charges([r], now - DAY) == Charges([], now - DAY);
    assert ForeignCosts([s], [r], now - DAY) == ForeignCosts([], [r], now - DAY);
  }

  /** A claim under a budget of one, by hand. */
  ghost predicate Plain(claim: Claim, began: int, now: int) {
    claim.began == began && claim.now == now && claim.budget == 1 && claim.approval.None?
  }

  /** What the steps of the run below leave behind: the first record, perhaps seen, and its swap. */
  ghost predicate OneSwap(w: World, r: Record, s: Swap) {
    && w.clients == map[] && w.st.records == [r] && !w.st.auto.enabled && Finished(s, r.tag)
    && w.daemon == map[r.tag := s] && |w.claims| == 1 && Plain(w.claims[0], 0, 0)
    && r.created == 0 && r.amount == 1 && r.reservation == 1 && r.direction.LoopOut?
  }

  lemma FirstRuns(p: Plan, s: Swap)
    requires Small(p, 0) && Finished(s, p.tag)
    ensures OneSwap(Run(SubmitActions(0, p, 1, 0, 0, [], [], s)), NewRecord(p, false), s)
  {
    var first := SubmitActions(0, p, 1, 0, 0, [], [], s);
    FoldAppend(Apply, INIT, [], first);
    assert [] + first == first;
    assert ReconcileState(INIT.st, [], []) == Some(INIT.st);
    SubmitRuns(INIT, 0, p, 1, 0, 0, [], [], s);
  }

  lemma ShowsSwap(before: seq<Action>, r: Record, s: Swap)
    requires OneSwap(Run(before), r, s) && r.status.Submitting?
    ensures OneSwap(Run(before + ShowActions(0, [s], [LndView([], None, 0)])), SeenAt(r, s, 0), s)
  {
    var w, view := Run(before), LndView([], None, 0);
    FoldAppend(Apply, INIT, before, ShowActions(0, [s], [view]));
    ReconcileAlone(w.st, r, s, view);
    ShowRuns(w, 0, [s], [view], State([SeenAt(r, s, 0)], w.st.auto));
  }

  function SecondSubmit(p: Plan, s: Swap, s': Swap, late: nat): seq<Action> {
    var began := p.created + QUOTE_LIFETIME;
    SubmitActions(0, p, 1, began, began + late, [s], [LndView([], None, began)], s')
  }

  lemma SecondRuns(before: seq<Action>, r: Record, s: Swap, p: Plan, s': Swap, late: nat)
    requires OneSwap(Run(before), r, s) && r == SeenAt(r, s, 0)
    requires Small(p, p.created) && Finished(s', p.tag) && p.tag != r.tag && p.created + late > DAY - QUOTE_LIFETIME
    ensures BothSwaps(Run(before + SecondSubmit(p, s, s', late)), r, s, p, s', p.created + QUOTE_LIFETIME, late)
  {
    FoldAppend(Apply, INIT, before, SecondSubmit(p, s, s', late));
    SecondFollows(Run(before), r, s, p, s', late);
  }

  /** What the whole run leaves behind. */
  ghost predicate BothSwaps(w: World, r: Record, s: Swap, p: Plan, s': Swap, began: int, late: nat) {
    && w.st.records == [r, NewRecord(p, false)] && w.daemon == map[r.tag := s, p.tag := s']
    && |w.claims| == 2 && Plain(w.claims[0], 0, 0) && Plain(w.claims[1], began, began + late)
  }

  lemma SecondFollows(w: World, r: Record, s: Swap, p: Plan, s': Swap, late: nat)
    requires OneSwap(w, r, s) && r == SeenAt(r, s, 0)
    requires Small(p, p.created) && Finished(s', p.tag) && p.tag != r.tag && p.created + late > DAY - QUOTE_LIFETIME
    ensures BothSwaps(Fold(Apply, w, SecondSubmit(p, s, s', late)), r, s, p, s', p.created + QUOTE_LIFETIME, late)
  {
    var began := p.created + QUOTE_LIFETIME;
    var now, view := began + late, LndView([], None, began);
    SecondIsReady(w, r, s, p, began, late);
    SubmitRuns(w, 0, p, 1, began, now, [s], [view], s');
    TwoSwaps(w, Fold(Apply, w, SecondSubmit(p, s, s', late)), r, s, p, s', began, late);
  }

  lemma TwoSwaps(w: World, w': World, r: Record, s: Swap, p: Plan, s': Swap, began: int, late: nat)
    requires OneSwap(w, r, s) && p.tag != r.tag
    requires Looks(w', ClaimedState(w.st, p, false), w.daemon[p.tag := s'],
                   w.claims + [Claim(began, began + late, 1, None, p, [s])])
    ensures BothSwaps(w', r, s, p, s', began, late)
  {
  }

  /** Everything the second submit checks passes. */
  lemma SecondIsReady(w: World, r: Record, s: Swap, p: Plan, began: int, late: nat)
    requires OneSwap(w, r, s) && r == SeenAt(r, s, 0)
    requires Small(p, began - QUOTE_LIFETIME) && p.tag != r.tag && began + late > DAY
    ensures MayBegin(Submit(p, 1, false, None, began)) && Truthful([s], w.daemon)
    ensures ReconcileState(w.st, [s], [LndView([], None, began)]) == Some(w.st)
    ensures MayClaim(w.st, [s], p, 1, false, None, began + late, true)
  {
    ReconcileAlone(w.st, r, s, LndView([], None, began));
    SecondMayClaim(w.st, r, s, p, began + late);
  }

  /** Budget one; a swap created, claimed and observed finished at 0; another created at `width` and
      claimed as late as allowed, when the first no longer counts. Together they cost two. */
  lemma OverspendingRun(width: nat, late: nat) returns (actions: seq<Action>)
    requires width > DAY - QUOTE_LIFETIME - late
    ensures Regular(actions, late, 1) && SpentIn(actions, 0, width) == 2
    ensures
      var claims, began := Run(actions).claims, width + QUOTE_LIFETIME;
      |claims| == 2 && Plain(claims[0], 0, 0) && Plain(claims[1], began, began + late)
  {
    var p, s := SmallPlan(0, 0);
    var p', s' := SmallPlan(1, width);
    var first, r := SubmitActions(0, p, 1, 0, 0, [], [], s), NewRecord(p, false);
    FirstRuns(p, s);
    ShowsSwap(first, r, s);
    var show := ShowActions(0, [s], [LndView([], None, 0)]);
    SecondRuns(first + show, SeenAt(r, s, 0), s, p', s', late);
    actions := first + show + SecondSubmit(p', s, s', late);
    SpentTwice(Run(actions).daemon, SeenAt(r, s, 0), NewRecord(p', false), s, s', width);
    ClocksOfRun(p, s, p', s', width, late);
  }

  lemma ClocksOfRun(p: Plan, s: Swap, p': Plan, s': Swap, width: nat, late: nat)
    requires p.created == 0 && p'.created == width
    ensures Nondecreasing(Clocks(SubmitActions(0, p, 1, 0, 0, [], [], s) + ShowActions(0, [s], [LndView([], None, 0)])
                                 + SecondSubmit(p', s, s', late)))
  {
    var began, v0 := width + QUOTE_LIFETIME, LndView([], None, 0);
    var first, show, second := SubmitActions(0, p, 1, 0, 0, [], [], s), ShowActions(0, [s], [v0]),
        SecondSubmit(p', s, s', late);
    ClocksAppend(first, show);
    ClocksAppend(first + show, second);
    SubmitClocks(0, p, 1, 0, 0, [], [], s);
    ShowClocks(0, [s], [v0]);
    SubmitClocks(0, p', 1, began, began + late, [s], [LndView([], None, began)], s');
    assert Clocks(first + show + second) == [0, 0, 0, 0, width, began, began, began + late];
  }

  lemma SpentOfTwo(daemon: map<Label, Swap>, a: Record, b: Record, lo: int, hi: int)
    requires Within(a, lo, hi) && Within(b, lo, hi)
    ensures Spent(daemon, [a, b], lo, hi) == CostNow(daemon, a) + CostNow(daemon, b)
  {
    assert [a, b][..1] == [a] && [a][..0] == [];
    assert Spent(daemon, [a], lo, hi) == CostNow(daemon, a);
  }

  lemma SpentTwice(daemon: map<Label, Swap>, a: Record, b: Record, s: Swap, s': Swap, width: nat)
    requires a.tag != b.tag && daemon == map[a.tag := s, b.tag := s'] && Cost(s) == 1 && Cost(s') == 1
    requires a.created == 0 && b.created == width && a.reservation == 1 && b.reservation == 1
    ensures Spent(daemon, [a, b], 0, width) == 2 && forall r :: r in [a, b] ==> CostNow(daemon, r) <= r.reservation
  {
    SpentOfTwo(daemon, a, b, 0, width);
  }

  lemma ClockHead(a: Action, rest: seq<Action>)
    ensures Clocks([a] + rest) == Readings(a) + Clocks(rest)
  {
    assert ([a] + rest)[1..] == rest;
  }

  /** Actions that read no clock, in front of others. */
  lemma SilentHead(a: Action, rest: seq<Action>)
    requires Readings(a) == []
    ensures Clocks([a] + rest) == Clocks(rest)
  {
    ClockHead(a, rest);
  }

  lemma SubmitClocks(c: nat, p: Plan, budget: int, began: int, now: int, listing: seq<Swap>, views: seq<LndView>,
                     swap: Swap)
    ensures Clocks(SubmitActions(c, p, budget, began, now, listing, views, swap))
            == [p.created, began] + (ViewTimes(views) + [now])
  {
    var r, d, end := Refresh(c, listing, views), Decide(c, now, true, 0),
        [Land(c, true)] + ([Post(c)] + ([Accept(c, swap)] + []));
    ClockHead(Begin(c, Submit(p, budget, false, None, began)), [Load(c)] + ([r] + ([d] + end)));
    SilentHead(Load(c), [r] + ([d] + end));
    ClockHead(r, [d] + end);
    ClockHead(d, end);
    SilentHead(Land(c, true), [Post(c)] + ([Accept(c, swap)] + []));
    SilentHead(Post(c), [Accept(c, swap)] + []);
    SilentHead(Accept(c, swap), []);
    assert [now] + [] == [now];
  }

  lemma ShowClocks(c: nat, listing: seq<Swap>, views: seq<LndView>)
    ensures Clocks(ShowActions(c, listing, views)) == ViewTimes(views)
  {
    SilentHead(Begin(c, Show), [Load(c)] + ([Refresh(c, listing, views)] + ([Land(c, false)] + [])));
    SilentHead(Load(c), [Refresh(c, listing, views)] + ([Land(c, false)] + []));
    ClockHead(Refresh(c, listing, views), [Land(c, false)] + []);
    SilentHead(Land(c, false), []);
    assert ViewTimes(views) + [] == ViewTimes(views);
  }
}
