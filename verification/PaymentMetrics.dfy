/** The payment collector (collector/payment_metrics.py): reading a paginated collection and
    aggregating its trailing hour. */
module PaymentMetrics {
  import opened Wrappers

  const PAGE_SIZE := 1000
  const WINDOW_SECONDS := 3600
  const NS := 1_000_000_000

  // ----- reading pages -----

  /** A collection item with the index the server orders by. */
  datatype Item<+T> = Item(index: int, body: T)
  datatype Page<+T> = Page(items: seq<Item<T>>, last: int)
  /** Waiting: the last request has no answer yet. */
  datatype Outcome = Done | RepeatedOffset | NonAdvancing | Waiting
  datatype Reading<+T> = Reading(items: seq<Item<T>>, offsets: seq<int>, outcome: Outcome)

  /** What a reader at this offset makes of the answers that are still to come. */
  function ReadFrom<T>(answers: seq<Page<T>>, offset: int, seen: set<int>): Reading<T> {
    if offset in seen then Reading([], [], RepeatedOffset)
    else if answers == [] then Reading([], [offset], Waiting)
    else
      var page := answers[0];
      if |page.items| < PAGE_SIZE then Reading(page.items, [offset], Done)
      else if page.last <= offset then Reading(page.items, [offset], NonAdvancing)
      else
        var rest := ReadFrom(answers[1..], page.last, seen + {offset});
        Reading(page.items + rest.items, [offset] + rest.offsets, rest.outcome)
  }

  /** A reading that goes on after what was read so far. */
  function Resume<T>(items: seq<Item<T>>, offsets: seq<int>, rest: Reading<T>): Reading<T> {
    Reading(items + rest.items, offsets + rest.offsets, rest.outcome)
  }

  lemma ResumeTurn<T>(items: seq<Item<T>>, offsets: seq<int>, answers: seq<Page<T>>, offset: int, seen: set<int>)
    requires offset !in seen && answers != [] && |answers[0].items| >= PAGE_SIZE && answers[0].last > offset
    ensures Resume(items, offsets, ReadFrom(answers, offset, seen))
            == Resume(items + answers[0].items, offsets + [offset],
                      ReadFrom(answers[1..], answers[0].last, seen + {offset}))
  {
  }

  /** The source's loop. */
  method ReadPages<T>(answers: seq<Page<T>>) returns (r: Reading<T>)
    ensures r == ReadFrom(answers, 0, {})
  {
    var offset, seen: set<int>, items: seq<Item<T>>, offsets: seq<int>, k := 0, {}, [], [], 0;
    while true
      invariant 0 <= k <= |answers|
      invariant ReadFrom(answers, 0, {}) == Resume(items, offsets, ReadFrom(answers[k..], offset, seen))
      decreases |answers| - k
    {
      if offset in seen { return Reading(items, offsets, RepeatedOffset); }
      if k == |answers| { return Reading(items, offsets + [offset], Waiting); }
      var page := answers[k];
      if |page.items| < PAGE_SIZE { return Reading(items + page.items, offsets + [offset], Done); }
      if page.last <= offset { return Reading(items + page.items, offsets + [offset], NonAdvancing); }
      ResumeTurn(items, offsets, answers[k..], offset, seen);
      assert answers[k..][1..] == answers[k + 1..];
      seen, offsets, items := seen + {offset}, offsets + [offset], items + page.items;
      offset, k := page.last, k + 1;
    }
  }

  ghost predicate Increasing(s: seq<int>) {
    forall i, j :: 0 <= i < j < |s| ==> s[i] < s[j]
  }

  /** Against any server whatever, the requested offsets strictly increase, so the repeated-offset
      check never fires. */
  lemma {:induction false} OffsetsIncrease<T>(answers: seq<Page<T>>, offset: int, seen: set<int>)
    requires forall s :: s in seen ==> s < offset
    ensures
      var r := ReadFrom(answers, offset, seen);
      && r.outcome != RepeatedOffset && Increasing(r.offsets)
      && r.offsets != [] && r.offsets[0] == offset
  {
    if answers != [] && |answers[0].items| >= PAGE_SIZE && answers[0].last > offset {
      OffsetsIncrease(answers[1..], answers[0].last, seen + {offset});
    }
  }

  // ----- a server that pages by index -----

  /** Indices are positive and strictly increasing. */
  ghost predicate IsCollection<T>(c: seq<Item<T>>) {
    && (forall i, j :: 0 <= i < j < |c| ==> c[i].index < c[j].index)
    && (forall i :: 0 <= i < |c| ==> c[i].index > 0)
  }

  function After<T>(c: seq<Item<T>>, offset: int): seq<Item<T>> {
    if c == [] then [] else if c[0].index > offset then c else After(c[1..], offset)
  }

  function Take<T>(c: seq<Item<T>>): seq<Item<T>> {
    if |c| > PAGE_SIZE then c[..PAGE_SIZE] else c
  }

  /** The first page of items beyond the offset, and the index of its last item. */
  function Serve<T>(c: seq<Item<T>>, offset: int): Page<T> {
    var items := Take(After(c, offset));
    Page(items, if items == [] then 0 else items[|items| - 1].index)
  }

  /** Every answer is what the server says at the offset then asked for. */
  ghost predicate Answers<T>(answers: seq<Page<T>>, c: seq<Item<T>>, offset: int) {
    answers != [] ==> answers[0] == Serve(c, offset) && Answers(answers[1..], c, answers[0].last)
  }

  lemma {:induction false} AfterIsSuffix<T>(c: seq<Item<T>>, p: nat, offset: int)
    requires IsCollection(c) && p <= |c|
    requires offset == if p == 0 then 0 else c[p - 1].index
    ensures After(c, offset) == c[p..]
  {
    if p > 0 {
      AfterIsSuffixFrom(c, 0, p);
    } else if c != [] {
      assert c[0].index > 0;
    }
  }

  lemma {:induction false} AfterIsSuffixFrom<T>(c: seq<Item<T>>, k: nat, p: nat)
    requires IsCollection(c) && k < p <= |c|
    ensures After(c[k..], c[p - 1].index) == c[p..]
    decreases p - k
  {
    assert c[k..][1..] == c[k + 1..];
    assert c[k].index <= c[p - 1].index;
    if k + 1 < p {
      AfterIsSuffixFrom(c, k + 1, p);
    } else if p < |c| {
      assert c[p..][0] == c[p];
    }
  }

  /** A full page from position p ends at the item before q and moves the offset on. */
  lemma ServesPage<T>(c: seq<Item<T>>, p: nat, offset: int)
    requires IsCollection(c) && p <= |c| && offset == if p == 0 then 0 else c[p - 1].index
    ensures Serve(c, offset).items == Take(c[p..])
    ensures
      var q := p + PAGE_SIZE;
      q <= |c| ==> Serve(c, offset) == Page(c[p..q], c[q - 1].index) && c[q - 1].index > offset
  {
    AfterIsSuffix(c, p, offset);
    var q := p + PAGE_SIZE;
    if q <= |c| {
      assert Take(c[p..]) == c[p..q] && c[p..q][PAGE_SIZE - 1] == c[q - 1];
      if p > 0 { assert c[p - 1].index < c[q - 1].index; }
    }
  }

  /** The requests still needed for n items. */
  function PagesFor(n: nat): nat {
    n / PAGE_SIZE + 1
  }

  /** From position p, with enough answers the reader ends with exactly the rest of the collection;
      with fewer it is still waiting and has a prefix of it. No error is reachable. */
  lemma {:induction false} ReadsTheRest<T>(answers: seq<Page<T>>, c: seq<Item<T>>, p: nat, offset: int, seen: set<int>)
    requires IsCollection(c) && p <= |c| && Answers(answers, c, offset)
    requires offset == if p == 0 then 0 else c[p - 1].index
    requires forall s :: s in seen ==> s < offset
    ensures
      var r := ReadFrom(answers, offset, seen);
      && r.items <= c[p..]
      && (if |answers| < PagesFor(|c| - p) then r.outcome == Waiting && |r.offsets| == |answers| + 1
          else r.outcome == Done && r.items == c[p..] && |r.offsets| == PagesFor(|c| - p))
    decreases |answers|
  {
    ServesPage(c, p, offset);
    if answers != [] && |c| - p >= PAGE_SIZE {
      var q := p + PAGE_SIZE;
      ReadsTheRest(answers[1..], c, q, c[q - 1].index, seen + {offset});
      assert c[p..q] + c[q..] == c[p..];
      assert PagesFor(|c| - p) == PagesFor(|c| - q) + 1;
    }
  }

  /** A conforming server's whole collection is read once each, in order, in exactly
      one more request than it has full pages. */
  lemma ReadsWholeCollection<T>(answers: seq<Page<T>>, c: seq<Item<T>>)
    requires IsCollection(c) && Answers(answers, c, 0)
    ensures
      var r := ReadFrom(answers, 0, {});
      && r.outcome in {Done, Waiting} && r.items <= c
      && (r.outcome == Done <==> |answers| > |c| / PAGE_SIZE)
      && (r.outcome == Done ==> r.items == c && |r.offsets| == |c| / PAGE_SIZE + 1)
  {
    ReadsTheRest(answers, c, 0, 0, {});
    assert c[0..] == c;
  }

  // ----- aggregating -----

  datatype PaymentState = Succeeded | Failed | InFlight | OtherState
  /** `resolves` are the resolve times of the payment's HTLCs. */
  datatype Payment = Payment(createdNs: int, state: PaymentState, feeSat: int, resolves: seq<int>)
  datatype Invoice = Invoice(settled: bool, settleDate: int)

  /** Latency is kept in nanoseconds. */
  datatype Totals = Totals(succeeded: nat, failed: nat, inFlight: nat, feeSat: int, latencyNs: int, samples: nat,
                           settled: nat)

  predicate InWindow(p: Payment, now: int) {
    (now - WINDOW_SECONDS) * NS <= p.createdNs <= now * NS
  }

  function LatestResolve(resolves: seq<int>): int {
    if resolves == [] then 0
    else if |resolves| == 1 then resolves[0]
    else
      var before := LatestResolve(resolves[..|resolves| - 1]);
      if before < resolves[|resolves| - 1] then resolves[|resolves| - 1] else before
  }

  predicate Sampled(p: Payment) {
    LatestResolve(p.resolves) >= p.createdNs && LatestResolve(p.resolves) > 0
  }

  /** The payments of the window in one state. */
  function Within(ps: seq<Item<Payment>>, now: int, s: PaymentState): seq<Payment> {
    if ps == [] then []
    else
      var p := ps[|ps| - 1].body;
      Within(ps[..|ps| - 1], now, s) + if InWindow(p, now) && p.state == s then [p] else []
  }

  function FeeSum(ps: seq<Payment>): int {
    if ps == [] then 0 else FeeSum(ps[..|ps| - 1]) + ps[|ps| - 1].feeSat
  }

  function LatencySum(ps: seq<Payment>): int {
    if ps == [] then 0
    else
      var p := ps[|ps| - 1];
      LatencySum(ps[..|ps| - 1]) + if Sampled(p) then LatestResolve(p.resolves) - p.createdNs else 0
  }

  function SampleCount(ps: seq<Payment>): nat {
    if ps == [] then 0 else SampleCount(ps[..|ps| - 1]) + if Sampled(ps[|ps| - 1]) then 1 else 0
  }

  function Settled(ins: seq<Item<Invoice>>, now: int): seq<Invoice> {
    if ins == [] then []
    else
      var i := ins[|ins| - 1].body;
      Settled(ins[..|ins| - 1], now) + if i.settled && now - WINDOW_SECONDS <= i.settleDate <= now then [i] else []
  }

  /** The totals of two collections, by filtering first and summing after. */
  function TotalsOf(ps: seq<Item<Payment>>, ins: seq<Item<Invoice>>, now: int): Totals {
    var ok := Within(ps, now, Succeeded);
    Totals(|ok|, |Within(ps, now, Failed)|, |Within(ps, now, InFlight)|, FeeSum(ok), LatencySum(ok), SampleCount(ok),
           |Settled(ins, now)|)
  }

  /** The two accumulating loops of the source. */
  method Aggregate(ps: seq<Item<Payment>>, ins: seq<Item<Invoice>>, now: int) returns (t: Totals)
    ensures t == TotalsOf(ps, ins, now)
  {
    var succeeded, failed, inFlight, fee, latency, samples := 0, 0, 0, 0, 0, 0;
    for k := 0 to |ps|
      invariant failed == |Within(ps[..k], now, Failed)| && inFlight == |Within(ps[..k], now, InFlight)|
      invariant
        var ok := Within(ps[..k], now, Succeeded);
        succeeded == |ok| && fee == FeeSum(ok) && latency == LatencySum(ok) && samples == SampleCount(ok)
    {
      var p := ps[k].body;
      assert ps[..k + 1][..k] == ps[..k];
      ghost var ok := Within(ps[..k], now, Succeeded);
      assert ok + [] == ok;
      if !InWindow(p, now) { continue; }
      match p.state
      case Succeeded =>
        succeeded, fee := succeeded + 1, fee + p.feeSat;
        var resolved := LatestResolve(p.resolves);
        if resolved >= p.createdNs && resolved > 0 {
          latency, samples := latency + (resolved - p.createdNs), samples + 1;
        }
      case Failed => failed := failed + 1;
      case InFlight => inFlight := inFlight + 1;
      case OtherState =>
    }
    assert ps[..|ps|] == ps;
    var settled := 0;
    for k := 0 to |ins|
      invariant settled == |Settled(ins[..k], now)|
    {
      var i := ins[k].body;
      assert ins[..k + 1][..k] == ins[..k];
      if i.settled && now - WINDOW_SECONDS <= i.settleDate <= now { settled := settled + 1; }
    }
    assert ins[..|ins|] == ins;
    t := Totals(succeeded, failed, inFlight, fee, latency, samples, settled);
  }

  /** One scrape: both collections are read, then aggregated; an unfinished read gives nothing. */
  method Collect(payments: seq<Page<Payment>>, invoices: seq<Page<Invoice>>, now: int) returns (t: Option<Totals>)
    ensures
      var p, i := ReadFrom(payments, 0, {}), ReadFrom(invoices, 0, {});
      t == if p.outcome == Done && i.outcome == Done then Some(TotalsOf(p.items, i.items, now)) else None
  {
    var p := ReadPages(payments);
    var i := ReadPages(invoices);
    if p.outcome != Done || i.outcome != Done { return None; }
    var totals := Aggregate(p.items, i.items, now);
    return Some(totals);
  }

  /** End to end: against servers that page by index, a finished scrape reports the totals of the
      two whole collections. */
  lemma ScrapeCoversCollections(payments: seq<Page<Payment>>, invoices: seq<Page<Invoice>>, ps: seq<Item<Payment>>,
                                ins: seq<Item<Invoice>>, now: int)
    requires IsCollection(ps) && Answers(payments, ps, 0) && |payments| > |ps| / PAGE_SIZE
    requires IsCollection(ins) && Answers(invoices, ins, 0) && |invoices| > |ins| / PAGE_SIZE
    ensures
      var p, i := ReadFrom(payments, 0, {}), ReadFrom(invoices, 0, {});
      p.outcome == Done && i.outcome == Done && TotalsOf(p.items, i.items, now) == TotalsOf(ps, ins, now)
  {
    ReadsWholeCollection(payments, ps);
    ReadsWholeCollection(invoices, ins);
  }

  function Plus(a: Totals, b: Totals): Totals {
    Totals(a.succeeded + b.succeeded, a.failed + b.failed, a.inFlight + b.inFlight, a.feeSat + b.feeSat,
           a.latencyNs + b.latencyNs, a.samples + b.samples, a.settled + b.settled)
  }

  lemma {:induction false} WithinSplits(a: seq<Item<Payment>>, b: seq<Item<Payment>>, now: int, s: PaymentState)
    ensures Within(a + b, now, s) == Within(a, now, s) + Within(b, now, s)
  {
    if b == [] {
      assert a + b == a;
    } else {
      assert (a + b)[..|a + b| - 1] == a + b[..|b| - 1];
      WithinSplits(a, b[..|b| - 1], now, s);
    }
  }

  lemma {:induction false} SettledSplits(a: seq<Item<Invoice>>, b: seq<Item<Invoice>>, now: int)
    ensures Settled(a + b, now) == Settled(a, now) + Settled(b, now)
  {
    if b == [] {
      assert a + b == a;
    } else {
      assert (a + b)[..|a + b| - 1] == a + b[..|b| - 1];
      SettledSplits(a, b[..|b| - 1], now);
    }
  }

  lemma {:induction false} SumsSplit(a: seq<Payment>, b: seq<Payment>)
    ensures FeeSum(a + b) == FeeSum(a) + FeeSum(b)
    ensures LatencySum(a + b) == LatencySum(a) + LatencySum(b)
    ensures SampleCount(a + b) == SampleCount(a) + SampleCount(b)
  {
    if b == [] {
      assert a + b == a;
    } else {
      assert (a + b)[..|a + b| - 1] == a + b[..|b| - 1];
      SumsSplit(a, b[..|b| - 1]);
    }
  }

  /** The latest of these times, or zero if there is none. */
  ghost predicate IsLatest(resolves: seq<int>, m: int) {
    (if resolves == [] then m == 0 else m in resolves) && forall x :: x in resolves ==> x <= m
  }

  lemma {:induction false} LatestIs(resolves: seq<int>)
    ensures IsLatest(resolves, LatestResolve(resolves))
  {
    if |resolves| > 1 {
      var n := |resolves| - 1;
      LatestIs(resolves[..n]);
      assert resolves == resolves[..n] + [resolves[n]];
    }
  }

  /** What one payment adds: created within the last hour, it counts under its state; a success adds its fee, and
      the time to its latest resolution when that is positive and not before its creation. Nothing adds nothing,
      so with TotalsAddOverPages this gives every total. */
  lemma OnePaymentAdds(p: Item<Payment>, now: int, resolved: int)
    requires IsLatest(p.body.resolves, resolved)
    ensures TotalsOf([], [], now) == Totals(0, 0, 0, 0, 0, 0, 0)
    ensures
      var q := p.body;
      var recent := now - 3600 <= q.createdNs / 1_000_000_000 && q.createdNs <= now * 1_000_000_000;
      var timed := q.state == Succeeded && resolved > 0 && resolved >= q.createdNs;
      TotalsOf([p], [], now) ==
      if !recent then Totals(0, 0, 0, 0, 0, 0, 0)
      else Totals(if q.state == Succeeded then 1 else 0, if q.state == Failed then 1 else 0,
                  if q.state == InFlight then 1 else 0, if q.state == Succeeded then q.feeSat else 0,
                  if timed then resolved - q.createdNs else 0, if timed then 1 else 0, 0)
  {
    LatestIs(p.body.resolves);
    assert resolved == LatestResolve(p.body.resolves);
    forall s ensures Within([p], now, s) == if InWindow(p.body, now) && p.body.state == s then [p.body] else [] {
      assert [p][..|[p]| - 1] == [];
      assert [] + [p.body] == [p.body];
    }
    SumsOfOne(p.body);
  }

  lemma SumsOfOne(p: Payment)
    ensures FeeSum([p]) == p.feeSat && SampleCount([p]) == (if Sampled(p) then 1 else 0)
    ensures LatencySum([p]) == if Sampled(p) then LatestResolve(p.resolves) - p.createdNs else 0
  {
    assert [p][..|[p]| - 1] == [];
  }

  /** One invoice counts exactly when it was settled within the last hour. */
  lemma OneInvoiceAdds(i: Item<Invoice>, now: int)
    ensures TotalsOf([], [i], now)
            == Totals(0, 0, 0, 0, 0, 0,
                      if i.body.settled && now - 3600 <= i.body.settleDate && i.body.settleDate <= now then 1 else 0)
  {
    assert [i][..|[i]| - 1] == [];
    assert Settled([], now) == [];
  }

  /** The totals do not depend on how the collections are cut into pages. */
  lemma TotalsAddOverPages(ps: seq<Item<Payment>>, ps': seq<Item<Payment>>, ins: seq<Item<Invoice>>,
                           ins': seq<Item<Invoice>>, now: int)
    ensures TotalsOf(ps + ps', ins + ins', now) == Plus(TotalsOf(ps, ins, now), TotalsOf(ps', ins', now))
  {
    var ok, ok' := Within(ps, now, Succeeded), Within(ps', now, Succeeded);
    assert Within(ps + ps', now, Succeeded) == ok + ok' by { WithinSplits(ps, ps', now, Succeeded); }
    assert |Within(ps + ps', now, Failed)| == |Within(ps, now, Failed)| + |Within(ps', now, Failed)| by {
      WithinSplits(ps, ps', now, Failed);
    }
    assert |Within(ps + ps', now, InFlight)| == |Within(ps, now, InFlight)| + |Within(ps', now, InFlight)| by {
      WithinSplits(ps, ps', now, InFlight);
    }
    assert |Settled(ins + ins', now)| == |Settled(ins, now)| + |Settled(ins', now)| by {
      SettledSplits(ins, ins', now);
    }
    SumsSplit(ok, ok');
  }
}
