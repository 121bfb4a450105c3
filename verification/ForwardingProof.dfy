/**
 Matching one approved external payment to a forward on this node (ops/router_proof.py), and the
 independent count of recent forwards (ops/router_forwarding.py). Times are nanoseconds.
 */
module ForwardingProof {
  import opened Wrappers
  import opened Ordering
  import opened Selections

  const SECOND := 1_000_000_000
  const WINDOW := 86400

  datatype Info = Info(usable: bool, identity: string)
  datatype Channel = Channel(id: string, point: string, peer: string, active: bool, isPrivate: bool)
  datatype Leg = Leg(id: string, point: string, peer: string)
  datatype Plan = Plan(identity: string, payer: string, receiver: string, incoming: Leg, outgoing: Leg,
                       amountSat: int, feeLimitSat: int)

  function LegMatches(channels: seq<Channel>, id: string, peer: string): seq<Channel> {
    Select(channels, (c: Channel) => c.id == id && c.peer == peer && c.active && !c.isPrivate)
  }

  /** The plan, or a raise: three different usable wallets, small bounds, one active public
      channel on each side, two different channels. */
  function MakePlan(router: Info, payer: Info, receiver: Info, channels: seq<Channel>, incoming: string,
                    outgoing: string, amountSat: int, feeSat: int): Result<Plan>
  {
    var ins := LegMatches(channels, incoming, payer.identity);
    var outs := LegMatches(channels, outgoing, receiver.identity);
    if !router.usable || !payer.usable || !receiver.usable then Raised
    else if router.identity == payer.identity || router.identity == receiver.identity
            || payer.identity == receiver.identity
    then Raised
    else if !(1 <= amountSat <= 100) || !(0 <= feeSat <= 100) then Raised
    else if |ins| != 1 || |outs| != 1 then Raised
    else if incoming == outgoing then Raised
    else Ok(Plan(router.identity, payer.identity, receiver.identity,
                 Leg(incoming, ins[0].point, payer.identity), Leg(outgoing, outs[0].point, receiver.identity),
                 amountSat, feeSat))
  }

  datatype Request = Request(plan: Plan, id: string, startedNs: int, hash: string)

  datatype Hop = Hop(pubKey: string, chanId: string, forwardMsat: Option<int>, feeMsat: Option<int>)
  datatype Attempt = Attempt(succeeded: bool, attemptNs: int, resolveNs: int, hops: seq<Hop>)
  datatype PaymentState = Succeeded | Failed | Unsettled
  datatype Payment = Payment(hash: string, state: PaymentState, valueMsat: Option<int>, feeMsat: Option<int>,
                             htlcs: seq<Attempt>)
  datatype Invoice = Invoice(hash: Option<string>, settled: bool, paidMsat: Option<int>)
  datatype Forward = Forward(chanIn: string, chanOut: string, inMsat: Option<int>, outMsat: Option<int>,
                             feeMsat: Option<int>, ns: Option<int>)

  function SuccessfulAttempts(htlcs: seq<Attempt>): seq<Attempt> {
    Select(htlcs, (a: Attempt) => a.succeeded)
  }

  predicate RoutedThrough(r: Request, a: Attempt, fee: int) {
    var msat := r.plan.amountSat * 1000;
    && |a.hops| == 2
    && a.hops[0].pubKey == r.plan.identity && a.hops[1].pubKey == r.plan.receiver
    && a.hops[0].chanId == r.plan.incoming.id && a.hops[1].chanId == r.plan.outgoing.id
    && a.hops[0].forwardMsat == Some(msat) && a.hops[1].forwardMsat == Some(msat)
    && a.hops[0].feeMsat == Some(fee) && a.hops[1].feeMsat == Some(0)
  }

  predicate EventMatches(r: Request, fee: int, nowNs: int, e: Forward) {
    var msat := r.plan.amountSat * 1000;
    && e.chanIn == r.plan.incoming.id && e.chanOut == r.plan.outgoing.id
    && Or(e.inMsat, -1) == msat + fee && Or(e.outMsat, -1) == msat && Or(e.feeMsat, -1) == fee
    && r.startedNs <= Or(e.ns, 0) <= nowNs
  }

  function MatchingEvents(r: Request, fee: int, nowNs: int, events: seq<Forward>): seq<Forward> {
    Select(events, (e: Forward) => EventMatches(r, fee, nowNs, e))
  }

  datatype Evidence = Evidence(request: Request, feeMsat: int, forwardedNs: int, verifiedNs: int)

  /** Complete evidence, or a raise at the first thing that does not fit. */
  function Validate(r: Request, payment: Payment, invoice: Invoice, events: seq<Forward>,
                    nowNs: int): Result<Evidence> {
    var msat := r.plan.amountSat * 1000;
    var fee := Or(payment.feeMsat, -1);
    var successful := SuccessfulAttempts(payment.htlcs);
    var matches := MatchingEvents(r, fee, nowNs, events);
    if payment.hash != r.hash || !payment.state.Succeeded? then Raised
    else if Or(payment.valueMsat, -1) != msat then Raised
    else if !invoice.settled || Or(invoice.paidMsat, -1) != msat then Raised
    else if !(0 <= fee <= r.plan.feeLimitSat * 1000) then Raised
    else if |successful| != 1 then Raised
    else if !(r.startedNs <= successful[0].attemptNs <= successful[0].resolveNs <= nowNs) then Raised
    else if !RoutedThrough(r, successful[0], fee) then Raised
    else if |matches| != 1 || matches[0].ns.None? then Raised
    else Ok(Evidence(r, fee, matches[0].ns.value, nowNs))
  }

  /** Channel i is the only active public one with this id and peer. */
  ghost predicate OnlyLeg(channels: seq<Channel>, id: string, peer: string, i: int) {
    && 0 <= i < |channels| && IsLeg(channels[i], id, peer)
    && forall k :: 0 <= k < |channels| && k != i ==> !IsLeg(channels[k], id, peer)
  }

  ghost predicate IsLeg(c: Channel, id: string, peer: string) {
    c.id == id && c.peer == peer && c.active && !c.isPrivate
  }

  /** What a plan needs: three usable wallets, all different, small bounds, and one channel on each side. */
  ghost predicate Plannable(router: Info, payer: Info, receiver: Info, channels: seq<Channel>, incoming: string,
                            outgoing: string, amountSat: int, feeSat: int, i: int, j: int)
  {
    && router.usable && payer.usable && receiver.usable
    && router.identity != payer.identity && router.identity != receiver.identity && payer.identity != receiver.identity
    && 1 <= amountSat <= 100 && 0 <= feeSat <= 100
    && OnlyLeg(channels, incoming, payer.identity, i) && OnlyLeg(channels, outgoing, receiver.identity, j)
    && incoming != outgoing
  }

  lemma LegIsOnly(channels: seq<Channel>, id: string, peer: string)
    ensures |LegMatches(channels, id, peer)| == 1 <==> exists i :: OnlyLeg(channels, id, peer, i)
    ensures forall i :: OnlyLeg(channels, id, peer, i) ==> LegMatches(channels, id, peer) == [channels[i]]
  {
    var p := (c: Channel) => c.id == id && c.peer == peer && c.active && !c.isPrivate;
    if |LegMatches(channels, id, peer)| == 1 {
      var k := SelectSingle(channels, p);
      assert OnlyLeg(channels, id, peer, k);
    }
    forall i | OnlyLeg(channels, id, peer, i) ensures LegMatches(channels, id, peer) == [channels[i]] {
      SelectOnly(channels, p, i);
    }
  }

  /** Exactly which plans are made, and what they say. */
  lemma PlanIsExact(router: Info, payer: Info, receiver: Info, channels: seq<Channel>, incoming: string,
                    outgoing: string, amountSat: int, feeSat: int)
    ensures
      var made := MakePlan(router, payer, receiver, channels, incoming, outgoing, amountSat, feeSat);
      && (made.Ok? <==> exists i, j ::
            Plannable(router, payer, receiver, channels, incoming, outgoing, amountSat, feeSat, i, j))
      && (forall i, j ::
            Plannable(router, payer, receiver, channels, incoming, outgoing, amountSat, feeSat, i, j) ==>
            made == Ok(Plan(router.identity, payer.identity, receiver.identity,
                            Leg(incoming, channels[i].point, payer.identity),
                            Leg(outgoing, channels[j].point, receiver.identity), amountSat, feeSat)))
  {
    LegIsOnly(channels, incoming, payer.identity);
    LegIsOnly(channels, outgoing, receiver.identity);
    var made := MakePlan(router, payer, receiver, channels, incoming, outgoing, amountSat, feeSat);
    if made.Ok? {
      var i, j :| OnlyLeg(channels, incoming, payer.identity, i) && OnlyLeg(channels, outgoing, receiver.identity, j);
      assert Plannable(router, payer, receiver, channels, incoming, outgoing, amountSat, feeSat, i, j);
    }
  }

  /** A local forward between the plan's channels of the amount, with this fee, inside the run's time. */
  ghost predicate IsForward(r: Request, fee: int, nowNs: int, e: Forward) {
    && e.chanIn == r.plan.incoming.id && e.chanOut == r.plan.outgoing.id
    && Or(e.inMsat, -1) == 1000 * r.plan.amountSat + fee && Or(e.outMsat, -1) == 1000 * r.plan.amountSat
    && Or(e.feeMsat, -1) == fee
    && r.startedNs <= Or(e.ns, 0) && Or(e.ns, 0) <= nowNs
  }

  /** The route of one attempt: this node on the incoming channel, told to pass on the amount and keep the fee,
      then the receiver on the outgoing channel. */
  ghost predicate PassesRouter(r: Request, hops: seq<Hop>, fee: int) {
    var msat := 1000 * r.plan.amountSat;
    hops == [Hop(r.plan.identity, r.plan.incoming.id, Some(msat), Some(fee)),
             Hop(r.plan.receiver, r.plan.outgoing.id, Some(msat), Some(0))]
  }

  /** The payment succeeded by attempt k alone and forward j alone, for what was approved. */
  ghost predicate ProvedBy(r: Request, payment: Payment, invoice: Invoice, events: seq<Forward>, nowNs: int, k: int,
                           j: int)
  {
    var msat := 1000 * r.plan.amountSat;
    && payment.hash == r.hash && payment.state == Succeeded && Or(payment.valueMsat, -1) == msat
    && invoice.settled && Or(invoice.paidMsat, -1) == msat
    && payment.feeMsat.Some? && 0 <= payment.feeMsat.value && payment.feeMsat.value <= 1000 * r.plan.feeLimitSat
    && 0 <= k < |payment.htlcs| && payment.htlcs[k].succeeded
    && (forall i :: 0 <= i < |payment.htlcs| && i != k ==> !payment.htlcs[i].succeeded)
    && r.startedNs <= payment.htlcs[k].attemptNs && payment.htlcs[k].attemptNs <= payment.htlcs[k].resolveNs
    && payment.htlcs[k].resolveNs <= nowNs
    && PassesRouter(r, payment.htlcs[k].hops, payment.feeMsat.value)
    && 0 <= j < |events| && IsForward(r, payment.feeMsat.value, nowNs, events[j]) && events[j].ns.Some?
    && (forall i :: 0 <= i < |events| && i != j ==> !IsForward(r, payment.feeMsat.value, nowNs, events[i]))
  }

  lemma ValidatedIsProved(r: Request, payment: Payment, invoice: Invoice, events: seq<Forward>, nowNs: int)
    returns (k: nat, j: nat)
    requires Validate(r, payment, invoice, events, nowNs).Ok?
    ensures ProvedBy(r, payment, invoice, events, nowNs, k, j)
  {
    var fee := payment.feeMsat.value;
    k := SelectSingle(payment.htlcs, (a: Attempt) => a.succeeded);
    j := SelectSingle(events, (e: Forward) => EventMatches(r, fee, nowNs, e));
    assert PassesRouter(r, payment.htlcs[k].hops, fee);
  }

  lemma ProvedIsValidated(r: Request, payment: Payment, invoice: Invoice, events: seq<Forward>, nowNs: int, k: nat,
                          j: nat)
    requires ProvedBy(r, payment, invoice, events, nowNs, k, j)
    ensures Validate(r, payment, invoice, events, nowNs)
            == Ok(Evidence(r, payment.feeMsat.value, events[j].ns.value, nowNs))
  {
    var fee := payment.feeMsat.value;
    SelectOnly(payment.htlcs, (a: Attempt) => a.succeeded, k);
    SelectOnly(events, (e: Forward) => EventMatches(r, fee, nowNs, e), j);
  }

  /** Evidence is complete exactly when payment, invoice, the one attempt that succeeded, its two hops and the one
      local forward all say what was approved. */
  lemma ValidateIsExact(r: Request, payment: Payment, invoice: Invoice, events: seq<Forward>, nowNs: int)
    ensures Validate(r, payment, invoice, events, nowNs).Ok? <==>
            exists k, j :: ProvedBy(r, payment, invoice, events, nowNs, k, j)
    ensures forall k, j :: ProvedBy(r, payment, invoice, events, nowNs, k, j) ==>
              Validate(r, payment, invoice, events, nowNs)
              == Ok(Evidence(r, payment.feeMsat.value, events[j].ns.value, nowNs))
  {
    if Validate(r, payment, invoice, events, nowNs).Ok? {
      var k, j := ValidatedIsProved(r, payment, invoice, events, nowNs);
    }
    forall k, j | ProvedBy(r, payment, invoice, events, nowNs, k, j)
      ensures Validate(r, payment, invoice, events, nowNs)
              == Ok(Evidence(r, payment.feeMsat.value, events[j].ns.value, nowNs))
    {
      ProvedIsValidated(r, payment, invoice, events, nowNs, k, j);
    }
  }

  /** Complete evidence adds up across the three nodes: exactly one local forward, inside the run's time,
      took in what the payer sent and passed on what the receiver was paid, and what it kept is the fee the
      payer reports, within the approved limit. */
  lemma ValidatedMoneyAddsUp(r: Request, payment: Payment, invoice: Invoice, events: seq<Forward>, nowNs: int)
    requires r.plan.amountSat >= 1 && Validate(r, payment, invoice, events, nowNs).Ok?
    ensures
      var e := Validate(r, payment, invoice, events, nowNs).value;
      && payment.hash == r.hash && payment.feeMsat == Some(e.feeMsat) && 0 <= e.feeMsat <= r.plan.feeLimitSat * 1000
      && payment.valueMsat.Some? && payment.valueMsat == invoice.paidMsat
      && exists f :: f in events && f.ns == Some(e.forwardedNs) && r.startedNs <= e.forwardedNs <= nowNs
           && f.chanIn == r.plan.incoming.id && f.chanOut == r.plan.outgoing.id
           && f.outMsat == invoice.paidMsat && f.inMsat == Some(payment.valueMsat.value + e.feeMsat)
           && f.feeMsat == Some(e.feeMsat)
           && forall g :: g in events && IsForward(r, e.feeMsat, nowNs, g) ==> g == f
  {
    var k, j := ValidatedIsProved(r, payment, invoice, events, nowNs);
    ProvedIsValidated(r, payment, invoice, events, nowNs, k, j);
    assert events[j] in events;
  }

  /** A channel row of the status report. */
  datatype Row = Row(id: string, point: string, peer: string, isPrivate: bool)

  predicate LegCurrent(leg: Leg, rows: seq<Row>) {
    Row(leg.id, leg.point, leg.peer, false) in rows
  }

  predicate CurrentEvidence(e: Evidence, identity: string, rows: seq<Row>) {
    && e.request.plan.identity == identity
    && LegCurrent(e.request.plan.incoming, rows) && LegCurrent(e.request.plan.outgoing, rows)
  }

  // ----- the forwarding history -----

  /** Later rows win, as in the source's dict comprehension. */
  function PublicRows(rows: seq<Row>): map<string, Row> {
    if rows == [] then map[]
    else
      var r := rows[|rows| - 1];
      var before := PublicRows(rows[..|rows| - 1]);
      if !r.isPrivate && r.id != "" then before[r.id := r] else before
  }

  function WindowStart(nowNs: nat): nat {
    var s := nowNs / SECOND - WINDOW;
    if s < 0 then 0 else s
  }

  /** An event the history keeps: complete, inside the window, and conserving value. */
  predicate Accepted(e: Forward, nowNs: nat) {
    && e.ns.Some? && e.inMsat.Some? && e.outMsat.Some? && e.feeMsat.Some?
    && WindowStart(nowNs) * SECOND <= e.ns.value <= nowNs
    && e.outMsat.value > 0 && e.feeMsat.value >= 0 && e.inMsat.value == e.outMsat.value + e.feeMsat.value
  }

  /** An accepted event between two public channels of two different peers. */
  predicate Observed(e: Forward, nowNs: nat, public: map<string, Row>) {
    && Accepted(e, nowNs) && e.chanIn in public && e.chanOut in public
    && public[e.chanIn].id != public[e.chanOut].id && public[e.chanIn].peer != public[e.chanOut].peer
  }

  function History(events: seq<Forward>, nowNs: nat): seq<Forward> {
    Select(events, (e: Forward) => Accepted(e, nowNs))
  }

  function Matched(events: seq<Forward>, nowNs: nat, rows: seq<Row>): seq<Forward> {
    var public := PublicRows(rows);
    Select(events, (e: Forward) => Observed(e, nowNs, public))
  }

  function Stamp(e: Forward): int {
    Or(e.ns, 0)
  }

  function Total(events: seq<Forward>, of: Forward -> int): int {
    if events == [] then 0 else Total(events[..|events| - 1], of) + of(events[|events| - 1])
  }

  function Fee(e: Forward): int { Or(e.feeMsat, 0) }
  function In(e: Forward): int { Or(e.inMsat, 0) }
  function Out(e: Forward): int { Or(e.outMsat, 0) }

  function Newest(events: seq<Forward>): Option<int> {
    if events == [] then None
    else
      var s := Stamp(events[|events| - 1]);
      var before := Newest(events[..|events| - 1]);
      if before.Some? && before.value >= s then before else Some(s)
  }

  datatype Observation = Observation(recent: seq<Forward>, historyCount: nat, historyFee: int, observedCount: nat,
                                     observedAt: Option<int>, observedFee: int, windowStart: nat, capped: bool)

  /** The source's loop, its sort, and its summary. */
  method Observe(events: seq<Forward>, rows: seq<Row>, nowNs: nat) returns (o: Observation)
    ensures
      var history, matched := History(events, nowNs), Matched(events, nowNs, rows);
      && o.historyCount == |history| && o.historyFee == Total(history, Fee)
      && o.observedCount == |matched| && o.observedFee == Total(matched, Fee) && o.observedAt == Newest(matched)
      && o.recent == (var s := SortDescending(history, Stamp); if |s| > 5 then s[..5] else s)
      && o.windowStart == WindowStart(nowNs) && o.capped == (|events| >= 50000)
  {
    var public := PublicRows(rows);
    ghost var acceptedP := (e: Forward) => Accepted(e, nowNs);
    ghost var observedP := (e: Forward) => Observed(e, nowNs, public);
    var recent: seq<Forward>, matched: seq<Forward>, historyFee, observedFee, newest := [], [], 0, 0, None;
    for i := 0 to |events|
      invariant recent == Select(events[..i], acceptedP) && historyFee == Total(recent, Fee)
      invariant matched == Select(events[..i], observedP) && observedFee == Total(matched, Fee)
                && newest == Newest(matched)
    {
      var e := events[i];
      assert events[..i + 1][..i] == events[..i];
      if Accepted(e, nowNs) {
        assert (recent + [e])[..|recent|] == recent;
        recent, historyFee := recent + [e], historyFee + e.feeMsat.value;
        if Observed(e, nowNs, public) {
          assert (matched + [e])[..|matched|] == matched;
          matched, observedFee := matched + [e], observedFee + e.feeMsat.value;
          newest := if newest.Some? && newest.value >= e.ns.value then newest else Some(e.ns.value);
        }
      }
    }
    assert events[..|events|] == events;
    var sorted := SortDescending(recent, Stamp);
    o := Observation(if |sorted| > 5 then sorted[..5] else sorted, |recent|, historyFee, |matched|, newest, observedFee,
                     WindowStart(nowNs), |events| >= 50000);
  }

  // ----- what is counted -----

  /** A complete event of the last day in which nothing was created or lost. */
  ghost predicate InHistory(e: Forward, nowNs: nat) {
    && e.ns.Some? && e.inMsat.Some? && e.outMsat.Some? && e.feeMsat.Some?
    && nowNs / 1_000_000_000 - 86400 <= e.ns.value / 1_000_000_000 && 0 <= e.ns.value && e.ns.value <= nowNs
    && e.outMsat.value > 0 && e.feeMsat.value >= 0 && e.inMsat.value - e.feeMsat.value == e.outMsat.value
  }

  ghost predicate Names(r: Row, id: string) {
    r.id == id && id != "" && !r.isPrivate
  }

  /** The last public row of this id. */
  ghost predicate LastRow(rows: seq<Row>, id: string, k: int) {
    0 <= k < |rows| && Names(rows[k], id) && forall m :: k < m < |rows| ==> !Names(rows[m], id)
  }

  /** Both channels are public, different, and lead to different peers. */
  ghost predicate BetweenPeers(e: Forward, rows: seq<Row>) {
    exists a, b :: LastRow(rows, e.chanIn, a) && LastRow(rows, e.chanOut, b)
      && e.chanIn != e.chanOut && rows[a].peer != rows[b].peer
  }

  lemma {:induction false} PublicRowIsLast(rows: seq<Row>, id: string)
    ensures id in PublicRows(rows) <==> exists k :: LastRow(rows, id, k)
    ensures forall k :: LastRow(rows, id, k) ==> id in PublicRows(rows) && PublicRows(rows)[id] == rows[k]
  {
    if rows != [] {
      var n := |rows| - 1;
      PublicRowIsLast(rows[..n], id);
      assert forall m :: 0 <= m < n ==> rows[..n][m] == rows[m];
      if Names(rows[n], id) {
        assert LastRow(rows, id, n);
      } else {
        assert forall k :: LastRow(rows, id, k) <==> LastRow(rows[..n], id, k);
      }
    }
  }

  lemma AcceptedIsExact(e: Forward, nowNs: nat, rows: seq<Row>)
    ensures Accepted(e, nowNs) <==> InHistory(e, nowNs)
    ensures Observed(e, nowNs, PublicRows(rows)) <==> InHistory(e, nowNs) && BetweenPeers(e, rows)
  {
    PublicRowIsLast(rows, e.chanIn);
    PublicRowIsLast(rows, e.chanOut);
  }

  /** The history holds every such event with its multiplicity and nothing else, and what is attributed to the
      node's public channels is exactly the part of it between two peers. */
  lemma HistoryIsExact(events: seq<Forward>, nowNs: nat, rows: seq<Row>, e: Forward)
    ensures multiset(History(events, nowNs))[e] == if InHistory(e, nowNs) then multiset(events)[e] else 0
    ensures multiset(Matched(events, nowNs, rows))[e] ==
            if InHistory(e, nowNs) && BetweenPeers(e, rows) then multiset(events)[e] else 0
  {
    var public := PublicRows(rows);
    SelectCounts(events, (e: Forward) => Accepted(e, nowNs));
    SelectCounts(events, (e: Forward) => Observed(e, nowNs, public));
    AcceptedIsExact(e, nowNs, rows);
  }

  /** Totals are sums. */
  lemma {:induction false} TotalsAdd(a: seq<Forward>, b: seq<Forward>, of: Forward -> int)
    ensures Total(a + b, of) == Total(a, of) + Total(b, of)
    ensures |a| == 1 ==> Total(a, of) == of(a[0])
  {
    if b == [] {
      assert a + b == a;
    } else {
      assert (a + b)[..|a + b| - 1] == a + b[..|b| - 1];
      TotalsAdd(a, b[..|b| - 1], of);
    }
  }

  /** The time reported is that of the latest event. */
  lemma {:induction false} NewestIsLatest(events: seq<Forward>)
    ensures Newest(events).None? <==> events == []
    ensures events != [] ==>
              && (exists e :: e in events && Or(e.ns, 0) == Newest(events).value)
              && (forall e :: e in events ==> Or(e.ns, 0) <= Newest(events).value)
  {
    if events != [] {
      var n := |events| - 1;
      NewestIsLatest(events[..n]);
      assert events == events[..n] + [events[n]];
    }
  }

  /** Evidence is current exactly while this wallet still shows both public channels as they were planned. */
  lemma CurrentIsExact(e: Evidence, identity: string, rows: seq<Row>)
    ensures CurrentEvidence(e, identity, rows) <==>
              && identity == e.request.plan.identity
              && (exists i {:trigger rows[i]} :: 0 <= i < |rows| && Shows(rows[i], e.request.plan.incoming))
              && (exists i {:trigger rows[i]} :: 0 <= i < |rows| && Shows(rows[i], e.request.plan.outgoing))
  {
    var a, b := e.request.plan.incoming, e.request.plan.outgoing;
    assert forall r, leg :: Shows(r, leg) <==> r == Row(leg.id, leg.point, leg.peer, false);
  }

  ghost predicate Shows(r: Row, leg: Leg) {
    r.id == leg.id && r.point == leg.point && r.peer == leg.peer && !r.isPrivate
  }

  // ----- what the counts mean -----

  lemma {:induction false} Conserved(events: seq<Forward>)
    requires forall e :: e in events ==> In(e) == Out(e) + Fee(e)
    ensures Total(events, In) == Total(events, Out) + Total(events, Fee)
  {
    if events != [] {
      assert events[|events| - 1] in events;
      Conserved(events[..|events| - 1]);
    }
  }

  /** Over every history the node's total inflow is its total outflow plus its total fees. */
  lemma HistoryConservesValue(events: seq<Forward>, nowNs: nat)
    ensures Total(History(events, nowNs), In) == Total(History(events, nowNs), Out) + Total(History(events, nowNs), Fee)
  {
    Conserved(History(events, nowNs));
  }

  lemma {:induction false} StricterKeepsLess(events: seq<Forward>, p: Forward -> bool, q: Forward -> bool)
    requires forall e :: p(e) ==> q(e)
    requires forall e :: q(e) ==> Fee(e) >= 0
    ensures |Select(events, p)| <= |Select(events, q)|
    ensures 0 <= Total(Select(events, p), Fee) <= Total(Select(events, q), Fee)
  {
    if events != [] {
      var last, before := events[|events| - 1], events[..|events| - 1];
      StricterKeepsLess(before, p, q);
      KeepTotals(before, last, p);
      KeepTotals(before, last, q);
      assert before + [last] == events;
      assert p(last) ==> q(last);
      assert q(last) ==> Fee(last) >= 0;
    }
  }

  lemma KeepTotals(events: seq<Forward>, e: Forward, p: Forward -> bool)
    ensures |Select(events + [e], p)| == |Select(events, p)| + if p(e) then 1 else 0
    ensures Total(Select(events + [e], p), Fee) == Total(Select(events, p), Fee) + if p(e) then Fee(e) else 0
  {
    assert (events + [e])[..|events|] == events;
    assert Select(events + [e], p) == if p(e) then Select(events, p) + [e] else Select(events, p);
  }

  /** What is attributed to public two-peer forwards never exceeds the whole history. */
  lemma ObservedWithinHistory(events: seq<Forward>, nowNs: nat, rows: seq<Row>)
    ensures |Matched(events, nowNs, rows)| <= |History(events, nowNs)|
    ensures 0 <= Total(Matched(events, nowNs, rows), Fee) <= Total(History(events, nowNs), Fee)
  {
    var public := PublicRows(rows);
    StricterKeepsLess(events, (e: Forward) => Observed(e, nowNs, public), (e: Forward) => Accepted(e, nowNs));
  }

  ghost predicate UniqueIds(rows: seq<Row>) {
    forall i, j :: 0 <= i < j < |rows| ==> rows[i].id != rows[j].id
  }

  lemma {:induction false} PublicRowFound(rows: seq<Row>, r: Row)
    requires UniqueIds(rows) && r in rows && !r.isPrivate
    ensures r.id != "" ==> r.id in PublicRows(rows) && PublicRows(rows)[r.id] == r
  {
    var n := |rows| - 1;
    if rows[n] != r {
      assert r in rows[..n];
      PublicRowFound(rows[..n], r);
      var i :| 0 <= i < n && rows[i] == r;
    }
  }

  lemma {:induction false} PublicIdsAreNotEmpty(rows: seq<Row>)
    ensures "" !in PublicRows(rows)
  {
    if rows != [] {
      PublicIdsAreNotEmpty(rows[..|rows| - 1]);
    }
  }

  /** Evidence made from an approved plan and still current is seen by the independent count: if the forward
      that proved it is in the queried history and window, it is counted exactly when both channels of the
      plan have an id. */
  lemma ProofImpliesObservation(router: Info, payer: Info, receiver: Info, channels: seq<Channel>, incoming: string,
                                outgoing: string, amountSat: int, feeSat: int, request: Request, payment: Payment,
                                invoice: Invoice, events: seq<Forward>, provedNs: int, k: nat, j: nat, rows: seq<Row>,
                                seen: seq<Forward>, nowNs: nat)
    requires MakePlan(router, payer, receiver, channels, incoming, outgoing, amountSat, feeSat) == Ok(request.plan)
    requires ProvedBy(request, payment, invoice, events, provedNs, k, j)
    requires CurrentEvidence(Evidence(request, payment.feeMsat.value, events[j].ns.value, provedNs), router.identity,
                             rows)
    requires UniqueIds(rows)
    requires events[j] in seen && WindowStart(nowNs) * SECOND <= Stamp(events[j]) <= nowNs
    ensures InHistory(events[j], nowNs)
    ensures events[j] in Matched(seen, nowNs, rows) <==> incoming != "" && outgoing != ""
  {
    ProvedIsValidated(request, payment, invoice, events, provedNs, k, j);
    var plan, e := request.plan, events[j];
    PublicRowFound(rows, Row(plan.incoming.id, plan.incoming.point, plan.incoming.peer, false));
    PublicRowFound(rows, Row(plan.outgoing.id, plan.outgoing.point, plan.outgoing.peer, false));
    PublicIdsAreNotEmpty(rows);
    assert Observed(e, nowNs, PublicRows(rows)) <==> incoming != "" && outgoing != "";
  }

  /** The report's recent list is the newest part of the history: nothing left out is newer. */
  lemma RecentAreNewest(events: seq<Forward>, nowNs: nat, k: nat)
    requires k <= |SortDescending(History(events, nowNs), Stamp)|
    ensures
      var sorted := SortDescending(History(events, nowNs), Stamp);
      && multiset(sorted[..k]) + multiset(sorted[k..]) == multiset(History(events, nowNs))
      && forall x, y :: x in sorted[..k] && y in sorted[k..] ==> Stamp(x) >= Stamp(y)
  {
    var sorted := SortDescending(History(events, nowNs), Stamp);
    SortIsDescendingPermutation(History(events, nowNs), Stamp);
    assert sorted == sorted[..k] + sorted[k..];
  }
}
