/** Routing readiness (ops/router_model.py): conservative capacities, policies and the search for
    a usable pair of channels. Amounts are millisatoshi unless named otherwise. */
module Routing {
  import opened Arithmetic
  import opened Selections
  import opened Wrappers

  datatype Constraints = Constraints(reserve: Option<int>, maxHtlcs: Option<int>, maxPending: Option<int>)
  datatype Htlc = Htlc(incoming: bool, amount: int)

  /** `localReserve` and `remoteReserve` are the older fields used when a constraint is absent. */
  datatype Channel = Channel(id: string, peer: string, active: bool, isPrivate: bool, initiator: bool, capacity: int,
                             localBalance: int, remoteBalance: int, commitFee: int, localReserve: int,
                             remoteReserve: int, localLimits: Constraints, remoteLimits: Constraints,
                             htlcs: seq<Htlc>)

  // ----- capacity -----

  function Pending(hs: seq<Htlc>, incoming: bool): seq<Htlc> {
    if hs == [] then []
    else Pending(hs[..|hs| - 1], incoming) + if hs[|hs| - 1].incoming == incoming then [hs[|hs| - 1]] else []
  }

  function PendingMsat(hs: seq<Htlc>): int {
    if hs == [] then 0 else PendingMsat(hs[..|hs| - 1]) + hs[|hs| - 1].amount * 1000
  }

  function Limits(c: Channel, incoming: bool): Constraints {
    if incoming then c.remoteLimits else c.localLimits
  }

  function Reserve(c: Channel, incoming: bool): int {
    Or(Limits(c, incoming).reserve, if incoming then c.remoteReserve else c.localReserve)
  }

  function Balance(c: Channel, incoming: bool): int {
    if incoming then c.remoteBalance else c.localBalance
  }

  /** The funding side keeps the commitment fee back. */
  function FeeCushion(c: Channel, incoming: bool): int {
    if c.initiator != incoming then c.commitFee else 0
  }

  function InFlightLimit(c: Channel, incoming: bool): int {
    Or(Limits(c, incoming).maxPending, c.capacity * 1000)
  }

  function DirectionalCapacity(c: Channel, incoming: bool): int {
    var pending := Pending(c.htlcs, incoming);
    if |pending| >= Or(Limits(c, incoming).maxHtlcs, 483) then 0
    else
      var available := Max(0, (Balance(c, incoming) - Reserve(c, incoming) - FeeCushion(c, incoming)) * 1000);
      Max(0, Min(available, InFlightLimit(c, incoming) - PendingMsat(pending)))
  }

  /** How many HTLCs this direction has under way, and what they hold in millisatoshi. */
  ghost function Slots(hs: seq<Htlc>, incoming: bool): nat {
    |set i | 0 <= i < |hs| && hs[i].incoming == incoming|
  }

  ghost function Held(hs: seq<Htlc>, incoming: bool): int {
    if hs == [] then 0
    else
      var h := hs[|hs| - 1];
      Held(hs[..|hs| - 1], incoming) + if h.incoming == incoming then 1000 * h.amount else 0
  }

  lemma SlotsGrow(hs: seq<Htlc>, h: Htlc, incoming: bool)
    ensures Slots(hs + [h], incoming) == Slots(hs, incoming) + if h.incoming == incoming then 1 else 0
  {
    var n, before := |hs|, set i | 0 <= i < |hs| && hs[i].incoming == incoming;
    var all := set i | 0 <= i < |hs + [h]| && (hs + [h])[i].incoming == incoming;
    assert all == before + if h.incoming == incoming then {n} else {};
  }

  lemma {:induction false} PendingIsDirection(hs: seq<Htlc>, incoming: bool)
    ensures |Pending(hs, incoming)| == Slots(hs, incoming)
    ensures PendingMsat(Pending(hs, incoming)) == Held(hs, incoming)
  {
    if hs != [] {
      var n := |hs| - 1;
      var before := hs[..n];
      PendingIsDirection(before, incoming);
      SlotsGrow(before, hs[n], incoming);
      assert before + [hs[n]] == hs;
      if hs[n].incoming == incoming {
        assert (Pending(before, incoming) + [hs[n]])[..|Pending(before, incoming)|] == Pending(before, incoming);
      } else {
        assert Pending(hs, incoming) == Pending(before, incoming);
      }
    }
  }

  /** BOLT #2's conditions for this node to add an outgoing HTLC: a free slot of its own limit, a balance
      that keeps its reserve and, on the funding side, the commitment fee, and room under its limit. */
  ghost predicate MaySend(c: Channel, msat: int) {
    && Slots(c.htlcs, false) + 1 <= Or(c.localLimits.maxHtlcs, 483)
    && c.localBalance * 1000
       >= msat + 1000 * (Or(c.localLimits.reserve, c.localReserve) + if c.initiator then c.commitFee else 0)
    && Held(c.htlcs, false) + msat <= Or(c.localLimits.maxPending, c.capacity * 1000)
  }

  /** The same for the peer to add an incoming one, by the peer's balance and limits. */
  ghost predicate MayReceive(c: Channel, msat: int) {
    && Slots(c.htlcs, true) + 1 <= Or(c.remoteLimits.maxHtlcs, 483)
    && c.remoteBalance * 1000
       >= msat + 1000 * (Or(c.remoteLimits.reserve, c.remoteReserve) + if c.initiator then 0 else c.commitFee)
    && Held(c.htlcs, true) + msat <= Or(c.remoteLimits.maxPending, c.capacity * 1000)
  }

  /** Both capacities are exact: each admits precisely the positive amounts that could be added now. */
  lemma CapacityIsExact(c: Channel, msat: int)
    requires msat > 0
    ensures msat <= DirectionalCapacity(c, false) <==> MaySend(c, msat)
    ensures msat <= DirectionalCapacity(c, true) <==> MayReceive(c, msat)
    ensures DirectionalCapacity(c, false) >= 0 && DirectionalCapacity(c, true) >= 0
  {
    PendingIsDirection(c.htlcs, false);
    PendingIsDirection(c.htlcs, true);
  }

  // ----- policies -----

  datatype Policy = Policy(baseMsat: Option<int>, ratePpm: Option<int>, minHtlc: Option<int>, maxHtlc: Option<int>,
                           disabled: bool)
  datatype Target = Target(baseMsat: nat, ratePpm: nat, minHtlc: nat)
  datatype Pair = Pair(own: Option<Policy>, remote: Option<Policy>)

  function PolicyMaximum(c: Channel): int {
    var capacity := Max(0, c.capacity) * 1000;
    Max(0, Min(capacity, Or(c.localLimits.maxPending, capacity)))
  }

  predicate PolicyMatches(p: Option<Policy>, c: Channel, t: Target) {
    && p.Some? && !p.value.disabled
    && Or(p.value.baseMsat, -1) == t.baseMsat && Or(p.value.ratePpm, -1) == t.ratePpm
    && Or(p.value.minHtlc, -1) == t.minHtlc && Or(p.value.maxHtlc, 0) == PolicyMaximum(c)
  }

  predicate PolicyAllows(p: Option<Policy>, msat: int) {
    p.Some? && !p.value.disabled && Or(p.value.minHtlc, 0) <= msat <= Or(p.value.maxHtlc, 0)
  }

  function Own(policies: map<string, Pair>, c: Channel): Option<Policy> {
    if c.id in policies then policies[c.id].own else None
  }

  function Remote(policies: map<string, Pair>, c: Channel): Option<Policy> {
    if c.id in policies then policies[c.id].remote else None
  }

  /** BOLT #7's fee, rounded up. */
  function FeeMsat(base: int, rate: int, msat: int): int {
    base + (msat * rate + 999999) / 1000000
  }

  /** The fee is the base plus the least whole number not below the exact proportional part. */
  lemma FeeIsCeiling(base: int, rate: nat, msat: nat)
    ensures
      var part := FeeMsat(base, rate, msat) - base;
      (part - 1) * 1000000 < msat * rate <= part * 1000000
  {
  }

  // ----- the pair search -----

  datatype Blocker =
    | FeeLimit | OutboundLiquidity | OutboundPolicy | RemotePolicyUnknown | InboundLiquidity | InboundPolicy
  datatype Route = Route(incoming: string, outgoing: string, feeMsat: int)

  /** What one assessment tries to forward. */
  datatype Trial = Trial(policies: map<string, Pair>, target: Target, testSat: int, feeLimitSat: int)

  function OutMsat(t: Trial): int { t.testSat * 1000 }

  /** The fee this node's own published policy asks on an outgoing channel. */
  function Fee(t: Trial, o: Channel): int {
    var own := Own(t.policies, o);
    if own.None? then 0 else FeeMsat(Or(own.value.baseMsat, 0), Or(own.value.ratePpm, 0), OutMsat(t))
  }

  /** The first reason an outgoing channel cannot serve. */
  function OutBlocker(t: Trial, o: Channel): Option<Blocker> {
    if Fee(t, o) > t.feeLimitSat * 1000 then Some(FeeLimit)
    else if DirectionalCapacity(o, false) < OutMsat(t) then Some(OutboundLiquidity)
    else if !PolicyAllows(Own(t.policies, o), OutMsat(t)) then Some(OutboundPolicy)
    else None
  }

  /** The first reason an incoming channel cannot feed it. */
  function InBlocker(t: Trial, i: Channel, o: Channel): Option<Blocker> {
    var remote := Remote(t.policies, i);
    if remote.None? then Some(RemotePolicyUnknown)
    else if DirectionalCapacity(i, true) < OutMsat(t) + Fee(t, o) then Some(InboundLiquidity)
    else if !PolicyAllows(remote, OutMsat(t) + Fee(t, o)) then Some(InboundPolicy)
    else None
  }

  /** The policy is known, enabled, and its range holds the amount. */
  ghost predicate Admits(p: Option<Policy>, msat: int) {
    && p.Some? && !p.value.disabled
    && Or(p.value.minHtlc, 0) <= msat && msat <= Or(p.value.maxHtlc, 0)
  }

  ghost function PolicyOf(t: Trial, c: Channel, mine: bool): Option<Policy> {
    if c.id !in t.policies then None else if mine then t.policies[c.id].own else t.policies[c.id].remote
  }

  /** This amount is the target's base and rate applied to the test amount, rounded up. */
  ghost predicate IsTargetFee(t: Trial, fee: int) {
    var part := fee - t.target.baseMsat;
    (part - 1) * 1000000 < t.testSat * 1000 * t.target.ratePpm <= part * 1000000
  }

  /** The pair can forward the test amount for this fee: two peers, an affordable fee, and an outgoing HTLC
      of the amount and an incoming one of amount plus fee that channel and policy both admit. */
  ghost predicate Feasible(t: Trial, i: Channel, o: Channel, fee: int) {
    && i.peer != o.peer
    && IsTargetFee(t, fee) && fee <= t.feeLimitSat * 1000
    && MaySend(o, t.testSat * 1000) && Admits(PolicyOf(t, o, true), t.testSat * 1000)
    && MayReceive(i, t.testSat * 1000 + fee) && Admits(PolicyOf(t, i, false), t.testSat * 1000 + fee)
  }

  lemma FeeIsTarget(t: Trial, o: Channel)
    requires t.testSat > 0 && PolicyMatches(Own(t.policies, o), o, t.target)
    ensures IsTargetFee(t, Fee(t, o)) && Fee(t, o) >= 0
    ensures forall fee :: IsTargetFee(t, fee) ==> fee == Fee(t, o)
  {
    FeeIsCeiling(t.target.baseMsat, t.target.ratePpm, OutMsat(t));
    assert OutMsat(t) * t.target.ratePpm >= 0;
  }

  /** What stops an outgoing channel first, in terms of its own fields. */
  ghost function FirstOut(t: Trial, o: Channel, fee: int): Option<Blocker> {
    if fee > t.feeLimitSat * 1000 then Some(FeeLimit)
    else if !MaySend(o, t.testSat * 1000) then Some(OutboundLiquidity)
    else if !Admits(PolicyOf(t, o, true), t.testSat * 1000) then Some(OutboundPolicy)
    else None
  }

  /** What stops an incoming channel first. */
  ghost function FirstIn(t: Trial, i: Channel, fee: int): Option<Blocker> {
    if PolicyOf(t, i, false).None? then Some(RemotePolicyUnknown)
    else if !MayReceive(i, t.testSat * 1000 + fee) then Some(InboundLiquidity)
    else if !Admits(PolicyOf(t, i, false), t.testSat * 1000 + fee) then Some(InboundPolicy)
    else None
  }

  /** The search's blockers are these. */
  lemma BlockersAreExact(t: Trial, i: Channel, o: Channel, fee: int)
    requires t.testSat > 0 && PolicyMatches(Own(t.policies, o), o, t.target) && IsTargetFee(t, fee)
    ensures OutBlocker(t, o) == FirstOut(t, o, fee)
    ensures InBlocker(t, i, o) == FirstIn(t, i, fee)
  {
    FeeIsTarget(t, o);
    CapacityIsExact(o, t.testSat * 1000);
    CapacityIsExact(i, t.testSat * 1000 + fee);
  }

  lemma FeasibleIffUnblocked(t: Trial, i: Channel, o: Channel, fee: int)
    requires t.testSat > 0 && PolicyMatches(Own(t.policies, o), o, t.target)
    ensures Feasible(t, i, o, fee) <==>
              && OutBlocker(t, o).None? && i.peer != o.peer && InBlocker(t, i, o).None? && fee == Fee(t, o)
  {
    FeeIsTarget(t, o);
    BlockersAreExact(t, i, o, Fee(t, o));
  }

  function RoutesInto(t: Trial, o: Channel, ins: seq<Channel>): seq<Route> {
    if ins == [] then []
    else
      var i := ins[|ins| - 1];
      RoutesInto(t, o, ins[..|ins| - 1])
      + if i.peer != o.peer && InBlocker(t, i, o).None? then [Route(i.id, o.id, Fee(t, o))] else []
  }

  function RoutesOver(t: Trial, outs: seq<Channel>, ins: seq<Channel>): seq<Route> {
    if outs == [] then []
    else
      var o := outs[|outs| - 1];
      RoutesOver(t, outs[..|outs| - 1], ins) + if OutBlocker(t, o).None? then RoutesInto(t, o, ins) else []
  }

  function BlockersInto(t: Trial, o: Channel, ins: seq<Channel>): set<Blocker> {
    set i | i in ins && i.peer != o.peer && InBlocker(t, i, o).Some? :: InBlocker(t, i, o).value
  }

  lemma BlockersIntoGrows(t: Trial, o: Channel, ins: seq<Channel>, i: Channel)
    ensures BlockersInto(t, o, ins + [i])
            == BlockersInto(t, o, ins)
               + if i.peer != o.peer && InBlocker(t, i, o).Some? then {InBlocker(t, i, o).value} else {}
    ensures RoutesInto(t, o, ins + [i])
            == RoutesInto(t, o, ins)
               + if i.peer != o.peer && InBlocker(t, i, o).None? then [Route(i.id, o.id, Fee(t, o))] else []
  {
    assert (ins + [i])[..|ins|] == ins;
  }

  /** One pass of the inner loop. */
  method SearchInto(t: Trial, o: Channel, ins: seq<Channel>) returns (routes: seq<Route>, blockers: set<Blocker>)
    ensures routes == RoutesInto(t, o, ins)
    ensures blockers == BlockersInto(t, o, ins)
  {
    routes, blockers := [], {};
    for k := 0 to |ins|
      invariant routes == RoutesInto(t, o, ins[..k])
      invariant blockers == BlockersInto(t, o, ins[..k])
    {
      assert ins[..k + 1] == ins[..k] + [ins[k]];
      BlockersIntoGrows(t, o, ins[..k], ins[k]);
      if ins[k].peer != o.peer {
        var b := InBlocker(t, ins[k], o);
        if b.Some? { blockers := blockers + {b.value}; }
        else { routes := routes + [Route(ins[k].id, o.id, Fee(t, o))]; }
      }
    }
    assert ins[..|ins|] == ins;
  }

  ghost predicate Blocks(t: Trial, outs: seq<Channel>, ins: seq<Channel>, b: Blocker) {
    exists o :: o in outs &&
      (OutBlocker(t, o) == Some(b) || (OutBlocker(t, o).None? && b in BlockersInto(t, o, ins)))
  }

  /** The nested loops. */
  method Search(t: Trial, active: seq<Channel>) returns (routes: seq<Route>, blockers: set<Blocker>)
    ensures routes == RoutesOver(t, active, active)
    ensures forall b :: b in blockers <==> Blocks(t, active, active, b)
  {
    routes, blockers := [], {};
    for k := 0 to |active|
      invariant routes == RoutesOver(t, active[..k], active)
      invariant forall b :: b in blockers <==> Blocks(t, active[..k], active, b)
    {
      assert active[..k + 1][..k] == active[..k];
      assert active[..k] + [active[k]] == active[..k + 1];
      var b := OutBlocker(t, active[k]);
      if b.Some? {
        blockers := blockers + {b.value};
      } else {
        var rs, bs := SearchInto(t, active[k], active);
        routes, blockers := routes + rs, blockers + bs;
      }
    }
    assert active[..|active|] == active;
  }

  lemma {:induction false} RoutesIntoAre(t: Trial, o: Channel, ins: seq<Channel>, r: Route)
    ensures r in RoutesInto(t, o, ins) <==>
            exists i :: i in ins && i.peer != o.peer && InBlocker(t, i, o).None? && r == Route(i.id, o.id, Fee(t, o))
  {
    if ins != [] {
      var n := |ins| - 1;
      RoutesIntoAre(t, o, ins[..n], r);
      assert ins == ins[..n] + [ins[n]];
    }
  }

  lemma {:induction false} RoutesOverAre(t: Trial, outs: seq<Channel>, ins: seq<Channel>, r: Route)
    ensures r in RoutesOver(t, outs, ins) <==> exists o ::
            o in outs && OutBlocker(t, o).None? && r in RoutesInto(t, o, ins)
  {
    if outs != [] {
      var n := |outs| - 1;
      RoutesOverAre(t, outs[..n], ins, r);
      assert outs == outs[..n] + [outs[n]];
    }
  }

  ghost predicate Once(routes: seq<Route>) {
    forall i, j :: 0 <= i < j < |routes| ==> routes[i] != routes[j]
  }

  ghost predicate DistinctIds(cs: seq<Channel>) {
    forall i, j :: 0 <= i < j < |cs| ==> cs[i].id != cs[j].id
  }

  lemma {:induction false} RoutesIntoOnce(t: Trial, o: Channel, ins: seq<Channel>)
    requires DistinctIds(ins)
    ensures Once(RoutesInto(t, o, ins))
  {
    if ins != [] {
      var n := |ins| - 1;
      RoutesIntoOnce(t, o, ins[..n]);
      var r := Route(ins[n].id, o.id, Fee(t, o));
      RoutesIntoAre(t, o, ins[..n], r);
      assert r !in RoutesInto(t, o, ins[..n]);
    }
  }

  /** No route is listed twice over channels with distinct ids. */
  lemma {:induction false} RoutesOverOnce(t: Trial, outs: seq<Channel>, ins: seq<Channel>)
    requires DistinctIds(outs) && DistinctIds(ins)
    ensures Once(RoutesOver(t, outs, ins))
  {
    if outs != [] {
      var n := |outs| - 1;
      var before, more := RoutesOver(t, outs[..n], ins), RoutesInto(t, outs[n], ins);
      RoutesOverOnce(t, outs[..n], ins);
      RoutesIntoOnce(t, outs[n], ins);
      forall i, j | 0 <= i < |before| && 0 <= j < |more| ensures before[i] != more[j] {
        RoutesOverAre(t, outs[..n], ins, before[i]);
        RoutesIntoAre(t, outs[n], ins, more[j]);
        assert before[i] in before && more[j] in more;
        var o :| o in outs[..n] && before[i] in RoutesInto(t, o, ins);
        RoutesIntoAre(t, o, ins, before[i]);
      }
    }
  }

  ghost predicate AllMatch(t: Trial, active: seq<Channel>) {
    forall c :: c in active ==> PolicyMatches(Own(t.policies, c), c, t.target)
  }

  /** The listed routes are exactly the feasible pairs of active channels, each with the target's fee. */
  lemma RoutesAreFeasiblePairs(t: Trial, active: seq<Channel>, r: Route)
    requires t.testSat > 0 && AllMatch(t, active)
    ensures r in RoutesOver(t, active, active) <==>
            exists i, o :: i in active && o in active && r.incoming == i.id && r.outgoing == o.id
                           && Feasible(t, i, o, r.feeMsat)
  {
    RoutesOverAre(t, active, active, r);
    forall o | o in active
      ensures r in RoutesInto(t, o, active) && OutBlocker(t, o).None? <==>
              exists i :: i in active && r.incoming == i.id && r.outgoing == o.id && Feasible(t, i, o, r.feeMsat)
    {
      RoutesIntoAre(t, o, active, r);
      forall i
        ensures Feasible(t, i, o, r.feeMsat) <==>
                OutBlocker(t, o).None? && i.peer != o.peer && InBlocker(t, i, o).None? && r.feeMsat == Fee(t, o)
      {
        FeasibleIffUnblocked(t, i, o, r.feeMsat);
      }
    }
  }

  // ----- the assessment -----

  datatype Code =
    | WrongNetwork | Syncing | PeerDisconnected | ExposureRequired | FundingReview | FundingPending
    | ChannelInactive | ChannelRequired | GraphPending | PolicyRequired | LiquidityRequired | AllReady

  /** `pendingPublic` counts public channels being opened, `attention` says one of them may expire. */
  datatype Node = Node(testnet: bool, chainSynced: bool, graphSynced: bool, hasUri: bool, channels: seq<Channel>,
                       peers: seq<string>, pendingPublic: nat, attention: bool)

  datatype Assessment = Assessment(code: Code, ready: bool, routes: seq<Route>, blockers: set<Blocker>)

  function Public(n: Node): seq<Channel> {
    Select(n.channels, (c: Channel) => !c.isPrivate)
  }

  function Usable(n: Node): seq<Channel> {
    Select(Public(n), (c: Channel) => c.active && c.peer in n.peers)
  }

  function PeersOf(cs: seq<Channel>): set<string> {
    set c | c in cs :: c.peer
  }

  /** The gates before the pair search, in the source's order. */
  function Gate(n: Node, t: Trial): Option<Code> {
    var public, active := Public(n), Usable(n);
    if !n.testnet then Some(WrongNetwork)
    else if !n.chainSynced || !n.graphSynced then Some(Syncing)
    else if n.peers == [] then Some(PeerDisconnected)
    else if !n.hasUri then Some(ExposureRequired)
    else if |PeersOf(active)| < 2 then
      if n.pendingPublic > 0 then Some(if n.attention then FundingReview else FundingPending)
      else if exists c :: c in public && c.peer !in n.peers then Some(PeerDisconnected)
      else if |PeersOf(public)| >= 2 then Some(ChannelInactive)
      else Some(ChannelRequired)
    else if exists c :: c in active && Own(t.policies, c).None? then Some(GraphPending)
    else if exists c :: c in active && !PolicyMatches(Own(t.policies, c), c, t.target) then Some(PolicyRequired)
    else None
  }

  /** A public, active channel to a connected peer. */
  ghost predicate IsUsable(n: Node, c: Channel) {
    c in n.channels && !c.isPrivate && c.active && c.peer in n.peers
  }

  ghost predicate SomeTwoPeers(n: Node, connected: bool) {
    exists a, b :: a in n.channels && b in n.channels && !a.isPrivate && !b.isPrivate && a.peer != b.peer
      && (connected ==> a.active && b.active && a.peer in n.peers && b.peer in n.peers)
  }

  /** The highest amount the channel's published policy has to carry: its capacity, or the lower limit of
      pending HTLCs this side obeys. */
  ghost predicate IsCeiling(c: Channel, m: int) {
    && 0 <= m <= Max(0, 1000 * c.capacity)
    && (c.localLimits.maxPending.Some? ==> m <= Max(0, c.localLimits.maxPending.value))
    && (m == 0 || m == 1000 * c.capacity || Some(m) == c.localLimits.maxPending)
    && (m == 0 ==> c.capacity <= 0 || (c.localLimits.maxPending.Some? && c.localLimits.maxPending.value <= 0))
  }

  /** This node's policy for the channel is the target's. */
  ghost predicate Publishes(t: Trial, c: Channel) {
    var p := PolicyOf(t, c, true);
    && p.Some? && !p.value.disabled
    && Or(p.value.baseMsat, -1) == t.target.baseMsat && Or(p.value.ratePpm, -1) == t.target.ratePpm
    && Or(p.value.minHtlc, -1) == t.target.minHtlc && IsCeiling(c, Or(p.value.maxHtlc, 0))
  }

  /** What is missing while there are no two usable peers. */
  ghost function Lacking(n: Node): Code {
    if n.pendingPublic > 0 then (if n.attention then FundingReview else FundingPending)
    else if exists c :: c in n.channels && !c.isPrivate && c.peer !in n.peers then PeerDisconnected
    else if SomeTwoPeers(n, false) then ChannelInactive
    else ChannelRequired
  }

  /** The first condition of readiness that fails, in terms of the node's own fields. */
  ghost function FirstGate(n: Node, t: Trial): Option<Code> {
    if !n.testnet then Some(WrongNetwork)
    else if !(n.chainSynced && n.graphSynced) then Some(Syncing)
    else if |n.peers| == 0 then Some(PeerDisconnected)
    else if !n.hasUri then Some(ExposureRequired)
    else if !SomeTwoPeers(n, true) then Some(Lacking(n))
    else if exists c :: IsUsable(n, c) && PolicyOf(t, c, true).None? then Some(GraphPending)
    else if exists c :: IsUsable(n, c) && !Publishes(t, c) then Some(PolicyRequired)
    else None
  }

  lemma UsableIs(n: Node, c: Channel)
    ensures c in Usable(n) <==> IsUsable(n, c)
    ensures c in Public(n) <==> c in n.channels && !c.isPrivate
  {
  }

  lemma {:induction false} TwoPeers(cs: seq<Channel>)
    ensures |PeersOf(cs)| >= 2 <==> exists a, b :: a in cs && b in cs && a.peer != b.peer
  {
    if exists a, b :: a in cs && b in cs && a.peer != b.peer {
      var a, b :| a in cs && b in cs && a.peer != b.peer;
      assert {a.peer, b.peer} <= PeersOf(cs);
      SubsetNoLarger({a.peer, b.peer}, PeersOf(cs));
    } else if cs != [] {
      assert PeersOf(cs) == {cs[0].peer};
    }
  }

  lemma {:induction false} SubsetNoLarger(a: set<string>, b: set<string>)
    requires a <= b
    ensures |a| <= |b|
  {
    if x :| x in a { SubsetNoLarger(a - {x}, b - {x}); }
  }

  lemma PublishesIsMatch(t: Trial, c: Channel)
    ensures Publishes(t, c) <==> PolicyMatches(Own(t.policies, c), c, t.target)
    ensures PolicyOf(t, c, true) == Own(t.policies, c)
  {
  }

  lemma PeersAre(n: Node)
    ensures |PeersOf(Usable(n))| >= 2 <==> SomeTwoPeers(n, true)
    ensures |PeersOf(Public(n))| >= 2 <==> SomeTwoPeers(n, false)
  {
    TwoPeers(Usable(n));
    TwoPeers(Public(n));
    assert forall c :: c in Usable(n) <==> IsUsable(n, c);
  }

  lemma PoliciesAre(n: Node, t: Trial)
    ensures (exists c :: c in Usable(n) && Own(t.policies, c).None?)
            <==> exists c :: IsUsable(n, c) && PolicyOf(t, c, true).None?
    ensures (exists c :: c in Usable(n) && !PolicyMatches(Own(t.policies, c), c, t.target))
            <==> exists c :: IsUsable(n, c) && !Publishes(t, c)
  {
    forall c ensures c in Usable(n) <==> IsUsable(n, c) { UsableIs(n, c); }
    forall c ensures Publishes(t, c) <==> PolicyMatches(Own(t.policies, c), c, t.target) { PublishesIsMatch(t, c); }
  }

  ghost predicate Online(n: Node) {
    n.testnet && n.chainSynced && n.graphSynced && n.peers != [] && n.hasUri
  }

  lemma LackingIsExact(n: Node, t: Trial)
    requires Online(n) && |PeersOf(Usable(n))| < 2
    ensures Gate(n, t) == Some(Lacking(n))
  {
    PeersAre(n);
    DisconnectedIs(n);
  }

  /** The gates stop exactly where the node's own fields say. */
  lemma GateIsExact(n: Node, t: Trial)
    ensures Gate(n, t) == FirstGate(n, t)
  {
    PeersAre(n);
    if Online(n) {
      if |PeersOf(Usable(n))| < 2 { LackingIsExact(n, t); } else { PoliciesAre(n, t); }
    }
  }

  lemma DisconnectedIs(n: Node)
    ensures (exists c :: c in Public(n) && c.peer !in n.peers)
            <==> exists c :: c in n.channels && !c.isPrivate && c.peer !in n.peers
  {
    forall c ensures c in Public(n) <==> c in n.channels && !c.isPrivate { UsableIs(n, c); }
  }

  /** Two usable channels to different peers can forward the test amount at the target's fee. */
  ghost predicate SomePairFeasible(n: Node, t: Trial) {
    exists i, o, fee :: IsUsable(n, i) && IsUsable(n, o) && Feasible(t, i, o, fee)
  }

  ghost predicate IsRoute(n: Node, t: Trial, r: Route) {
    exists i, o :: IsUsable(n, i) && IsUsable(n, o) && r.incoming == i.id && r.outgoing == o.id
                   && Feasible(t, i, o, r.feeMsat)
  }

  /** Some usable channel, or pair, is stopped by this first. */
  ghost predicate StoppedBy(n: Node, t: Trial, b: Blocker) {
    exists o, fee :: IsUsable(n, o) && IsTargetFee(t, fee) &&
      (FirstOut(t, o, fee) == Some(b)
       || (FirstOut(t, o, fee).None?
           && exists i :: IsUsable(n, i) && i.peer != o.peer && FirstIn(t, i, fee) == Some(b)))
  }

  /** The answer over the node's own fields: the first gate that fails; or every route, one for each feasible
      pair; or, with none, everything that stopped one. */
  method Assess(n: Node, t: Trial) returns (r: Result<Assessment>)
    ensures r.Raised? <==> t.testSat <= 0 || t.feeLimitSat < 0
    ensures r.Ok? && FirstGate(n, t).Some? ==> r.value == Assessment(FirstGate(n, t).value, false, [], {})
    ensures r.Ok? && FirstGate(n, t).None? ==>
              && (r.value.ready <==> SomePairFeasible(n, t))
              && (forall route :: route in r.value.routes <==> IsRoute(n, t, route))
              && (DistinctIds(n.channels) ==> Once(r.value.routes))
              && (r.value.ready ==> r.value.code == AllReady && r.value.blockers == {})
              && (!r.value.ready ==>
                    && (forall b :: b in r.value.blockers <==> StoppedBy(n, t, b))
                    && r.value.code == if StoppedBy(n, t, RemotePolicyUnknown) then GraphPending else LiquidityRequired)
  {
    if t.testSat <= 0 || t.feeLimitSat < 0 { return Raised; }
    var gate := Gate(n, t);
    GateIsExact(n, t);
    if gate.Some? { return Ok(Assessment(gate.value, false, [], {})); }
    var routes, blockers := Search(t, Usable(n));
    ReadyIffFeasible(n, t);
    forall route ensures route in routes <==> IsRoute(n, t, route) { RoutesOfNode(n, t, route); }
    if DistinctIds(n.channels) {
      UsableAreDistinct(n);
      RoutesOverOnce(t, Usable(n), Usable(n));
    }
    if routes != [] { return Ok(Assessment(AllReady, true, routes, {})); }
    BlockersOfNode(n, t);
    return Ok(Assessment(if RemotePolicyUnknown in blockers then GraphPending else LiquidityRequired,
                         false, [], blockers));
  }

  lemma {:induction false} SelectKeepsDistinct(cs: seq<Channel>, p: Channel -> bool)
    requires DistinctIds(cs)
    ensures DistinctIds(Select(cs, p))
  {
    if cs != [] {
      var n := |cs| - 1;
      var kept := Select(cs[..n], p);
      SelectKeepsDistinct(cs[..n], p);
      forall i | 0 <= i < |kept| ensures kept[i].id != cs[n].id {
        assert kept[i] in kept;
        var k :| 0 <= k < n && cs[..n][k] == kept[i];
      }
    }
  }

  lemma UsableAreDistinct(n: Node)
    requires DistinctIds(n.channels)
    ensures DistinctIds(Usable(n))
  {
    SelectKeepsDistinct(n.channels, (c: Channel) => !c.isPrivate);
    SelectKeepsDistinct(Public(n), (c: Channel) => c.active && c.peer in n.peers);
  }

  /** Past the gates every usable channel is public, connected, and publishes the target policy. */
  lemma GateChecksPolicies(n: Node, t: Trial)
    requires Gate(n, t).None?
    ensures AllMatch(t, Usable(n)) && |PeersOf(Usable(n))| >= 2
    ensures forall o :: o in Usable(n) ==> !o.isPrivate && o.active && o.peer in n.peers && Publishes(t, o)
  {
    forall o | o in Usable(n) ensures Publishes(t, o) { PublishesIsMatch(t, o); }
  }

  /** Past the gates the routes are exactly the feasible pairs of usable channels. */
  lemma RoutesOfNode(n: Node, t: Trial, r: Route)
    requires t.testSat > 0 && Gate(n, t).None?
    ensures r in RoutesOver(t, Usable(n), Usable(n)) <==> IsRoute(n, t, r)
  {
    GateChecksPolicies(n, t);
    RoutesAreFeasiblePairs(t, Usable(n), r);
    forall c ensures c in Usable(n) <==> IsUsable(n, c) { UsableIs(n, c); }
  }

  /** So there is a route if and only if some pair is feasible. */
  lemma ReadyIffFeasible(n: Node, t: Trial)
    requires t.testSat > 0 && Gate(n, t).None?
    ensures RoutesOver(t, Usable(n), Usable(n)) != [] <==> SomePairFeasible(n, t)
  {
    var routes := RoutesOver(t, Usable(n), Usable(n));
    if routes != [] {
      RoutesOfNode(n, t, routes[0]);
      assert routes[0] in routes;
    }
    if SomePairFeasible(n, t) {
      var i, o, fee :| IsUsable(n, i) && IsUsable(n, o) && Feasible(t, i, o, fee);
      RoutesOfNode(n, t, Route(i.id, o.id, fee));
    }
  }

  /** The graph is waited for exactly when some pair lacks only the remote policy at its turn. */
  lemma UnknownPolicyIsReal(n: Node, t: Trial)
    ensures StoppedBy(n, t, RemotePolicyUnknown) <==>
            exists i, o, fee :: IsUsable(n, i) && IsUsable(n, o) && IsTargetFee(t, fee) && FirstOut(t, o, fee).None?
                                && i.peer != o.peer && PolicyOf(t, i, false).None?
  {
    if i, o, fee :| IsUsable(n, i) && IsUsable(n, o) && IsTargetFee(t, fee) && FirstOut(t, o, fee).None?
                    && i.peer != o.peer && PolicyOf(t, i, false).None? {
      assert FirstIn(t, i, fee) == Some(RemotePolicyUnknown);
    }
  }

  /** And the blockers are exactly what the usable channels and pairs meet first. */
  lemma BlockersOfNode(n: Node, t: Trial)
    requires t.testSat > 0 && Gate(n, t).None?
    ensures forall b :: Blocks(t, Usable(n), Usable(n), b) <==> StoppedBy(n, t, b)
  {
    var active := Usable(n);
    GateChecksPolicies(n, t);
    forall c ensures c in active <==> IsUsable(n, c) { UsableIs(n, c); }
    forall b ensures Blocks(t, active, active, b) <==> StoppedBy(n, t, b) {
      if Blocks(t, active, active, b) { BlockIsStop(n, t, b); }
      if StoppedBy(n, t, b) { StopIsBlock(n, t, b); }
    }
  }

  lemma BlockIsStop(n: Node, t: Trial, b: Blocker)
    requires t.testSat > 0 && Gate(n, t).None? && Blocks(t, Usable(n), Usable(n), b)
    ensures StoppedBy(n, t, b)
  {
    var active := Usable(n);
    GateChecksPolicies(n, t);
    var o :| o in active
      && (OutBlocker(t, o) == Some(b) || (OutBlocker(t, o).None? && b in BlockersInto(t, o, active)));
    UsableIs(n, o);
    OutBlockIsStop(n, t, o, b);
    if OutBlocker(t, o).None? {
      var i :| i in active && i.peer != o.peer && InBlocker(t, i, o) == Some(b);
      UsableIs(n, i);
      InBlockIsStop(n, t, i, o, b);
    }
  }

  lemma OutBlockIsStop(n: Node, t: Trial, o: Channel, b: Blocker)
    requires t.testSat > 0 && IsUsable(n, o) && PolicyMatches(Own(t.policies, o), o, t.target)
    ensures OutBlocker(t, o) == Some(b) ==> StoppedBy(n, t, b)
  {
    FeeIsTarget(t, o);
    BlockersAreExact(t, o, o, Fee(t, o));
  }

  lemma InBlockIsStop(n: Node, t: Trial, i: Channel, o: Channel, b: Blocker)
    requires t.testSat > 0 && IsUsable(n, o) && PolicyMatches(Own(t.policies, o), o, t.target)
    requires IsUsable(n, i) && i.peer != o.peer && OutBlocker(t, o).None? && InBlocker(t, i, o) == Some(b)
    ensures StoppedBy(n, t, b)
  {
    FeeIsTarget(t, o);
    BlockersAreExact(t, i, o, Fee(t, o));
  }

  lemma StopIsBlock(n: Node, t: Trial, b: Blocker)
    requires t.testSat > 0 && Gate(n, t).None? && StoppedBy(n, t, b)
    ensures Blocks(t, Usable(n), Usable(n), b)
  {
    var active := Usable(n);
    GateChecksPolicies(n, t);
    var o, fee :| IsUsable(n, o) && IsTargetFee(t, fee) &&
      (FirstOut(t, o, fee) == Some(b)
       || (FirstOut(t, o, fee).None?
           && exists i :: IsUsable(n, i) && i.peer != o.peer && FirstIn(t, i, fee) == Some(b)));
    UsableIs(n, o);
    BlockersAreExact(t, o, o, fee);
    if FirstOut(t, o, fee).None? {
      var i :| IsUsable(n, i) && i.peer != o.peer && FirstIn(t, i, fee) == Some(b);
      UsableIs(n, i);
      BlockersAreExact(t, i, o, fee);
      assert b in BlockersInto(t, o, active);
    }
  }
}
