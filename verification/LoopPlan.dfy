/** Quoting a Loop swap (`plan` in ops/loop_ops.py) and the re-checks `submit` makes on the quote. */
module LoopPlan {
  import opened Arithmetic
  import opened Wrappers
  import opened LoopJournal
  import opened Selections

  datatype Channel = Channel(scid: string, peer: string, point: string, pending: bool, local: nat, localReserve: nat,
                             commitFee: nat, remote: nat, remoteReserve: nat)

  function Outbound(c: Channel): nat {
    Max(0, c.local - c.localReserve - c.commitFee)
  }

  function Inbound(c: Channel): nat {
    Max(0, c.remote - c.remoteReserve)
  }

  datatype Order = Order(direction: Direction, scid: string, amount: int, feeLimit: int, routing: int, timeout: int,
                         outgoing: Option<seq<string>>)
  /** The server's terms and quote. */
  datatype Offer = Offer(minimum: nat, maximum: nat, swapFee: nat, miner: nat, prepay: nat)

  function Filter(channels: seq<Channel>, ids: seq<string>): seq<Channel> {
    if channels == [] then []
    else if channels[0].scid in ids then [channels[0]] + Filter(channels[1..], ids)
    else Filter(channels[1..], ids)
  }

  lemma {:induction false} FilterIs(channels: seq<Channel>, ids: seq<string>)
    ensures forall c :: c in Filter(channels, ids) <==> c in channels && c.scid in ids
  {
    if channels != [] { FilterIs(channels[1..], ids); }
  }

  function Ids(channels: seq<Channel>): (ids: seq<string>)
    ensures |ids| == |channels| && forall i :: 0 <= i < |ids| ==> ids[i] == channels[i].scid
  {
    seq(|channels|, i requires 0 <= i < |channels| => channels[i].scid)
  }

  function SumOutbound(pool: seq<Channel>): nat {
    if pool == [] then 0 else SumOutbound(pool[..|pool| - 1]) + Outbound(pool[|pool| - 1])
  }

  function OfPeer(channels: seq<Channel>, peer: string): nat {
    if channels == [] then 0 else (if channels[0].peer == peer then 1 else 0) + OfPeer(channels[1..], peer)
  }

  function Requested(o: Order): seq<string> {
    if o.outgoing.None? then [o.scid] else o.outgoing.value
  }

  predicate Orderable(o: Order) {
    var ids := Requested(o);
    && o.amount >= 1 && o.feeLimit >= 1 && o.routing >= 0 && 1 <= o.timeout <= 1800
    && ids != [] && NoRepeats(ids) && o.scid in ids && (o.direction.LoopIn? ==> ids == [o.scid])
  }

  predicate Usable(pool: seq<Channel>, ids: seq<string>) {
    |pool| == |ids| && forall c :: c in pool ==> !c.pending
  }

  function Reservation(o: Order, offer: Offer): nat
    requires o.routing >= 0
  {
    if o.direction.LoopOut? then Max(offer.swapFee, offer.prepay) + 2 * offer.miner + 2 * o.routing
    else offer.swapFee + 2 * offer.miner
  }

  predicate Affordable(o: Order, offer: Offer, pool: seq<Channel>, chosen: Channel, onchain: int)
    requires o.routing >= 0
  {
    if o.direction.LoopOut? then SumOutbound(pool) >= o.amount + offer.swapFee + 2 * o.routing
    else Inbound(chosen) >= o.amount && Max(0, onchain) >= o.amount + Reservation(o, offer)
  }

  /** A plan with the channels it names. */
  datatype Quoted = Quoted(plan: Plan, pool: seq<Channel>)

  function PayloadOf(o: Order, offer: Offer, peer: string): Payload
    requires Orderable(o)
  {
    if o.direction.LoopOut? then
      Payload(o.amount, offer.swapFee, 2 * offer.miner, offer.prepay, o.routing, o.routing, Requested(o), "")
    else Payload(o.amount, offer.swapFee, 2 * offer.miner, 0, 0, 0, [], peer)
  }

  /** Every check `plan` makes on the order, the channels, the quote and the balances. */
  predicate Quotable(o: Order, channels: seq<Channel>, offer: Offer, onchain: int, chosen: seq<Channel>,
                     pool: seq<Channel>) {
    && Orderable(o) && |chosen| == 1 && !chosen[0].pending && Usable(pool, Requested(o))
    && (o.direction.LoopIn? ==> OfPeer(channels, chosen[0].peer) == 1)
    && offer.minimum <= o.amount <= offer.maximum && Reservation(o, offer) <= o.feeLimit
    && Affordable(o, offer, pool, chosen[0], onchain)
  }

  function Price(o: Order, offer: Offer, peer: string, pool: seq<Channel>, newLabel: Label, now: int): Quoted
    requires Orderable(o)
  {
    var payload := PayloadOf(o, offer, peer);
    Quoted(Plan(newLabel, o.direction, o.scid, peer, Ids(pool), o.amount, o.feeLimit, Reservation(o, offer), now,
                payload, payload), pool)
  }

  /** `plan`; None where it raises. `onchain` is the confirmed balance less what is locked and reserved. */
  function MakePlan(o: Order, channels: seq<Channel>, offer: Offer, onchain: int, newLabel: Label,
                    now: int): Option<Quoted> {
    var chosen, pool := Filter(channels, [o.scid]), Filter(channels, Requested(o));
    if Quotable(o, channels, offer, onchain, chosen, pool) then
        Some(Price(o, offer, chosen[0].peer, pool, newLabel, now))
    else None
  }

  // ----- what submit checks again -----

  function Same(channels: seq<Channel>, scid: string, peer: string, point: Option<string>): seq<Channel> {
    Select(channels, (c: Channel) => c.scid == scid && c.peer == peer && (point.Some? ==> c.point == point.value))
  }

  /** The channels now standing for the approved ones, or None if one of them changed. */
  function Regathered(channels: seq<Channel>, approved: seq<Channel>): Option<seq<Channel>> {
    if approved == [] then Some([])
    else
      var n := |approved| - 1;
      var before := Regathered(channels, approved[..n]);
      var found := Same(channels, approved[n].scid, approved[n].peer, Some(approved[n].point));
      if before.Some? && |found| == 1 && !found[0].pending then Some(before.value + found) else None
  }

  predicate StillGood(q: Quoted, channels: seq<Channel>, onchain: int) {
    var p := q.plan;
    var chosen := Same(channels, p.scid, p.peer, None);
    && |chosen| == 1 && !chosen[0].pending
    && (if p.direction.LoopOut? then
          var pool := Regathered(channels, q.pool);
          && pool.Some?
          && SumOutbound(pool.value)
             >= p.amount + p.payload.maxSwapFee + p.payload.maxSwapRouting + p.payload.maxPrepayRouting
        else
          Inbound(chosen[0]) >= p.amount && onchain >= p.amount + p.reservation && OfPeer(channels, p.peer) == 1)
  }

  lemma {:induction false} RegatherPrefix(channels: seq<Channel>, approved: seq<Channel>, n: nat)
    requires n <= |approved| && Regathered(channels, approved[..n]).None?
    ensures Regathered(channels, approved).None?
    decreases |approved| - n
  {
    if n == |approved| {
      assert approved[..n] == approved;
    } else {
      assert approved[..n + 1][..n] == approved[..n];
      RegatherPrefix(channels, approved, n + 1);
    }
  }

  /** The source's loop over the approved channels. */
  method Regather(channels: seq<Channel>, approved: seq<Channel>) returns (pool: Option<seq<Channel>>)
    ensures pool == Regathered(channels, approved)
  {
    var found: seq<Channel> := [];
    for i := 0 to |approved|
      invariant Regathered(channels, approved[..i]) == Some(found)
    {
      assert approved[..i + 1][..i] == approved[..i];
      var matches := Same(channels, approved[i].scid, approved[i].peer, Some(approved[i].point));
      if |matches| != 1 || matches[0].pending {
        RegatherPrefix(channels, approved, i + 1);
        return None;
      }
      found := found + matches;
    }
    assert approved[..|approved|] == approved;
    return Some(found);
  }

  // ----- both, in terms of the channels' own fields -----

  /** What a channel can send: its local balance less its reserve and the commitment fee, if that is anything. */
  ghost function Sends(c: Channel): nat {
    if c.local > c.localReserve + c.commitFee then c.local - c.localReserve - c.commitFee else 0
  }

  ghost function Receives(c: Channel): nat {
    if c.remote > c.remoteReserve then c.remote - c.remoteReserve else 0
  }

  /** How many listed channels have one of these ids, and what they can send together. */
  ghost function Named(channels: seq<Channel>, ids: seq<string>): nat {
    |set i | 0 <= i < |channels| && channels[i].scid in ids|
  }

  ghost function Sendable(channels: seq<Channel>, ids: seq<string>): nat {
    if channels == [] then 0
    else
      var c := channels[|channels| - 1];
      Sendable(channels[..|channels| - 1], ids) + if c.scid in ids then Sends(c) else 0
  }

  lemma {:induction false} FilterGrows(channels: seq<Channel>, c: Channel, ids: seq<string>)
    ensures Filter(channels + [c], ids) == Filter(channels, ids) + if c.scid in ids then [c] else []
  {
    if channels == [] {
      assert [c][1..] == [];
    } else {
      assert (channels + [c])[0] == channels[0] && (channels + [c])[1..] == channels[1..] + [c];
      FilterGrows(channels[1..], c, ids);
    }
  }

  lemma NamedGrows(channels: seq<Channel>, c: Channel, ids: seq<string>)
    ensures Named(channels + [c], ids) == Named(channels, ids) + if c.scid in ids then 1 else 0
  {
    var before := set i | 0 <= i < |channels| && channels[i].scid in ids;
    var all := set i | 0 <= i < |channels + [c]| && (channels + [c])[i].scid in ids;
    assert all == before + if c.scid in ids then {|channels|} else {};
  }

  lemma {:induction false} FilterMeasures(channels: seq<Channel>, ids: seq<string>)
    ensures |Filter(channels, ids)| == Named(channels, ids)
    ensures SumOutbound(Filter(channels, ids)) == Sendable(channels, ids)
    ensures forall c :: multiset(Filter(channels, ids))[c] == if c.scid in ids then multiset(channels)[c] else 0
  {
    if channels != [] {
      var before, c := channels[..|channels| - 1], channels[|channels| - 1];
      assert before + [c] == channels;
      FilterMeasures(before, ids);
      FilterGrows(before, c, ids);
      NamedGrows(before, c, ids);
      var kept := Filter(before, ids);
      assert (kept + [c])[..|kept|] == kept;
      assert kept + [] == kept;
    }
  }

  /** Channel k alone has this id. */
  ghost predicate OnlyOne(channels: seq<Channel>, scid: string, k: int) {
    && 0 <= k < |channels| && channels[k].scid == scid
    && forall i :: 0 <= i < |channels| && i != k ==> channels[i].scid != scid
  }

  lemma {:induction false} OnlyIsFiltered(channels: seq<Channel>, scid: string, k: int)
    requires OnlyOne(channels, scid, k)
    ensures Filter(channels, [scid]) == [channels[k]]
  {
    if k == 0 {
      FilterNone(channels[1..], scid);
    } else {
      OnlyIsFiltered(channels[1..], scid, k - 1);
    }
  }

  lemma {:induction false} FilteredIsOnly(channels: seq<Channel>, scid: string) returns (k: nat)
    requires |Filter(channels, [scid])| == 1
    ensures OnlyOne(channels, scid, k)
  {
    FilterIs(channels[1..], [scid]);
    if channels[0].scid == scid {
      k := 0;
      forall i | 0 < i < |channels| ensures channels[i].scid != scid {
        assert Filter(channels[1..], [scid]) == [] && channels[i] == channels[1..][i - 1];
      }
    } else {
      var n := FilteredIsOnly(channels[1..], scid);
      k := n + 1;
      forall i | 0 <= i < |channels| && i != k ensures channels[i].scid != scid {
        if i > 0 { assert channels[i] == channels[1..][i - 1]; }
      }
    }
  }

  lemma {:induction false} OfPeerCounts(channels: seq<Channel>, k: int)
    requires 0 <= k < |channels|
    ensures OfPeer(channels, channels[k].peer) >= 1
    ensures OfPeer(channels, channels[k].peer) == 1 <==>
              forall i :: 0 <= i < |channels| && i != k ==> channels[i].peer != channels[k].peer
  {
    var peer, rest := channels[k].peer, channels[1..];
    assert forall i :: 0 < i < |channels| ==> channels[i] == rest[i - 1];
    if k == 0 {
      NoneOfPeer(rest, peer);
    } else {
      OfPeerCounts(rest, k - 1);
    }
  }

  lemma {:induction false} NoneOfPeer(channels: seq<Channel>, peer: string)
    ensures OfPeer(channels, peer) == 0 <==> forall i :: 0 <= i < |channels| ==> channels[i].peer != peer
  {
    if channels != [] {
      NoneOfPeer(channels[1..], peer);
      assert forall i :: 0 < i < |channels| ==> channels[i] == channels[1..][i - 1];
    }
  }

  /** What a quote puts at risk: out, the dearer of fee and prepayment, the doubled miner estimate and both routing
      limits; in, the fee and the doubled estimate. */
  ghost function AtRisk(o: Order, offer: Offer): int {
    if o.direction == LoopOut then
      (if offer.swapFee >= offer.prepay then offer.swapFee else offer.prepay) + 2 * offer.miner + 2 * o.routing
    else offer.swapFee + 2 * offer.miner
  }

  /** The order itself: positive bounds, a timeout within half an hour, and distinct channels with the target among
      them, more than one only out. */
  ghost predicate Sound(o: Order, ids: seq<string>) {
    && o.amount > 0 && o.feeLimit > 0 && o.routing >= 0 && 0 < o.timeout && o.timeout <= 1800
    && (forall i, j :: 0 <= i < j < |ids| ==> ids[i] != ids[j])
    && o.scid in ids && (o.direction == LoopIn ==> ids == [o.scid])
  }

  /** Channel k is the target, and channels, offer and balances can serve the order. */
  ghost predicate Servable(o: Order, ids: seq<string>, channels: seq<Channel>, offer: Offer, onchain: int, k: int) {
    && OnlyOne(channels, o.scid, k) && !channels[k].pending
    && Named(channels, ids) == |ids|
    && (forall i :: 0 <= i < |channels| && channels[i].scid in ids ==> !channels[i].pending)
    && offer.minimum <= o.amount && o.amount <= offer.maximum && AtRisk(o, offer) <= o.feeLimit
    && (o.direction == LoopOut ==> Sendable(channels, ids) >= o.amount + offer.swapFee + 2 * o.routing)
    && (o.direction == LoopIn ==>
          && (forall i :: 0 <= i < |channels| && i != k ==> channels[i].peer != channels[k].peer)
          && Receives(channels[k]) >= o.amount && onchain >= o.amount + AtRisk(o, offer))
  }

  ghost function OrderedIds(o: Order): seq<string> {
    match o.outgoing
    case None => [o.scid]
    case Some(ids) => ids
  }

  /** Exactly which orders are quoted. */
  lemma PlanIsExact(o: Order, channels: seq<Channel>, offer: Offer, onchain: int, newLabel: Label, now: int)
    ensures MakePlan(o, channels, offer, onchain, newLabel, now).Some? <==>
              Sound(o, OrderedIds(o)) && exists k :: Servable(o, OrderedIds(o), channels, offer, onchain, k)
  {
    var ids := OrderedIds(o);
    var chosen, pool := Filter(channels, [o.scid]), Filter(channels, ids);
    OrderIsSound(o);
    if |chosen| == 1 {
      var k := FilteredIsOnly(channels, o.scid);
      ChosenServes(o, channels, offer, onchain, k);
    }
    forall k | Servable(o, ids, channels, offer, onchain, k)
      ensures Quotable(o, channels, offer, onchain, chosen, pool) <==> Sound(o, ids)
    {
      ChosenServes(o, channels, offer, onchain, k);
    }
  }

  lemma OrderIsSound(o: Order)
    ensures Requested(o) == OrderedIds(o) && (Orderable(o) <==> Sound(o, OrderedIds(o)))
  {
  }

  lemma PoolIsIdle(channels: seq<Channel>, ids: seq<string>)
    ensures Usable(Filter(channels, ids), ids) <==>
              && Named(channels, ids) == |ids|
              && forall i :: 0 <= i < |channels| && channels[i].scid in ids ==> !channels[i].pending
  {
    FilterMeasures(channels, ids);
    FilterIs(channels, ids);
  }

  lemma ChosenAffords(o: Order, channels: seq<Channel>, offer: Offer, onchain: int, k: int)
    requires OnlyOne(channels, o.scid, k) && Sound(o, OrderedIds(o))
    ensures Reservation(o, offer) == AtRisk(o, offer)
    ensures Affordable(o, offer, Filter(channels, OrderedIds(o)), channels[k], onchain) <==>
              && (o.direction == LoopOut ==>
                    Sendable(channels, OrderedIds(o)) >= o.amount + offer.swapFee + 2 * o.routing)
              && (o.direction == LoopIn ==>
                    Receives(channels[k]) >= o.amount && onchain >= o.amount + AtRisk(o, offer))
  {
    FilterMeasures(channels, OrderedIds(o));
  }

  lemma ChosenServes(o: Order, channels: seq<Channel>, offer: Offer, onchain: int, k: int)
    requires OnlyOne(channels, o.scid, k)
    ensures
      var ids := OrderedIds(o);
      Quotable(o, channels, offer, onchain, Filter(channels, [o.scid]), Filter(channels, ids))
      <==> Sound(o, ids) && Servable(o, ids, channels, offer, onchain, k)
  {
    OrderIsSound(o);
    if Sound(o, OrderedIds(o)) {
      OnlyIsFiltered(channels, o.scid, k);
      OfPeerCounts(channels, k);
      PoolIsIdle(channels, OrderedIds(o));
      ChosenAffords(o, channels, offer, onchain, k);
    }
  }

  /** And what the quote says: the order, the target's peer, what is at risk, and a request for just that, over the
      channels of the ordered ids. */
  lemma QuoteIsExact(o: Order, channels: seq<Channel>, offer: Offer, onchain: int, newLabel: Label, now: int, k: int)
    requires Sound(o, OrderedIds(o)) && Servable(o, OrderedIds(o), channels, offer, onchain, k)
    ensures MakePlan(o, channels, offer, onchain, newLabel, now).Some?
    ensures
      var q := MakePlan(o, channels, offer, onchain, newLabel, now).value;
      var payload :=
        if o.direction == LoopOut
        then Payload(o.amount, offer.swapFee, 2 * offer.miner, offer.prepay, o.routing, o.routing, OrderedIds(o), "")
        else Payload(o.amount, offer.swapFee, 2 * offer.miner, 0, 0, 0, [], channels[k].peer);
      && q.plan == Plan(newLabel, o.direction, o.scid, channels[k].peer, q.plan.approved, o.amount, o.feeLimit,
                        AtRisk(o, offer), now, payload, payload)
      && |q.plan.approved| == |q.pool| && (forall i :: 0 <= i < |q.pool| ==> q.plan.approved[i] == q.pool[i].scid)
      && forall c :: multiset(q.pool)[c] == if c.scid in OrderedIds(o) then multiset(channels)[c] else 0
  {
    ChosenServes(o, channels, offer, onchain, k);
    OnlyIsFiltered(channels, o.scid, k);
    FilterMeasures(channels, OrderedIds(o));
  }

  /** Channel k alone stands where this one was approved: same id, same peer, and same point if that is asked. */
  ghost predicate Stands(channels: seq<Channel>, a: Channel, pointed: bool, k: int) {
    && 0 <= k < |channels| && StandsFor(channels[k], a, pointed)
    && forall i :: 0 <= i < |channels| && i != k ==> !StandsFor(channels[i], a, pointed)
  }

  ghost predicate StandsFor(c: Channel, a: Channel, pointed: bool) {
    c.scid == a.scid && c.peer == a.peer && (pointed ==> c.point == a.point)
  }

  lemma SameIsOnly(channels: seq<Channel>, a: Channel, pointed: bool)
    ensures
      var same := Same(channels, a.scid, a.peer, if pointed then Some(a.point) else None);
      && (|same| == 1 <==> exists k :: Stands(channels, a, pointed, k))
      && (forall k :: Stands(channels, a, pointed, k) ==> same == [channels[k]])
  {
    var point := if pointed then Some(a.point) else None;
    var p := (c: Channel) => c.scid == a.scid && c.peer == a.peer && (point.Some? ==> c.point == point.value);
    assert forall c :: p(c) <==> StandsFor(c, a, pointed);
    if |Same(channels, a.scid, a.peer, point)| == 1 {
      var k := SelectSingle(channels, p);
      assert Stands(channels, a, pointed, k);
    }
    forall k | Stands(channels, a, pointed, k) ensures Same(channels, a.scid, a.peer, point) == [channels[k]] {
      SelectOnly(channels, p, k);
    }
  }

  ghost predicate StillIdle(channels: seq<Channel>, a: Channel, pointed: bool) {
    exists k :: Stands(channels, a, pointed, k) && !channels[k].pending
  }

  /** What the channels that stand for the approved ones can send together. */
  ghost function StandingSends(channels: seq<Channel>, approved: seq<Channel>): nat {
    if approved == [] then 0
    else
      var n := |approved| - 1;
      StandingSends(channels, approved[..n])
      + if k :| Stands(channels, approved[n], true, k) then Sends(channels[k]) else 0
  }

  lemma {:induction false} RegatheredIs(channels: seq<Channel>, approved: seq<Channel>)
    ensures
      var pool := Regathered(channels, approved);
      && (pool.Some? <==> forall i :: 0 <= i < |approved| ==> StillIdle(channels, approved[i], true))
      && (pool.Some? ==> SumOutbound(pool.value) == StandingSends(channels, approved))
  {
    if approved != [] {
      var n := |approved| - 1;
      RegatheredIs(channels, approved[..n]);
      SameIsOnly(channels, approved[n], true);
      assert forall i :: 0 <= i < n ==> approved[..n][i] == approved[i];
      if Regathered(channels, approved).Some? {
        var before := Regathered(channels, approved[..n]).value;
        var k :| Stands(channels, approved[n], true, k);
        assert (before + [channels[k]])[..|before|] == before;
      }
    }
  }

  /** Submit's own checks pass exactly while the target still stands alone and idle, and: out, every approved
      channel does at its very point, and together they can send amount, fee and both routing limits; in, the
      target can receive the amount, the balance covers amount and reservation, and no other channel has its
      peer. */
  lemma StillGoodIsExact(q: Quoted, channels: seq<Channel>, onchain: int, target: Channel)
    requires target.scid == q.plan.scid && target.peer == q.plan.peer
    ensures
      var p, out := q.plan, q.plan.direction == LoopOut;
      StillGood(q, channels, onchain) <==>
        && StillIdle(channels, target, false)
        && (out ==>
              && (forall i :: 0 <= i < |q.pool| ==> StillIdle(channels, q.pool[i], true))
              && StandingSends(channels, q.pool)
                 >= p.amount + p.payload.maxSwapFee + p.payload.maxSwapRouting + p.payload.maxPrepayRouting)
        && (!out ==>
              && (exists k :: Stands(channels, target, false, k) && Receives(channels[k]) >= p.amount
                    && forall i :: 0 <= i < |channels| && i != k ==> channels[i].peer != p.peer)
              && onchain >= p.amount + p.reservation)
  {
    SameIsOnly(channels, target, false);
    RegatheredIs(channels, q.pool);
    forall k | Stands(channels, target, false, k)
      ensures OfPeer(channels, q.plan.peer) == 1 <==>
              forall i :: 0 <= i < |channels| && i != k ==> channels[i].peer != q.plan.peer
    {
      OfPeerCounts(channels, k);
    }
  }

  // ----- a fresh plan passes, exactly when its channels have distinct ids -----

  lemma FirstIsAlone(pool: seq<Channel>, d: Channel)
    requires pool != [] && NoRepeats(Ids(pool)) && d in pool[1..]
    ensures d.scid != pool[0].scid
  {
    var k :| 0 <= k < |pool[1..]| && pool[1..][k] == d;
    assert Ids(pool)[0] != Ids(pool)[k + 1];
  }

  lemma {:induction false} FilterDistinct(channels: seq<Channel>, ids: seq<string>, c: Channel)
    requires c in channels && c.scid in ids && NoRepeats(Ids(Filter(channels, ids)))
    ensures Filter(channels, [c.scid]) == [c]
  {
    var head, rest := channels[0], channels[1..];
    var pool := Filter(channels, ids);
    FilterIs(rest, ids);
    if head.scid in ids {
      forall i, j | 0 <= i < j < |pool[1..]| ensures Ids(pool[1..])[i] != Ids(pool[1..])[j] {
        assert Ids(pool)[i + 1] != Ids(pool)[j + 1];
      }
      if head.scid == c.scid {
        forall d | d in rest ensures d.scid != c.scid {
          if d.scid in ids { FirstIsAlone(pool, d); }
        }
        FilterNone(rest, c.scid);
        assert head == c;
      } else {
        FilterDistinct(rest, ids, c);
      }
    } else {
      FilterDistinct(rest, ids, c);
    }
  }

  lemma {:induction false} FilterNone(channels: seq<Channel>, scid: string)
    requires forall d :: d in channels ==> d.scid != scid
    ensures Filter(channels, [scid]) == []
  {
    if channels != [] { FilterNone(channels[1..], scid); }
  }

  /** One channel with this id, and it fits: looking it up again finds it. */
  lemma SameAsFiltered(channels: seq<Channel>, c: Channel, point: Option<string>)
    requires Filter(channels, [c.scid]) == [c] && (point.Some? ==> c.point == point.value)
    ensures Same(channels, c.scid, c.peer, point) == [c]
  {
    var k := FilteredIsOnly(channels, c.scid);
    OnlyIsFiltered(channels, c.scid, k);
    SelectOnly(channels,
               (d: Channel) => d.scid == c.scid && d.peer == c.peer && (point.Some? ==> d.point == point.value), k);
  }

  /** The only channel with its id, and idle. */
  ghost predicate Alone(channels: seq<Channel>, c: Channel) {
    !c.pending && Filter(channels, [c.scid]) == [c]
  }

  lemma RegatherTurn(channels: seq<Channel>, before: seq<Channel>, c: Channel)
    requires Regathered(channels, before) == Some(before) && Alone(channels, c)
    ensures Regathered(channels, before + [c]) == Some(before + [c])
  {
    SameAsFiltered(channels, c, Some(c.point));
    assert (before + [c])[..|before|] == before;
  }

  lemma {:induction false} RegatherFinds(channels: seq<Channel>, pool: seq<Channel>)
    requires forall i :: 0 <= i < |pool| ==> Alone(channels, pool[i])
    ensures Regathered(channels, pool) == Some(pool)
  {
    if pool != [] {
      var n := |pool| - 1;
      RegatherFinds(channels, pool[..n]);
      RegatherTurn(channels, pool[..n], pool[n]);
      assert pool[..n] + [pool[n]] == pool;
    }
  }

  /** As many distinct ids in the pool as requested, all of them requested: the same set. */
  lemma SameIdSet(pool: seq<Channel>, ids: seq<string>)
    requires |pool| == |ids| && NoRepeats(ids) && NoRepeats(Ids(pool))
    requires forall c :: c in pool ==> c.scid in ids
    ensures (set id | id in ids) == (set id | id in Ids(pool))
  {
    var a, b := set id | id in ids, set id | id in Ids(pool);
    SetSize(ids);
    SetSize(Ids(pool));
    forall id | id in b ensures id in a {
      var i :| 0 <= i < |Ids(pool)| && Ids(pool)[i] == id;
      assert pool[i] in pool;
    }
    SubsetOfSameSize(b, a);
  }

  lemma {:induction false} SetSize(ids: seq<string>)
    requires NoRepeats(ids)
    ensures |set id | id in ids| == |ids|
  {
    if ids != [] {
      var n := |ids| - 1;
      SetSize(ids[..n]);
      assert (set id | id in ids) == (set id | id in ids[..n]) + {ids[n]};
    }
  }

  lemma SubsetOfSameSize(a: set<string>, b: set<string>)
    requires a <= b && |a| == |b|
    ensures a == b
  {
    if x :| x in b && x !in a {
      assert a <= b - {x};
      SubsetNoLarger(a, b - {x});
    }
  }

  lemma {:induction false} SubsetNoLarger(a: set<string>, b: set<string>)
    requires a <= b
    ensures |a| <= |b|
  {
    if x :| x in a {
      SubsetNoLarger(a - {x}, b - {x});
    }
  }

  /** If nothing has moved since the quote, submit's own checks of plan, channels and balances pass
      exactly when the quoted channels have distinct ids; `plan` itself only compares counts. */
  lemma FreshPlanPasses(o: Order, channels: seq<Channel>, offer: Offer, onchain: int, newLabel: Label, now: int)
    requires MakePlan(o, channels, offer, onchain, newLabel, now).Some?
    ensures
      var q := MakePlan(o, channels, offer, onchain, newLabel, now).value;
      Intact(q.plan) && StillGood(q, channels, onchain) <==> NoRepeats(Ids(q.pool))
  {
    var q := MakePlan(o, channels, offer, onchain, newLabel, now).value;
    if NoRepeats(Ids(q.pool)) {
      DistinctPlanIsIntact(o, channels, offer, onchain, newLabel, now);
      DistinctPlanIsStillGood(o, channels, offer, onchain, newLabel, now);
    }
  }

  lemma DistinctPlanIsIntact(o: Order, channels: seq<Channel>, offer: Offer, onchain: int, newLabel: Label, now: int)
    requires MakePlan(o, channels, offer, onchain, newLabel, now).Some?
    requires NoRepeats(Ids(MakePlan(o, channels, offer, onchain, newLabel, now).value.pool))
    ensures Intact(MakePlan(o, channels, offer, onchain, newLabel, now).value.plan)
  {
    var ids, chosen := Requested(o), Filter(channels, [o.scid])[0];
    var pool := Filter(channels, ids);
    FilterIs(channels, [o.scid]);
    FilterIs(channels, ids);
    assert chosen in Filter(channels, [o.scid]);
    assert chosen in pool;
    var k :| 0 <= k < |pool| && pool[k] == chosen;
    assert Ids(pool)[k] == o.scid;
    SameIdSet(pool, ids);
  }

  lemma DistinctPlanIsStillGood(o: Order, channels: seq<Channel>, offer: Offer, onchain: int, newLabel: Label, now: int)
    requires MakePlan(o, channels, offer, onchain, newLabel, now).Some?
    requires NoRepeats(Ids(MakePlan(o, channels, offer, onchain, newLabel, now).value.pool))
    ensures StillGood(MakePlan(o, channels, offer, onchain, newLabel, now).value, channels, onchain)
  {
    OneIsFound(channels, o.scid);
    DistinctPoolIsFound(channels, Requested(o));
  }

  lemma OneIsFound(channels: seq<Channel>, scid: string)
    requires |Filter(channels, [scid])| == 1
    ensures Same(channels, scid, Filter(channels, [scid])[0].peer, None) == Filter(channels, [scid])
  {
    var chosen := Filter(channels, [scid])[0];
    FilterIs(channels, [scid]);
    assert chosen in Filter(channels, [scid]);
    SameAsFiltered(channels, chosen, None);
  }

  lemma DistinctPoolIsFound(channels: seq<Channel>, ids: seq<string>)
    requires NoRepeats(Ids(Filter(channels, ids))) && Usable(Filter(channels, ids), ids)
    ensures Regathered(channels, Filter(channels, ids)) == Some(Filter(channels, ids))
  {
    var pool := Filter(channels, ids);
    FilterIs(channels, ids);
    forall i | 0 <= i < |pool| ensures Alone(channels, pool[i]) {
      assert pool[i] in pool;
      FilterDistinct(channels, ids, pool[i]);
    }
    RegatherFinds(channels, pool);
  }

  /** Three requested ids, one of them live twice and one not at all: `plan` accepts, submit refuses. */
  lemma RepeatedIdPassesPlan() returns (o: Order, channels: seq<Channel>, offer: Offer)
    ensures
      var q := MakePlan(o, channels, offer, 0, 0, 0);
      q.Some? && !NoRepeats(Ids(q.value.pool)) && !Intact(q.value.plan)
  {
    o := Order(LoopOut, "t", 1, 1, 0, 300, Some(["t", "a", "b"]));
    var t := Channel("t", "p", "", false, 10, 0, 0, 0, 0);
    var a := t.(scid := "a");
    channels, offer := [t, a, a], Offer(1, 1, 0, 0, 0);
    var ids := Requested(o);
    FilterUnfold(t, [a, a], ids);
    FilterUnfold(a, [a], ids);
    FilterUnfold(a, [], ids);
    FilterUnfold(t, [a, a], ["t"]);
    FilterNone([a, a], "t");
    assert [t, a, a] == [t] + ([a] + ([a] + []));
    assert SumOutbound([t, a, a]) >= Outbound(a);
    assert Ids([t, a, a])[1] == Ids([t, a, a])[2];
  }

  lemma FilterUnfold(head: Channel, rest: seq<Channel>, ids: seq<string>)
    ensures Filter([head] + rest, ids) == (if head.scid in ids then [head] else []) + Filter(rest, ids)
  {
    assert ([head] + rest)[1..] == rest;
  }
}
