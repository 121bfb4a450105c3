/** Durable, bounded reconnection to approved peers (ops/router_peers.py). A pass may die after any
    stored write or any connect call; the number of those effects it gets to is a parameter. */
module PeerRetries {
  import opened Arithmetic
  import opened Runs
  import opened Wrappers

  /** Public keys, as numbers. */
  type Peer = nat

  const MAX_ATTEMPTS := 3
  const BACKOFF := 10

  datatype Status = Connected | Connecting | Requested | RetryWait | NeedsReview

  /** `epoch` counts the resets this entry has seen: approvals and observed connections. It is
      history for the proofs; nothing branches on it. */
  datatype Entry = Entry(peer: Peer, attempts: nat, nextAt: int, status: Option<Status>, epoch: nat)
  /** A connect call: the pass read its clock at `at` and made the call `lag` seconds later. */
  datatype Call = Call(peer: Peer, epoch: nat, attempt: nat, at: nat, lag: nat)
  datatype Event = Event(peer: Peer, status: Status)

  /** What one pass reads: the connected peers, the clock, whose stored address is malformed and
      whose connect call is answered. The clock is read once, `wait` seconds before the lock is
      held; `took[k]` seconds pass between the lock, or the turn before, and the point of turn k where
      its call is made. */
  datatype Reading = Reading(connected: set<Peer>, now: nat, malformed: set<Peer>, answered: set<Peer>, wait: nat,
                             took: seq<nat>)

  /** A pass under way: its copy in memory, the stored entries, the calls ever made, the effects it has
      left before it dies, and the turns it began. */
  datatype Pass = Pass(mem: seq<Entry>, stored: seq<Entry>, calls: seq<Call>, events: seq<Event>, effects: nat,
                       alive: bool, turns: nat)

  /** The seconds between reading the clock and the call of turn i. */
  function Lag(r: Reading, i: nat): (lag: nat)
    ensures lag >= r.wait
  {
    (if i == 0 then r.wait else Lag(r, i - 1)) + if i < |r.took| then r.took[i] else 0
  }

  function Moment(c: Call): nat {
    c.at + c.lag
  }

  function Delay(attempt: nat): nat {
    if attempt == 0 then 0 else BACKOFF * Pow2(attempt - 1)
  }

  function Reset(e: Entry): Entry {
    e.(attempts := 0, nextAt := 0, status := Some(Connected), epoch := e.epoch + 1)
  }

  function Begun(e: Entry, now: int): Entry {
    e.(attempts := e.attempts + 1, nextAt := now + Delay(e.attempts + 1), status := Some(Connecting))
  }

  function Answered(e: Entry, ok: bool): Entry {
    e.(status := Some(if ok then Requested else if e.attempts >= MAX_ATTEMPTS then NeedsReview else RetryWait))
  }

  predicate Due(e: Entry, r: Reading) {
    e.peer !in r.connected && e.attempts < MAX_ATTEMPTS && r.now >= e.nextAt
  }

  /** One attempt: the entry is stored, then the call is made, then its outcome is stored. */
  function Attempt(s: Pass, i: nat, r: Reading): Pass
    requires i < |s.mem|
  {
    var begun := Begun(s.mem[i], r.now);
    var mem := s.mem[i := begun];
    var calls := s.calls + [Call(begun.peer, begun.epoch, begun.attempts, r.now, Lag(r, i))];
    if s.effects == 0 then s.(alive := false)
    else if s.effects == 1 then s.(stored := mem, effects := 0, alive := false)
    else if s.effects == 2 then s.(stored := mem, calls := calls, effects := 0, alive := false)
    else
      var done := Answered(begun, begun.peer in r.answered);
      s.(mem := s.mem[i := done], stored := s.mem[i := done], calls := calls,
         events := s.events + [Event(done.peer, done.status.value)], effects := s.effects - 3)
  }

  function Turn(s: Pass, i: nat, r: Reading): Pass
    requires i < |s.mem|
  {
    if s.alive then Visit(s.(turns := i + 1), i, r) else s
  }

  function Visit(s: Pass, i: nat, r: Reading): Pass
    requires i < |s.mem|
  {
    var e := s.mem[i];
    if e.peer in r.malformed then s.(alive := false)
    else if e.peer in r.connected then
      s.(mem := s.mem[i := Reset(e)],
         events := if e.attempts > 0 then s.events + [Event(e.peer, Connected)] else s.events)
    else if e.attempts >= MAX_ATTEMPTS then
      if e.status != Some(NeedsReview) && r.now >= e.nextAt then
        s.(mem := s.mem[i := e.(status := Some(NeedsReview))], events := s.events + [Event(e.peer, NeedsReview)])
      else s
    else if r.now < e.nextAt then s
    else Attempt(s, i, r)
  }

  /** The pass after its first n entries. */
  function Turns(s: Pass, n: nat, r: Reading): (t: Pass)
    requires n <= |s.mem|
    ensures |t.mem| == |s.mem|
  {
    if n == 0 then s else Turn(Turns(s, n - 1, r), n - 1, r)
  }

  function Finish(s: Pass): Pass {
    if !s.alive then s
    else if s.effects == 0 then s.(alive := false)
    else s.(stored := s.mem, effects := s.effects - 1)
  }

  function WholePass(stored: seq<Entry>, calls: seq<Call>, r: Reading, effects: nat): Pass {
    Finish(Turns(Opening(stored, calls, effects), |stored|, r))
  }

  function Opening(stored: seq<Entry>, calls: seq<Call>, effects: nat): Pass {
    Pass(stored, stored, calls, [], effects, true, 0)
  }

  /** When the pass lets go of the lock: at its end, or where it died. */
  function Released(s: Pass, r: Reading): nat {
    r.now + Lag(r, s.turns)
  }

  lemma {:induction false} DeadStays(s: Pass, k: nat, n: nat, r: Reading)
    requires k <= n <= |s.mem| && !Turns(s, k, r).alive
    ensures Turns(s, n, r) == Turns(s, k, r)
    decreases n
  {
    if k < n { DeadStays(s, k, n - 1, r); }
  }

  /** The entry an accepted approval writes; approving again starts a new epoch. */
  function Approved(stored: seq<Entry>, p: Peer): seq<Entry> {
    if stored == [] then [Entry(p, 0, 0, None, 0)]
    else if stored[0].peer == p then [Entry(p, 0, 0, None, stored[0].epoch + 1)] + stored[1..]
    else [stored[0]] + Approved(stored[1..], p)
  }

  lemma {:induction false} ApprovedAt(stored: seq<Entry>, p: Peer, i: nat)
    requires i <= |stored| && forall k :: 0 <= k < i ==> stored[k].peer != p
    requires i < |stored| ==> stored[i].peer == p
    ensures Approved(stored, p) ==
            if i < |stored| then stored[..i] + [Entry(p, 0, 0, None, stored[i].epoch + 1)] + stored[i + 1..]
            else stored + [Entry(p, 0, 0, None, 0)]
  {
    if i > 0 {
      ApprovedAt(stored[1..], p, i - 1);
      assert stored == [stored[0]] + stored[1..];
    }
  }

  /** peers.json, and every connect call ever issued. */
  class PeerStore {
    var stored: seq<Entry>
    var calls: seq<Call>

    /** A malformed address or this node's own key is refused, and nothing is written. */
    method Approve(p: Peer, own: Peer, wellFormed: bool) returns (accepted: bool)
      modifies this
      ensures accepted <==> wellFormed && p != own
      ensures stored == (if accepted then Approved(old(stored), p) else old(stored)) && calls == old(calls)
      ensures forall free ::
                World(stored, calls, free) == Step(World(old(stored), old(calls), free), Approval(p, own, wellFormed))
    {
      if !wellFormed || p == own { return false; }
      var i := 0;
      while i < |stored| && stored[i].peer != p
        invariant 0 <= i <= |stored|
        invariant forall k :: 0 <= k < i ==> stored[k].peer != p
      {
        i := i + 1;
      }
      ApprovedAt(stored, p, i);
      if i < |stored| {
        stored := stored[..i] + [Entry(p, 0, 0, None, stored[i].epoch + 1)] + stored[i + 1..];
      } else {
        stored := stored + [Entry(p, 0, 0, None, 0)];
      }
      return true;
    }

    /** One attempt on entry i; None when the pass dies. */
    method TryPeer(mem: seq<Entry>, i: nat, r: Reading, effects: nat, events: seq<Event>)
      returns (next: Option<seq<Entry>>, told: seq<Event>, left: nat)
      requires i < |mem|
      modifies this
      ensures
        var p := Attempt(Pass(mem, old(stored), old(calls), events, effects, true, i + 1), i, r);
        && stored == p.stored && calls == p.calls && next == (if p.alive then Some(p.mem) else None)
        && (p.alive ==> told == p.events && left == p.effects)
    {
      next, told, left := None, events, effects;
      var e := Begun(mem[i], r.now);
      if left == 0 { return; }
      stored, left := mem[i := e], left - 1;
      if left == 0 { return; }
      calls, left := calls + [Call(e.peer, e.epoch, e.attempts, r.now, Lag(r, i))], left - 1;
      if left == 0 { return; }
      e := Answered(e, e.peer in r.answered);
      assert mem[i := Begun(mem[i], r.now)][i := e] == mem[i := e];
      told := told + [Event(e.peer, e.status.value)];
      stored, left, next := mem[i := e], left - 1, Some(mem[i := e]);
    }

    /** The source's loop over the approved peers. */
    method Reconnect(r: Reading, effects: nat) returns (events: Option<seq<Event>>)
      modifies this
      ensures
        var p := WholePass(old(stored), old(calls), r, effects);
        && stored == p.stored && calls == p.calls && events == if p.alive then Some(p.events) else None
    {
      ghost var start := Opening(stored, calls, effects);
      var mem, told, left := stored, [], effects;
      for i := 0 to |mem|
        invariant |mem| == |start.mem|
        invariant Turns(start, i, r) == Pass(mem, stored, calls, told, left, true, i)
      {
        var e := mem[i];
        if e.peer in r.malformed {
          DeadStays(start, i + 1, |mem|, r);
          return None;
        }
        if e.peer in r.connected {
          if e.attempts > 0 { told := told + [Event(e.peer, Connected)]; }
          mem := mem[i := Reset(e)];
          continue;
        }
        if e.attempts >= MAX_ATTEMPTS {
          if e.status != Some(NeedsReview) && r.now >= e.nextAt {
            mem, told := mem[i := e.(status := Some(NeedsReview))], told + [Event(e.peer, NeedsReview)];
          }
          continue;
        }
        if r.now < e.nextAt { continue; }
        var next;
        next, told, left := TryPeer(mem, i, r, left, told);
        if next.None? {
          DeadStays(start, i + 1, |mem|, r);
          return None;
        }
        mem := next.value;
      }
      if left == 0 { return None; }
      stored := mem;
      return Some(told);
    }
  }

  // ----- what the stored entries know of the calls -----

  /** The entry remembers at least as many attempts as calls were made in its epoch, and its backoff
      has not been forgotten; it is that of the entry's latest attempt. */
  ghost predicate Remembers(e: Entry, c: Call) {
    c.peer == e.peer ==>
      && c.epoch <= e.epoch
      && (c.epoch == e.epoch ==> c.attempt <= e.attempts && e.nextAt >= c.at + Delay(c.attempt))
      && (Latest(e, c) ==> e.nextAt == c.at + Delay(c.attempt))
  }

  /** The call of the entry's latest attempt. */
  predicate Latest(e: Entry, c: Call) {
    e.peer == c.peer && e.epoch == c.epoch && e.attempts == c.attempt
  }

  ghost predicate Numbered(calls: seq<Call>) {
    forall c :: c in calls ==> 1 <= c.attempt <= MAX_ATTEMPTS
  }

  ghost predicate AllRemembered(entries: seq<Entry>, calls: seq<Call>) {
    forall e, c :: e in entries && c in calls ==> Remembers(e, c)
  }

  ghost predicate Unique(entries: seq<Entry>) {
    forall i, j :: 0 <= i < j < |entries| ==> entries[i].peer != entries[j].peer
  }

  /** Calls of one epoch use ever larger attempt numbers, each after the backoff of the one before. */
  ghost predicate Spaced(calls: seq<Call>) {
    forall i, j :: 0 <= i < j < |calls| && calls[i].peer == calls[j].peer && calls[i].epoch == calls[j].epoch ==>
      calls[i].attempt < calls[j].attempt && calls[j].at >= calls[i].at + Delay(calls[i].attempt)
  }

  ghost function Peers(entries: seq<Entry>): set<Peer> {
    set i | 0 <= i < |entries| :: entries[i].peer
  }

  ghost predicate Inv(entries: seq<Entry>, calls: seq<Call>) {
    && Numbered(calls) && AllRemembered(entries, calls) && Spaced(calls) && Unique(entries)
    && forall c :: c in calls ==> c.peer in Peers(entries)
  }

  lemma SamePeers(entries: seq<Entry>, i: nat, e: Entry)
    requires i < |entries| && e.peer == entries[i].peer
    ensures Peers(entries[i := e]) == Peers(entries)
  {
    forall p | p in Peers(entries) ensures p in Peers(entries[i := e]) {
      var k :| 0 <= k < |entries| && entries[k].peer == p;
      assert entries[i := e][k].peer == p;
    }
  }

  lemma UpdateKeeps(entries: seq<Entry>, calls: seq<Call>, i: nat, e: Entry)
    requires Inv(entries, calls) && i < |entries| && e.peer == entries[i].peer
    requires e.epoch > entries[i].epoch
          || (e.epoch == entries[i].epoch && e.attempts == entries[i].attempts && e.nextAt == entries[i].nextAt)
          || (e.epoch == entries[i].epoch && e.attempts > entries[i].attempts && e.nextAt >= entries[i].nextAt)
    ensures Inv(entries[i := e], calls) && Peers(entries[i := e]) == Peers(entries)
  {
    forall d, c | d in entries[i := e] && c in calls ensures Remembers(d, c) {
      assert Remembers(entries[i], c);
    }
    SamePeers(entries, i, e);
  }

  lemma CallKeeps(entries: seq<Entry>, calls: seq<Call>, i: nat, now: nat, lag: nat)
    requires Inv(entries, calls) && i < |entries| && entries[i].attempts < MAX_ATTEMPTS && now >= entries[i].nextAt
    ensures
      var e := Begun(entries[i], now);
      Inv(entries[i := e], calls + [Call(e.peer, e.epoch, e.attempts, now, lag)])
  {
    var e := Begun(entries[i], now);
    var c := Call(e.peer, e.epoch, e.attempts, now, lag);
    UpdateKeeps(entries, calls, i, e);
    assert entries[i].peer in Peers(entries);
    forall d, b | d in entries[i := e] && b in calls + [c] ensures Remembers(d, b) {
      if b == c && b !in calls {
        var k :| 0 <= k < |entries| && entries[i := e][k] == d;
      }
    }
    forall k, m | 0 <= k < m < |calls + [c]| && (calls + [c])[k].peer == (calls + [c])[m].peer
                  && (calls + [c])[k].epoch == (calls + [c])[m].epoch
      ensures (calls + [c])[k].attempt < (calls + [c])[m].attempt
      ensures (calls + [c])[m].at >= (calls + [c])[k].at + Delay((calls + [c])[k].attempt)
    {
      if m == |calls| { assert Remembers(entries[i], calls[k]); }
    }
  }

  /** What a pass keeps true of its copy and of the file, wherever it dies. */
  ghost predicate PassInv(s: Pass) {
    && Inv(s.stored, s.calls)
    && (s.alive ==> Inv(s.mem, s.calls) && Peers(s.mem) == Peers(s.stored))
  }

  lemma AttemptKeeps(s: Pass, i: nat, r: Reading)
    requires PassInv(s) && s.alive && i < |s.mem| && Due(s.mem[i], r)
    ensures PassInv(Attempt(s, i, r))
  {
    var begun := Begun(s.mem[i], r.now);
    var calls := s.calls + [Call(begun.peer, begun.epoch, begun.attempts, r.now, Lag(r, i))];
    UpdateKeeps(s.mem, s.calls, i, begun);
    CallKeeps(s.mem, s.calls, i, r.now, Lag(r, i));
    var done := Answered(begun, begun.peer in r.answered);
    UpdateKeeps(s.mem[i := begun], calls, i, done);
    assert s.mem[i := begun][i := done] == s.mem[i := done];
  }

  lemma TurnKeeps(s: Pass, i: nat, r: Reading)
    requires PassInv(s) && i < |s.mem|
    ensures PassInv(Turn(s, i, r))
  {
    if s.alive {
      var e := s.mem[i];
      if Due(e, r) && e.peer !in r.malformed {
        AttemptKeeps(s.(turns := i + 1), i, r);
      } else {
        var e' := if e.peer in r.connected then Reset(e) else e.(status := Some(NeedsReview));
        UpdateKeeps(s.mem, s.calls, i, e');
      }
    }
  }

  lemma {:induction false} TurnsKeep(s: Pass, n: nat, r: Reading)
    requires PassInv(s) && n <= |s.mem|
    ensures PassInv(Turns(s, n, r))
  {
    if n > 0 {
      TurnsKeep(s, n - 1, r);
      TurnKeeps(Turns(s, n - 1, r), n - 1, r);
    }
  }

  lemma {:induction false} ApprovedIs(stored: seq<Entry>, p: Peer)
    ensures
      var next := Approved(stored, p);
      && |next| >= |stored|
      && (forall i :: 0 <= i < |stored| && stored[i].peer != p ==> next[i] == stored[i])
      && (p in Peers(stored) && Unique(stored) ==>
            && |next| == |stored|
            && forall i :: 0 <= i < |stored| && stored[i].peer == p ==>
                next[i] == Entry(p, 0, 0, None, stored[i].epoch + 1))
      && (p !in Peers(stored) ==> next == stored + [Entry(p, 0, 0, None, 0)])
  {
    if stored != [] && stored[0].peer != p {
      ApprovedIs(stored[1..], p);
      forall q | q in Peers(stored) && q != stored[0].peer ensures q in Peers(stored[1..]) {
        var i :| 0 <= i < |stored| && stored[i].peer == q;
        assert stored[1..][i - 1].peer == q;
      }
      forall q | q in Peers(stored[1..]) ensures q in Peers(stored) {
        var i :| 0 <= i < |stored[1..]| && stored[1..][i].peer == q;
        assert stored[i + 1].peer == q;
      }
    } else if stored != [] {
      assert stored[0].peer in Peers(stored);
    }
  }

  lemma ApproveKeeps(stored: seq<Entry>, calls: seq<Call>, p: Peer)
    requires Inv(stored, calls)
    ensures Inv(Approved(stored, p), calls)
  {
    ApprovedIs(stored, p);
    var next := Approved(stored, p);
    if p in Peers(stored) {
      var i :| 0 <= i < |stored| && stored[i].peer == p;
      assert next == stored[i := Entry(p, 0, 0, None, stored[i].epoch + 1)];
      UpdateKeeps(stored, calls, i, next[i]);
    } else {
      forall q | q in Peers(stored) ensures q in Peers(next) {
        var i :| 0 <= i < |stored| && stored[i].peer == q;
        assert next[i].peer == q;
      }
      forall i | 0 <= i < |stored| ensures stored[i].peer != p { assert stored[i].peer in Peers(stored); }
    }
  }

  // ----- whole runs -----

  datatype Action = Approval(p: Peer, own: Peer, wellFormed: bool) | PassOf(r: Reading, effects: nat)

  /** The stored entries, every call made, and when the lock was last let go. */
  datatype World = World(stored: seq<Entry>, calls: seq<Call>, free: nat)

  /** A pass that finds the lock held gives up at once. */
  function Step(w: World, a: Action): World {
    match a
    case Approval(p, own, wellFormed) => if wellFormed && p != own then w.(stored := Approved(w.stored, p)) else w
    case PassOf(r, effects) =>
      if r.now + r.wait < w.free then w
      else
        var s := WholePass(w.stored, w.calls, r, effects);
        World(s.stored, s.calls, Released(s, r))
  }

  const START := World([], [], 0)

  ghost function Run(actions: seq<Action>): World {
    Fold(Step, START, actions)
  }

  lemma StepKeeps(w: World, a: Action)
    requires Inv(w.stored, w.calls)
    ensures Inv(Step(w, a).stored, Step(w, a).calls)
  {
    match a
    case Approval(p, own, wellFormed) => ApproveKeeps(w.stored, w.calls, p);
    case PassOf(r, effects) => TurnsKeep(Opening(w.stored, w.calls, effects), |w.stored|, r);
  }

  lemma {:induction false} RunKeeps(actions: seq<Action>)
    ensures Inv(Run(actions).stored, Run(actions).calls)
  {
    if actions != [] {
      RunKeeps(actions[..|actions| - 1]);
      StepKeeps(Run(actions[..|actions| - 1]), actions[|actions| - 1]);
    }
  }

  /** Calls to one peer between two resets of its entry. */
  function CallCount(calls: seq<Call>, p: Peer, epoch: nat): nat {
    if calls == [] then 0
    else
      var c := calls[|calls| - 1];
      CallCount(calls[..|calls| - 1], p, epoch) + if c.peer == p && c.epoch == epoch then 1 else 0
  }

  lemma {:induction false} CountBound(calls: seq<Call>, p: Peer, epoch: nat, bound: nat)
    requires Numbered(calls) && Spaced(calls)
    requires forall i :: 0 <= i < |calls| && calls[i].peer == p && calls[i].epoch == epoch ==> calls[i].attempt <= bound
    ensures CallCount(calls, p, epoch) <= bound
  {
    if calls != [] {
      var n := |calls| - 1;
      var c := calls[n];
      assert forall i :: 0 <= i < n ==> calls[..n][i] == calls[i];
      if c.peer == p && c.epoch == epoch {
        assert c in calls;
        CountBound(calls[..n], p, epoch, c.attempt - 1);
      } else {
        CountBound(calls[..n], p, epoch, bound);
      }
    }
  }

  /** In every run, whatever dies where: at most three connect calls per peer between two stored
      resets; after the call of attempt k the next is decided no sooner than its backoff after the
      clock reading behind call k, and made no sooner than the backoff less the lag of call k. */
  lemma CallsAreBounded(actions: seq<Action>)
    ensures forall p, epoch :: CallCount(Run(actions).calls, p, epoch) <= MAX_ATTEMPTS
    ensures
      var calls := Run(actions).calls;
      forall i, j :: 0 <= i < j < |calls| && calls[i].peer == calls[j].peer && calls[i].epoch == calls[j].epoch ==>
        && 1 <= calls[i].attempt < calls[j].attempt <= 3
        && calls[j].at >= calls[i].at + 10 * Pow2(calls[i].attempt - 1)
        && Moment(calls[j]) >= Moment(calls[i]) + 10 * Pow2(calls[i].attempt - 1) - calls[i].lag
  {
    RunKeeps(actions);
    var calls := Run(actions).calls;
    forall p, epoch ensures CallCount(calls, p, epoch) <= MAX_ATTEMPTS {
      CountBound(calls, p, epoch, MAX_ATTEMPTS);
    }
    forall i, j | 0 <= i < j < |calls| && calls[i].peer == calls[j].peer && calls[i].epoch == calls[j].epoch
      ensures 1 <= calls[i].attempt < calls[j].attempt <= 3
      ensures calls[j].at >= calls[i].at + 10 * Pow2(calls[i].attempt - 1)
    {
      assert calls[i] in calls && calls[j] in calls;
    }
  }

  // ----- calls in time -----

  lemma {:induction false} LagsGrow(r: Reading, i: nat, j: nat)
    requires i <= j
    ensures Lag(r, i) <= Lag(r, j)
  {
    if i < j { LagsGrow(r, i, j - 1); }
  }

  /** The calls were made one after the other, none after the lock was let go. */
  ghost predicate InOrder(calls: seq<Call>, free: nat) {
    && (forall i, j :: 0 <= i < j < |calls| ==> Moment(calls[i]) <= Moment(calls[j]))
    && (forall i :: 0 <= i < |calls| ==> Moment(calls[i]) <= free)
  }

  lemma TurnKeepsOrder(s: Pass, i: nat, r: Reading)
    requires i < |s.mem| && s.turns <= i && (s.alive ==> s.turns == i) && InOrder(s.calls, Released(s, r))
    ensures
      var t := Turn(s, i, r);
      t.turns <= i + 1 && (t.alive ==> t.turns == i + 1) && InOrder(t.calls, Released(t, r))
  {
    LagsGrow(r, i, i + 1);
  }

  lemma {:induction false} TurnsKeepOrder(s: Pass, n: nat, r: Reading)
    requires s.turns == 0 && s.alive && n <= |s.mem| && InOrder(s.calls, r.now + Lag(r, 0))
    ensures
      var t := Turns(s, n, r);
      t.turns <= n && (t.alive ==> t.turns == n) && InOrder(t.calls, Released(t, r))
  {
    if n > 0 {
      TurnsKeepOrder(s, n - 1, r);
      TurnKeepsOrder(Turns(s, n - 1, r), n - 1, r);
    }
  }

  /** In every run the calls follow one another in real time, and all lie behind the last release of the
      lock. */
  lemma {:induction false} CallsInTimeOrder(actions: seq<Action>)
    ensures InOrder(Run(actions).calls, Run(actions).free)
  {
    if actions != [] {
      var w, a := Run(actions[..|actions| - 1]), actions[|actions| - 1];
      CallsInTimeOrder(actions[..|actions| - 1]);
      if a.PassOf? && a.r.now + a.r.wait >= w.free {
        TurnsKeepOrder(Opening(w.stored, w.calls, a.effects), |w.stored|, a.r);
      }
    }
  }

  // ----- a pass that is not cut short -----

  /** What one uninterrupted pass makes of one entry, on its own. */
  function Outcome(e: Entry, r: Reading): Entry {
    if e.peer in r.connected then Reset(e)
    else if e.attempts >= MAX_ATTEMPTS then if r.now >= e.nextAt then e.(status := Some(NeedsReview)) else e
    else if r.now < e.nextAt then e
    else Answered(Begun(e, r.now), e.peer in r.answered)
  }

  /** The call of turn i, if the entry is due. */
  function DueCall(e: Entry, r: Reading, i: nat): seq<Call> {
    if Due(e, r) then [Call(e.peer, e.epoch, e.attempts + 1, r.now, Lag(r, i))] else []
  }

  /** The calls of one uninterrupted pass: one for each due entry, in order. */
  function DueCalls(entries: seq<Entry>, r: Reading): seq<Call> {
    if entries == [] then []
    else
      var n := |entries| - 1;
      DueCalls(entries[..n], r) + DueCall(entries[n], r, n)
  }

  lemma DueCallsGrow(entries: seq<Entry>, n: nat, r: Reading)
    requires n < |entries|
    ensures DueCalls(entries[..n + 1], r) == DueCalls(entries[..n], r) + DueCall(entries[n], r, n)
  {
    assert entries[..n + 1][..n] == entries[..n];
  }

  lemma TurnIsOutcome(s: Pass, i: nat, r: Reading)
    requires s.alive && i < |s.mem| && s.effects > 3 && s.mem[i].peer !in r.malformed
    ensures
      var t, e := Turn(s, i, r), s.mem[i];
      && t.alive && t.effects >= s.effects - 3 && t.turns == i + 1 && t.mem == s.mem[i := Outcome(e, r)]
      && t.calls == s.calls + DueCall(e, r, i)
  {
    assert s.mem[i := s.mem[i]] == s.mem;
  }

  function Outcomes(stored: seq<Entry>, r: Reading): seq<Entry> {
    seq(|stored|, i requires 0 <= i < |stored| => Outcome(stored[i], r))
  }

  /** The copy in memory after n turns. */
  function After(stored: seq<Entry>, r: Reading, n: nat): seq<Entry>
    requires n <= |stored|
  {
    Outcomes(stored[..n], r) + stored[n..]
  }

  lemma AfterGrows(stored: seq<Entry>, r: Reading, n: nat)
    requires n < |stored|
    ensures After(stored, r, n)[n] == stored[n]
    ensures After(stored, r, n)[n := Outcome(stored[n], r)] == After(stored, r, n + 1)
  {
  }

  /** A pass that lives and meets no malformed address treats every entry by itself, stores all
      outcomes and calls exactly the due peers. */
  lemma {:induction false} TurnsArePointwise(stored: seq<Entry>, calls: seq<Call>, r: Reading, effects: nat, n: nat)
    requires n <= |stored| && effects > 3 * n
    requires forall e :: e in stored ==> e.peer !in r.malformed
    ensures
      var s := Turns(Opening(stored, calls, effects), n, r);
      && s.alive && s.effects >= effects - 3 * n && s.turns == n && s.calls == calls + DueCalls(stored[..n], r)
      && s.mem == After(stored, r, n)
  {
    if n == 0 {
      assert calls + [] == calls && Outcomes([], r) + stored == stored;
    } else {
      TurnsArePointwise(stored, calls, r, effects, n - 1);
      AfterGrows(stored, r, n - 1);
      assert stored[n - 1] in stored;
      TurnIsOutcome(Turns(Opening(stored, calls, effects), n - 1, r), n - 1, r);
      DueCallsGrow(stored, n - 1, r);
    }
  }

  lemma FullPassCallsDue(stored: seq<Entry>, calls: seq<Call>, r: Reading, effects: nat)
    requires effects > 3 * |stored|
    requires forall e :: e in stored ==> e.peer !in r.malformed
    ensures
      var s := WholePass(stored, calls, r, effects);
      && s.alive && s.calls == calls + DueCalls(stored, r) && s.stored == Outcomes(stored, r)
      && Released(s, r) == r.now + Lag(r, |stored|)
  {
    TurnsArePointwise(stored, calls, r, effects, |stored|);
    assert stored[..|stored|] == stored;
  }

  lemma {:induction false} DueIsCalled(entries: seq<Entry>, r: Reading, i: nat)
    requires i < |entries| && Due(entries[i], r)
    ensures Call(entries[i].peer, entries[i].epoch, entries[i].attempts + 1, r.now, Lag(r, i)) in DueCalls(entries, r)
  {
    if i < |entries| - 1 {
      DueIsCalled(entries[..|entries| - 1], r, i);
    }
  }

  /** An observed connection gives the whole budget back: the next pass that misses the peer calls it at
      once, as attempt one of a new epoch. */
  lemma ConnectionRestoresBudget(stored: seq<Entry>, calls: seq<Call>, r: Reading, r': Reading, effects: nat, i: nat)
    requires i < |stored| && effects > 3 * |stored|
    requires forall e :: e in stored ==> e.peer !in r.malformed && e.peer !in r'.malformed
    requires stored[i].peer in r.connected && stored[i].peer !in r'.connected
    ensures
      var first := WholePass(stored, calls, r, effects);
      var second := WholePass(first.stored, first.calls, r', effects);
      Call(stored[i].peer, stored[i].epoch + 1, 1, r'.now, Lag(r', i)) in second.calls
  {
    FullPassCallsDue(stored, calls, r, effects);
    DuePeerIsCalled(Outcomes(stored, r), calls + DueCalls(stored, r), r', effects, i);
  }

  lemma DuePeerIsCalled(stored: seq<Entry>, calls: seq<Call>, r: Reading, effects: nat, i: nat)
    requires i < |stored| && effects > 3 * |stored| && Due(stored[i], r)
    requires forall e :: e in stored ==> e.peer !in r.malformed
    ensures Call(stored[i].peer, stored[i].epoch, stored[i].attempts + 1, r.now, Lag(r, i))
            in WholePass(stored, calls, r, effects).calls
  {
    FullPassCallsDue(stored, calls, r, effects);
    DueIsCalled(stored, r, i);
  }

  /** What one uninterrupted pass leaves of one entry, by its own fields: an observed connection forgets every
      attempt; a peer out of attempts is put to review once its last backoff is over; one that is due has one
      attempt more, its next one after ten seconds times two for each attempt before, and the outcome of its call;
      any other is left alone. */
  lemma OutcomeIsExact(e: Entry, r: Reading)
    ensures
      var after := Outcome(e, r);
      if e.peer in r.connected then after == Entry(e.peer, 0, 0, Some(Connected), e.epoch + 1)
      else if r.now < e.nextAt then after == e
      else if e.attempts >= 3 then after == e.(status := Some(NeedsReview))
      else
        after == Entry(e.peer, e.attempts + 1, r.now + 10 * Pow2(e.attempts),
                       Some(if e.peer in r.answered then Requested
                            else if e.attempts == 2 then NeedsReview else RetryWait), e.epoch)
    ensures Due(e, r) <==> e.peer !in r.connected && e.attempts < 3 && r.now >= e.nextAt
  {
  }

  /** The announcements of a pass: a connection that ends earlier attempts, each call's outcome, and a review the
      first time it is needed. */
  ghost function Told(e: Entry, r: Reading): seq<Event> {
    if e.peer in r.connected then (if e.attempts > 0 then [Event(e.peer, Connected)] else [])
    else if r.now < e.nextAt then []
    else if e.attempts >= 3 then (if e.status != Some(NeedsReview) then [Event(e.peer, NeedsReview)] else [])
    else [Event(e.peer, Outcome(e, r).status.value)]
  }

  lemma TurnTells(s: Pass, i: nat, r: Reading)
    requires s.alive && i < |s.mem| && s.effects > 3 && s.mem[i].peer !in r.malformed
    ensures Turn(s, i, r).events == s.events + Told(s.mem[i], r)
  {
  }

  ghost function AllTold(entries: seq<Entry>, r: Reading): seq<Event> {
    if entries == [] then [] else AllTold(entries[..|entries| - 1], r) + Told(entries[|entries| - 1], r)
  }

  /** An uninterrupted pass announces exactly these, in order. */
  lemma {:induction false} TurnsTell(stored: seq<Entry>, calls: seq<Call>, r: Reading, effects: nat, n: nat)
    requires n <= |stored| && effects > 3 * n
    requires forall e :: e in stored ==> e.peer !in r.malformed
    ensures Turns(Opening(stored, calls, effects), n, r).events == AllTold(stored[..n], r)
  {
    if n > 0 {
      TurnsTell(stored, calls, r, effects, n - 1);
      TurnsArePointwise(stored, calls, r, effects, n - 1);
      AfterGrows(stored, r, n - 1);
      assert stored[n - 1] in stored && stored[..n][..n - 1] == stored[..n - 1];
      TurnTells(Turns(Opening(stored, calls, effects), n - 1, r), n - 1, r);
    }
  }

  /** Where one attempt is cut: before anything; once the attempt is stored; once the call is made, too; and after its
      outcome is stored the pass goes on. */
  lemma AttemptEnds(s: Pass, i: nat, r: Reading)
    requires s.alive && i < |s.mem| && s.mem[i].peer !in r.malformed && Due(s.mem[i], r)
    ensures
      var e, t := s.mem[i], Turn(s, i, r);
      var begun := Entry(e.peer, e.attempts + 1, r.now + 10 * Pow2(e.attempts), Some(Connecting), e.epoch);
      && (t.alive <==> s.effects >= 3) && t.effects == (if s.effects >= 3 then s.effects - 3 else 0)
      && t.stored == (if s.effects == 0 then s.stored
                      else if s.effects < 3 then s.mem[i := begun] else s.mem[i := Outcome(e, r)])
      && t.calls == (if s.effects < 2 then s.calls
                     else s.calls + [Call(e.peer, e.epoch, e.attempts + 1, r.now, Lag(r, i))])
      && (t.alive ==> t.mem == t.stored)
  {
  }

  /** At its end a pass that still lives rewrites the file once more, if it gets to. */
  lemma FinishEnds(s: Pass)
    requires s.alive
    ensures Finish(s).stored == (if s.effects >= 1 then s.mem else s.stored) && Finish(s).calls == s.calls
    ensures Finish(s).alive <==> s.effects >= 1
  {
  }

  /** A malformed stored address ends the pass there: nothing more is called, and the file is not rewritten. */
  lemma MalformedEnds(s: Pass, i: nat, r: Reading)
    requires s.alive && i < |s.mem| && s.mem[i].peer in r.malformed
    ensures
      var t := Turn(s, i, r);
      !t.alive && t.stored == s.stored && t.calls == s.calls && Finish(t) == t
  {
  }

  // ----- which calls keep their backoff -----

  /** What a pass adds: calls decided on its clock reading, made once it holds the lock. */
  ghost predicate AddsFrom(calls: seq<Call>, calls': seq<Call>, moment: nat) {
    calls <= calls' && forall j :: |calls| <= j < |calls'| ==> Moment(calls'[j]) >= moment
  }

  lemma {:induction false} TurnsAdd(s: Pass, n: nat, r: Reading)
    requires n <= |s.mem|
    ensures AddsFrom(s.calls, Turns(s, n, r).calls, r.now + r.wait)
  {
    if n > 0 { TurnsAdd(s, n - 1, r); }
  }

  lemma {:induction false} LaterCalls(w: World, later: seq<Action>)
    ensures AddsFrom(w.calls, Fold(Step, w, later).calls, w.free) && w.free <= Fold(Step, w, later).free
  {
    if later != [] {
      var n := |later| - 1;
      var before := Fold(Step, w, later[..n]);
      LaterCalls(w, later[..n]);
      if later[n].PassOf? && later[n].r.now + later[n].r.wait >= before.free {
        TurnsAdd(Opening(before.stored, before.calls, later[n].effects), |before.stored|, later[n].r);
      }
    }
  }

  /** No later call of the same peer and epoch comes sooner than this call's backoff after it. */
  ghost predicate KeepsBackoff(calls: seq<Call>, i: nat)
    requires i < |calls|
  {
    forall j :: i < j < |calls| && calls[j].peer == calls[i].peer && calls[j].epoch == calls[i].epoch ==>
      Moment(calls[j]) >= Moment(calls[i]) + Delay(calls[i].attempt)
  }

  ghost predicate KeepsBackoffLater(actions: seq<Action>, i: nat)
    requires i < |Run(actions).calls|
  {
    forall later {:trigger Run(actions + later)} ::
      i < |Run(actions + later).calls| && KeepsBackoff(Run(actions + later).calls, i)
  }

  /** The call was the last allowed, or was made with no lag, or its pass, or a later one, held the lock
      for the whole backoff. */
  predicate Safe(w: World, c: Call) {
    c.attempt >= MAX_ATTEMPTS || c.lag == 0 || w.free >= Moment(c) + Delay(c.attempt)
  }

  /** Entry k stands at the attempt of call j, in the file and, while the pass lives, in its copy. */
  ghost predicate StandsAt(s: Pass, k: nat, j: nat)
    requires |s.mem| == |s.stored| && k < |s.mem| && j < |s.calls|
  {
    Latest(s.stored[k], s.calls[j]) && (s.alive ==> Latest(s.mem[k], s.calls[j]))
  }

  lemma {:induction false} TurnsCallLatest(stored: seq<Entry>, calls: seq<Call>, effects: nat, n: nat, r: Reading,
                                           j: nat)
    returns (k: nat)
    requires n <= |stored| && |calls| <= j < |Turns(Opening(stored, calls, effects), n, r).calls|
    ensures
      var t := Turns(Opening(stored, calls, effects), n, r);
      |t.mem| == |t.stored| == |stored| && k < n && StandsAt(t, k, j)
  {
    var s := Turns(Opening(stored, calls, effects), n - 1, r);
    TurnsKeepSize(stored, calls, effects, n - 1, r);
    if j < |s.calls| {
      k := TurnsCallLatest(stored, calls, effects, n - 1, r, j);
      TurnLeavesOthers(s, n - 1, r, k, j);
    } else {
      k := n - 1;
    }
  }

  lemma TurnLeavesOthers(s: Pass, i: nat, r: Reading, k: nat, j: nat)
    requires |s.mem| == |s.stored| && k < i < |s.mem| && j < |s.calls| && StandsAt(s, k, j)
    ensures
      var t := Turn(s, i, r);
      |t.mem| == |t.stored| == |s.mem| && j < |t.calls| && StandsAt(t, k, j)
  {
  }

  lemma {:induction false} TurnsKeepSize(stored: seq<Entry>, calls: seq<Call>, effects: nat, n: nat, r: Reading)
    requires n <= |stored|
    ensures |Turns(Opening(stored, calls, effects), n, r).stored| == |stored|
  {
    if n > 0 { TurnsKeepSize(stored, calls, effects, n - 1, r); }
  }

  /** When a pass ends or dies, each call it made is the latest attempt of its entry. */
  lemma NewCallIsLatest(actions: seq<Action>, r: Reading, effects: nat, i: nat) returns (k: nat)
    requires |Run(actions).calls| <= i < |Run(actions + [PassOf(r, effects)]).calls|
    ensures k < |Run(actions + [PassOf(r, effects)]).stored|
    ensures Latest(Run(actions + [PassOf(r, effects)]).stored[k], Run(actions + [PassOf(r, effects)]).calls[i])
  {
    var w := Run(actions);
    FoldSnoc(Step, START, actions, PassOf(r, effects));
    k := TurnsCallLatest(w.stored, w.calls, effects, |w.stored|, r, i);
  }

  /** Exactly which calls keep their full backoff, whatever passes, approvals and crashes follow: by
      NewCallIsLatest this speaks of every call from the moment its pass is over. */
  lemma BackoffKeptExactly(actions: seq<Action>, i: nat, k: nat)
    requires i < |Run(actions).calls| && k < |Run(actions).stored|
    requires Latest(Run(actions).stored[k], Run(actions).calls[i])
    ensures KeepsBackoffLater(actions, i) <==> Safe(Run(actions), Run(actions).calls[i])
  {
    var w := Run(actions);
    if Safe(w, w.calls[i]) {
      forall later {:trigger Run(actions + later)}
        ensures i < |Run(actions + later).calls| && KeepsBackoff(Run(actions + later).calls, i)
      {
        SafeIsKept(actions, i, k, later);
      }
    } else {
      var later := SoonestPass(actions, i, k);
    }
  }

  lemma LatestIsLast(w: World, i: nat, k: nat, j: nat)
    requires Inv(w.stored, w.calls) && i < j < |w.calls| && k < |w.stored| && Latest(w.stored[k], w.calls[i])
    ensures w.calls[j].peer != w.calls[i].peer || w.calls[j].epoch != w.calls[i].epoch
  {
    var e, c := w.stored[k], w.calls[j];
    assert e in w.stored && c in w.calls;
  }

  lemma SafeIsKept(actions: seq<Action>, i: nat, k: nat, later: seq<Action>)
    requires i < |Run(actions).calls| && k < |Run(actions).stored|
    requires Latest(Run(actions).stored[k], Run(actions).calls[i]) && Safe(Run(actions), Run(actions).calls[i])
    ensures i < |Run(actions + later).calls| && KeepsBackoff(Run(actions + later).calls, i)
  {
    var w, calls := Run(actions), Run(actions + later).calls;
    RunKeeps(actions);
    CallsAreBounded(actions + later);
    FoldAppend(Step, START, actions, later);
    LaterCalls(w, later);
    assert calls[i] == w.calls[i];
    forall j | i < j < |calls| && calls[j].peer == calls[i].peer && calls[j].epoch == calls[i].epoch
      ensures Moment(calls[j]) >= Moment(calls[i]) + Delay(calls[i].attempt)
    {
      if j < |w.calls| { LatestIsLast(w, i, k, j); }
    }
  }

  /** The continuation that comes too soon: one prompt pass at the first moment allowed. */
  lemma SoonestPass(actions: seq<Action>, i: nat, k: nat) returns (later: seq<Action>)
    requires i < |Run(actions).calls| && k < |Run(actions).stored|
    requires Latest(Run(actions).stored[k], Run(actions).calls[i]) && !Safe(Run(actions), Run(actions).calls[i])
    ensures i < |Run(actions + later).calls| && !KeepsBackoff(Run(actions + later).calls, i)
  {
    var w := Run(actions);
    var c, e := w.calls[i], w.stored[k];
    RunKeeps(actions);
    assert e in w.stored && c in w.calls && Remembers(e, c);
    var r := Prompt(Max(e.nextAt, w.free));
    var longer := OneMorePass(actions, r);
    later := [PassOf(r, 3 * |w.stored| + 1)];
    DueIsCalled(w.stored, r, k);
    NoLag(r, k);
    ComesTooSoon(Run(longer).calls, i, |w.calls|, Call(e.peer, e.epoch, e.attempts + 1, r.now, 0));
  }

  lemma ComesTooSoon(calls: seq<Call>, i: nat, n: nat, d: Call)
    requires i < n <= |calls| && d in calls[n..] && d.peer == calls[i].peer && d.epoch == calls[i].epoch
    requires Moment(d) < Moment(calls[i]) + Delay(calls[i].attempt)
    ensures !KeepsBackoff(calls, i)
  {
    var j :| 0 <= j < |calls[n..]| && calls[n..][j] == d;
    assert calls[n + j] == d;
  }

  /** A pass with nobody connected, no malformed address and no delay. */
  function Prompt(now: nat): Reading {
    Reading({}, now, {}, {}, 0, [])
  }

  /** One more pass that gets the lock and lives. */
  lemma OneMorePass(actions: seq<Action>, r: Reading) returns (longer: seq<Action>)
    requires r.now + r.wait >= Run(actions).free && r.malformed == {}
    ensures longer == actions + [PassOf(r, 3 * |Run(actions).stored| + 1)]
    ensures Run(longer).calls == Run(actions).calls + DueCalls(Run(actions).stored, r)
    ensures Run(longer).stored == Outcomes(Run(actions).stored, r)
    ensures Run(longer).free == r.now + Lag(r, |Run(actions).stored|)
  {
    var w, a := Run(actions), PassOf(r, 3 * |Run(actions).stored| + 1);
    longer := actions + [a];
    FoldSnoc(Step, START, actions, a);
    FullPassCallsDue(w.stored, w.calls, r, a.effects);
  }

  lemma {:induction false} NoLag(r: Reading, i: nat)
    requires r.wait == 0 && r.took == []
    ensures Lag(r, i) == 0
  {
    if i > 0 { NoLag(r, i - 1); }
  }

  /** Two unreachable peers and passes at 0, 40 and 80. In the second the first peer's call runs to its
      thirty-second timeout, so the second peer is called at 70 and again at 80, where its backoff is 20. */
  lemma LateCallShortensBackoff() returns (actions: seq<Action>)
    ensures
      var calls := Run(actions).calls;
      && |calls| == 6 && calls[3] == Call(1, 0, 2, 40, 30) && calls[5] == Call(1, 0, 3, 80, 0)
      && Moment(calls[5]) == Moment(calls[3]) + 10 && Delay(calls[3].attempt) == 20
  {
    actions := [Approval(0, 2, true), Approval(1, 2, true)];
    TwoApprovals(actions);
    var first, second, third := Prompt(0), Prompt(40).(took := [0, 30]), Prompt(80);
    NoLag(first, 2);
    NoLag(third, 1);
    assert Lag(second, 0) == 0 && Lag(second, 1) == 30 && Lag(second, 2) == 30;
    actions := BothUnanswered(actions, 0, 0, first);
    actions := BothUnanswered(actions, 1, 0, second);
    actions := BothUnanswered(actions, 2, 40, third);
  }

  /** The entry of a peer that has never answered, after n attempts, the last decided at the clock `at`. */
  function Unanswered(p: Peer, n: nat, at: nat): Entry {
    if n == 0 then Entry(p, 0, 0, None, 0)
    else Entry(p, n, at + Delay(n), Some(if n >= MAX_ATTEMPTS then NeedsReview else RetryWait), 0)
  }

  lemma TwoApprovals(approvals: seq<Action>)
    requires approvals == [Approval(0, 2, true), Approval(1, 2, true)]
    ensures Run(approvals) == World([Unanswered(0, 0, 0), Unanswered(1, 0, 0)], [], 0)
  {
    var w, a := START, Unanswered(0, 0, 0);
    FoldSnoc(Step, w, [], approvals[0]);
    FoldSnoc(Step, w, [approvals[0]], approvals[1]);
    assert [] + [approvals[0]] == [approvals[0]] && [approvals[0]] + [approvals[1]] == approvals;
    assert Approved([], 0) == [a];
    assert [a][1..] == [] && Approved([a], 1) == [a] + Approved([], 1);
  }

  /** One more whole pass over the two peers, both due and neither answering. */
  lemma BothUnanswered(actions: seq<Action>, n: nat, at: nat, r: Reading) returns (longer: seq<Action>)
    requires n < 3 && Run(actions).stored == [Unanswered(0, n, at), Unanswered(1, n, at)]
    requires r.now >= Unanswered(0, n, at).nextAt && r.now + r.wait >= Run(actions).free
    requires r.connected == r.malformed == r.answered == {}
    ensures Run(longer).stored == [Unanswered(0, n + 1, r.now), Unanswered(1, n + 1, r.now)]
    ensures Run(longer).free == r.now + Lag(r, 2)
    ensures Run(longer).calls
            == Run(actions).calls + [Call(0, 0, n + 1, r.now, Lag(r, 0)), Call(1, 0, n + 1, r.now, Lag(r, 1))]
  {
    longer := OneMorePass(actions, r);
    CallsOfTwo(Unanswered(0, n, at), Unanswered(1, n, at), r);
  }

  lemma CallsOfTwo(a: Entry, b: Entry, r: Reading)
    ensures DueCalls([a, b], r) == DueCall(a, r, 0) + DueCall(b, r, 1)
    ensures Outcomes([a, b], r) == [Outcome(a, r), Outcome(b, r)]
  {
    assert [a, b][..1] == [a] && [a][..0] == [];
    assert DueCalls([a], r) == DueCall(a, r, 0);
  }
}
