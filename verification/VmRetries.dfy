/** Durable, bounded starting of one approved VM (ops/router_vm.py). A run may die after any stored
    write or after spawning the start command; the number of those effects it gets to is a parameter. */
module VmRetries {
  import opened Arithmetic
  import opened Runs
  import opened Wrappers

  const MAX_ATTEMPTS := 3
  const BACKOFF := 30

  datatype Phase = Approved | Running | Transitioning | NeedsReview | Starting | Requested | RetryWait | Uncertain

  /** `epoch` counts the resets the record has seen: approvals and observations of a running VM. It is
      history for the proofs; nothing branches on it. */
  datatype Record = Record(attempts: int, nextAt: int, phase: Phase, epoch: nat)
  datatype File = Missing | Foreign | Stored(record: Record)

  /** One spawned start command: its attempt, the clock reading it was decided on, how many seconds
      after that reading it was spawned, and how long it ran, once its end was stored. */
  datatype Start = Start(epoch: nat, attempt: int, at: nat, lag: nat, ran: Option<nat>)

  datatype VmStatus = VmRunning | VmStopped | VmOther
  datatype Exit = Code(ok: bool) | Timeout | Exception
  /** The inventory: whether it matches the approved fingerprint, the VM's status, and how a start
      command would go. The clock is read first; the lock is held `wait` seconds later, and the inventory
      and the write before a start take `inventory` seconds more. */
  datatype Item = Item(matches: bool, status: VmStatus, elapsed: int, exit: Exit, wait: nat, inventory: nat)

  datatype Answer = Up | NotYet | BadRecord | Mismatch | StartRaised | Died

  function Delay(attempt: int): int {
    if attempt < 1 then 0 else BACKOFF * Pow2(attempt - 1)
  }

  /** The format check on the stored record. */
  predicate WellFormed(r: Record) {
    0 <= r.attempts <= MAX_ATTEMPTS && r.nextAt >= 0
  }

  function Elapsed(item: Item): nat {
    Max(0, item.elapsed)
  }

  /** The seconds from the clock reading to the spawn. */
  function Lag(item: Item): nat {
    item.wait + item.inventory
  }

  function Begun(r: Record, now: nat): Record {
    r.(attempts := r.attempts + 1, nextAt := now + Delay(r.attempts + 1), phase := Starting)
  }

  /** The record after the start command returned: its running time is added to the clock reading. */
  function Ended(r: Record, now: nat, item: Item): Record {
    r.(nextAt := now + Elapsed(item) + Delay(r.attempts),
       phase := if item.exit.Code? then if item.exit.ok then Requested else RetryWait else Uncertain)
  }

  /** The stored file, every start command ever spawned, and when the lock was last let go. */
  datatype World = World(file: File, starts: seq<Start>, free: nat)

  /** One call of `ensure_started` that gets to at most this many effects. */
  function Ensure(w: World, now: nat, item: Item, effects: nat): (World, Answer) {
    if !w.file.Stored? || !WellFormed(w.file.record) then (w, BadRecord)
    else if !item.matches then (w, Mismatch)
    else
      var r := w.file.record;
      if item.status.VmRunning? then
        if effects == 0 then (w, Died)
        else (w.(file := Stored(r.(attempts := 0, nextAt := 0, phase := Running, epoch := r.epoch + 1))), Up)
      else if !item.status.VmStopped? then
        if effects == 0 then (w, Died) else (w.(file := Stored(r.(phase := Transitioning))), NotYet)
      else if r.attempts >= MAX_ATTEMPTS then
        if effects == 0 then (w, Died) else (w.(file := Stored(r.(phase := NeedsReview))), NotYet)
      else if now < r.nextAt then (w, NotYet)
      else
        var b := Begun(r, now);
        if effects == 0 then (w, Died)
        else if effects == 1 then (w.(file := Stored(b)), Died)
        else if effects == 2 then (w.(file := Stored(b), starts := w.starts + [Spawned(b, now, item, None)]), Died)
        else
          (w.(file := Stored(Ended(b, now, item)), starts := w.starts + [Spawned(b, now, item, Some(Elapsed(item)))]),
           if item.exit.Exception? then StartRaised else NotYet)
  }

  function Spawned(b: Record, now: nat, item: Item, ran: Option<nat>): Start {
    Start(b.epoch, b.attempts, now, Lag(item), ran)
  }

  /** An approval writes a new record, whatever was stored; it needs a settled VM. */
  function Approve(w: World, item: Item): World {
    if item.status.VmOther? then w
    else w.(file := Stored(Record(0, 0, Approved, if w.file.Stored? then w.file.record.epoch + 1 else 0)))
  }

  class VmStore {
    var file: File
    var starts: seq<Start>

    method EnsureStarted(now: nat, item: Item, effects: nat) returns (answer: Answer)
      modifies this
      ensures forall free ::
                (World(file, starts, free), answer) == Ensure(World(old(file), old(starts), free), now, item, effects)
    {
      if !file.Stored? || !WellFormed(file.record) { return BadRecord; }
      if !item.matches { return Mismatch; }
      var r := file.record;
      if item.status.VmRunning? {
        if effects == 0 { return Died; }
        file := Stored(r.(attempts := 0, nextAt := 0, phase := Running, epoch := r.epoch + 1));
        return Up;
      }
      if !item.status.VmStopped? {
        if effects == 0 { return Died; }
        file := Stored(r.(phase := Transitioning));
        return NotYet;
      }
      if r.attempts >= MAX_ATTEMPTS {
        if effects == 0 { return Died; }
        file := Stored(r.(phase := NeedsReview));
        return NotYet;
      }
      if now < r.nextAt { return NotYet; }
      r := Begun(r, now);
      if effects == 0 { return Died; }
      file := Stored(r);
      if effects == 1 { return Died; }
      starts := starts + [Spawned(r, now, item, None)];
      if effects == 2 { return Died; }
      file := Stored(Ended(r, now, item));
      starts := starts[|starts| - 1 := Spawned(r, now, item, Some(Elapsed(item)))];
      assert starts == old(starts) + [Spawned(r, now, item, Some(Elapsed(item)))];
      return if item.exit.Exception? then StartRaised else NotYet;
    }
  }

  // ----- what the record knows of the starts -----

  /** How long it ran, as far as that was stored. */
  function Ran(s: Start): nat {
    Or(s.ran, 0)
  }

  /** The moment it ended, or was spawned if its end was not stored. */
  function Since(s: Start): nat {
    s.at + s.lag + Ran(s)
  }

  function Moment(s: Start): nat {
    s.at + s.lag
  }

  /** The start of the record's latest attempt. */
  predicate Latest(r: Record, s: Start) {
    r.epoch == s.epoch && r.attempts == s.attempt
  }

  ghost predicate Remembers(r: Record, s: Start) {
    && s.epoch <= r.epoch
    && (s.epoch == r.epoch ==> s.attempt <= r.attempts && r.nextAt >= s.at + Ran(s) + Delay(s.attempt))
    && (Latest(r, s) ==> r.nextAt == s.at + Ran(s) + Delay(s.attempt))
  }

  ghost predicate Spaced(starts: seq<Start>) {
    forall i, j :: 0 <= i < j < |starts| && starts[i].epoch == starts[j].epoch ==>
      starts[i].attempt < starts[j].attempt && starts[j].at >= starts[i].at + Ran(starts[i]) + Delay(starts[i].attempt)
  }

  ghost predicate Inv(w: World) {
    && (w.file.Missing? || (w.file.Stored? && WellFormed(w.file.record)))
    && (w.file.Missing? ==> w.starts == [])
    && (forall s :: s in w.starts ==>
          1 <= s.attempt <= MAX_ATTEMPTS && (w.file.Stored? ==> Remembers(w.file.record, s)))
    && Spaced(w.starts)
  }

  lemma StartKeeps(w: World, r: Record, s: Start)
    requires Inv(w) && w.file.Stored? && WellFormed(r) && r.epoch == s.epoch == w.file.record.epoch
    requires s.attempt == r.attempts == w.file.record.attempts + 1
    requires s.at >= w.file.record.nextAt && r.nextAt == s.at + Ran(s) + Delay(s.attempt)
    ensures Inv(w.(file := Stored(r), starts := w.starts + [s]))
  {
    var starts := w.starts + [s];
    forall t | t in starts ensures 1 <= t.attempt <= MAX_ATTEMPTS && Remembers(r, t) {
      if t in w.starts { assert Remembers(w.file.record, t); }
    }
    forall i, j | 0 <= i < j < |starts| && starts[i].epoch == starts[j].epoch
      ensures starts[i].attempt < starts[j].attempt && starts[j].at
              >= starts[i].at + Ran(starts[i]) + Delay(starts[i].attempt)
    {
      if j == |w.starts| { assert w.starts[i] in w.starts && Remembers(w.file.record, w.starts[i]); }
    }
  }

  lemma RecordKeeps(w: World, r: Record)
    requires Inv(w) && w.file.Stored? && WellFormed(r)
    requires r.epoch > w.file.record.epoch
          || (r.epoch == w.file.record.epoch && r.attempts == w.file.record.attempts
              && r.nextAt == w.file.record.nextAt)
          || (r.epoch == w.file.record.epoch && r.attempts > w.file.record.attempts && r.nextAt >= w.file.record.nextAt)
    ensures Inv(w.(file := Stored(r)))
  {
  }

  lemma EnsureKeeps(w: World, now: nat, item: Item, effects: nat)
    requires Inv(w)
    ensures Inv(Ensure(w, now, item, effects).0)
  {
    var w' := Ensure(w, now, item, effects).0;
    if w'.starts != w.starts {
      StartKeeps(w, w'.file.record, w'.starts[|w.starts|]);
    } else if w'.file != w.file {
      RecordKeeps(w, w'.file.record);
    }
  }

  /** What one call that is not cut short answers and stores, by the record's own fields: a malformed record or a VM
      that does not match is an error; a running VM forgets every attempt; one in transition waits; out of attempts
      it is put to review; before its time nothing is stored; and otherwise it is started once more, the next start
      being due thirty seconds times two for each attempt before, after this one ended. */
  lemma EnsureIsExact(w: World, now: nat, item: Item, effects: nat)
    requires effects >= 3
    ensures
      var (w', answer) := Ensure(w, now, item, effects);
      if !w.file.Stored? || !(0 <= w.file.record.attempts && w.file.record.attempts <= 3 && w.file.record.nextAt >= 0)
      then w' == w && answer == BadRecord
      else if !item.matches then w' == w && answer == Mismatch
      else
        var r, ran := w.file.record, if item.elapsed > 0 then item.elapsed else 0;
        if item.status == VmRunning then
          w' == w.(file := Stored(Record(0, 0, Running, r.epoch + 1))) && answer == Up
        else if item.status == VmOther then w' == w.(file := Stored(r.(phase := Transitioning))) && answer == NotYet
        else if r.attempts == 3 then w' == w.(file := Stored(r.(phase := NeedsReview))) && answer == NotYet
        else if now < r.nextAt then w' == w && answer == NotYet
        else
          var phase := match item.exit
                       case Code(ok) => if ok then Requested else RetryWait
                       case _ => Uncertain;
          && w'.file == Stored(Record(r.attempts + 1, now + ran + 30 * Pow2(r.attempts), phase, r.epoch))
          && w'.starts == w.starts + [Start(r.epoch, r.attempts + 1, now, item.wait + item.inventory, Some(ran))]
          && answer == (if item.exit == Exception then StartRaised else NotYet)
  {
  }

  /** Where a call is cut: before its first write nothing is stored; a start that dies after it leaves the attempt,
      and once spawned also the start, whose end is then unknown. */
  lemma EnsureCut(w: World, now: nat, item: Item, effects: nat)
    requires effects < 3 && Ensure(w, now, item, 3).0 != w
    ensures
      var (w', answer) := Ensure(w, now, item, effects);
      if effects == 0 then w' == w && answer == Died
      else if Ensure(w, now, item, 3).0.starts == w.starts then (w', answer) == Ensure(w, now, item, 3)
      else
        var r := w.file.record;
        && answer == Died
        && w'.file == Stored(Record(r.attempts + 1, now + 30 * Pow2(r.attempts), Starting, r.epoch))
        && w'.starts == w.starts + if effects == 1 then []
                                   else [Start(r.epoch, r.attempts + 1, now, item.wait + item.inventory, None)]
  {
  }

  // ----- whole runs -----

  datatype Action = Approval(item: Item) | Tick(now: nat, item: Item, effects: nat)

  /** When a call lets go of the lock: after its inventory, or when the start command it spawned is done with. */
  function Released(w: World, w': World, now: nat, item: Item): nat {
    now + Lag(item) + if |w'.starts| > |w.starts| then Elapsed(item) else 0
  }

  /** A call that finds the lock held gives up at once. */
  function Step(w: World, a: Action): World {
    match a
    case Approval(item) => Approve(w, item)
    case Tick(now, item, effects) =>
      if now + item.wait < w.free then w
      else
        var w' := Ensure(w, now, item, effects).0;
        w'.(free := Released(w, w', now, item))
  }

  const START := World(Missing, [], 0)

  ghost function Run(actions: seq<Action>): World {
    Fold(Step, START, actions)
  }

  lemma {:induction false} RunKeeps(actions: seq<Action>)
    ensures Inv(Run(actions))
  {
    if actions != [] {
      var w := Run(actions[..|actions| - 1]);
      RunKeeps(actions[..|actions| - 1]);
      match actions[|actions| - 1]
      case Approval(item) =>
      case Tick(now, item, effects) => EnsureKeeps(w, now, item, effects);
    }
  }

  /** Starts between two stored resets of the record. */
  function StartCount(starts: seq<Start>, epoch: nat): nat {
    if starts == [] then 0
    else StartCount(starts[..|starts| - 1], epoch) + if starts[|starts| - 1].epoch == epoch then 1 else 0
  }

  lemma {:induction false} CountBound(starts: seq<Start>, epoch: nat, bound: nat)
    requires forall s :: s in starts ==> s.attempt >= 1
    requires forall i, j :: 0 <= i < j < |starts| && starts[i].epoch == starts[j].epoch ==>
             starts[i].attempt < starts[j].attempt
    requires forall i :: 0 <= i < |starts| && starts[i].epoch == epoch ==> starts[i].attempt <= bound
    ensures StartCount(starts, epoch) <= bound
  {
    if starts != [] {
      var n := |starts| - 1;
      assert forall i :: 0 <= i < n ==> starts[..n][i] == starts[i];
      if starts[n].epoch == epoch {
        assert starts[n] in starts;
        CountBound(starts[..n], epoch, starts[n].attempt - 1);
      } else {
        CountBound(starts[..n], epoch, bound);
      }
    }
  }

  /** In every run, whatever dies where: at most three starts between two stored resets; after start k
      the next is spawned no sooner than 30 * 2^(k-1) seconds after k was, or after it ended when its end
      was stored, less the lag of start k; and the tool never finds its own record malformed. */
  lemma StartsAreBounded(actions: seq<Action>)
    ensures forall epoch :: StartCount(Run(actions).starts, epoch) <= MAX_ATTEMPTS
    ensures
      var starts := Run(actions).starts;
      forall i, j :: 0 <= i < j < |starts| && starts[i].epoch == starts[j].epoch ==>
        && 1 <= starts[i].attempt < starts[j].attempt <= 3
        && starts[j].at >= starts[i].at + Ran(starts[i]) + 30 * Pow2(starts[i].attempt - 1)
        && Moment(starts[j]) >= Since(starts[i]) + 30 * Pow2(starts[i].attempt - 1) - starts[i].lag
    ensures forall now, item, effects :: Run(actions).file.Stored? ==>
            Ensure(Run(actions), now, item, effects).1 != BadRecord
  {
    RunKeeps(actions);
    var starts := Run(actions).starts;
    forall epoch ensures StartCount(starts, epoch) <= MAX_ATTEMPTS {
      CountBound(starts, epoch, MAX_ATTEMPTS);
    }
    forall i, j | 0 <= i < j < |starts| && starts[i].epoch == starts[j].epoch
      ensures 1 <= starts[i].attempt < starts[j].attempt <= 3
      ensures starts[j].at >= starts[i].at + Ran(starts[i]) + 30 * Pow2(starts[i].attempt - 1)
    {
      assert starts[i] in starts && starts[j] in starts;
    }
  }

  /** The starts were spawned one after the other, and none was still known to run when the lock was let go. */
  ghost predicate InOrder(starts: seq<Start>, free: nat) {
    && (forall i, j :: 0 <= i < j < |starts| ==> Since(starts[i]) <= Moment(starts[j]))
    && (forall i :: 0 <= i < |starts| ==> Since(starts[i]) <= free)
  }

  /** In every run the starts follow one another in real time, each after the stored end of the one before. */
  lemma {:induction false} StartsInTimeOrder(actions: seq<Action>)
    ensures InOrder(Run(actions).starts, Run(actions).free)
  {
    if actions != [] {
      StartsInTimeOrder(actions[..|actions| - 1]);
    }
  }

  // ----- which starts keep their backoff -----

  ghost predicate AddsFrom(starts: seq<Start>, starts': seq<Start>, moment: nat) {
    starts <= starts' && forall j :: |starts| <= j < |starts'| ==> Moment(starts'[j]) >= moment
  }

  lemma {:induction false} LaterStarts(w: World, later: seq<Action>)
    ensures AddsFrom(w.starts, Fold(Step, w, later).starts, w.free) && w.free <= Fold(Step, w, later).free
  {
    if later != [] {
      LaterStarts(w, later[..|later| - 1]);
    }
  }

  /** No later start of the same epoch is spawned sooner than this start's backoff after it. */
  ghost predicate KeepsBackoff(starts: seq<Start>, i: nat)
    requires i < |starts|
  {
    forall j :: i < j < |starts| && starts[j].epoch == starts[i].epoch ==>
      Moment(starts[j]) >= Since(starts[i]) + Delay(starts[i].attempt)
  }

  ghost predicate KeepsBackoffLater(actions: seq<Action>, i: nat)
    requires i < |Run(actions).starts|
  {
    forall later {:trigger Run(actions + later)} ::
      i < |Run(actions + later).starts| && KeepsBackoff(Run(actions + later).starts, i)
  }

  /** The start was the last allowed, or was spawned with no lag, or its call, or a later one, held the
      lock for the whole backoff. */
  predicate Safe(w: World, s: Start) {
    s.attempt >= MAX_ATTEMPTS || s.lag == 0 || w.free >= Since(s) + Delay(s.attempt)
  }

  /** When the call that spawned it is over, a start is the latest attempt of the record. */
  lemma NewStartIsLatest(actions: seq<Action>, now: nat, item: Item, effects: nat)
    requires |Run(actions + [Tick(now, item, effects)]).starts| > |Run(actions).starts|
    ensures
      var w, n := Run(actions + [Tick(now, item, effects)]), |Run(actions).starts|;
      |w.starts| == n + 1 && w.file.Stored? && Latest(w.file.record, w.starts[n])
  {
    FoldSnoc(Step, START, actions, Tick(now, item, effects));
  }

  /** Exactly which starts keep their full backoff, whatever calls, approvals and crashes follow: by
      NewStartIsLatest this speaks of every start from the moment its call is over. */
  lemma BackoffKeptExactly(actions: seq<Action>, i: nat)
    requires i < |Run(actions).starts| && Run(actions).file.Stored?
    requires Latest(Run(actions).file.record, Run(actions).starts[i])
    ensures KeepsBackoffLater(actions, i) <==> Safe(Run(actions), Run(actions).starts[i])
  {
    var w := Run(actions);
    if Safe(w, w.starts[i]) {
      forall later {:trigger Run(actions + later)}
        ensures i < |Run(actions + later).starts| && KeepsBackoff(Run(actions + later).starts, i)
      {
        SafeIsKept(actions, i, later);
      }
    } else {
      var later := SoonestTick(actions, i);
    }
  }

  lemma LatestIsLast(w: World, i: nat, j: nat)
    requires Inv(w) && i < j < |w.starts| && w.file.Stored? && Latest(w.file.record, w.starts[i])
    ensures w.starts[j].epoch != w.starts[i].epoch
  {
    assert w.starts[j] in w.starts;
  }

  lemma SafeIsKept(actions: seq<Action>, i: nat, later: seq<Action>)
    requires i < |Run(actions).starts| && Run(actions).file.Stored?
    requires Latest(Run(actions).file.record, Run(actions).starts[i]) && Safe(Run(actions), Run(actions).starts[i])
    ensures i < |Run(actions + later).starts| && KeepsBackoff(Run(actions + later).starts, i)
  {
    var w, starts := Run(actions), Run(actions + later).starts;
    RunKeeps(actions);
    StartsAreBounded(actions + later);
    FoldAppend(Step, START, actions, later);
    LaterStarts(w, later);
    assert starts[i] == w.starts[i];
    forall j | i < j < |starts| && starts[j].epoch == starts[i].epoch
      ensures Moment(starts[j]) >= Since(starts[i]) + Delay(starts[i].attempt)
    {
      if j < |w.starts| { LatestIsLast(w, i, j); }
    }
  }

  /** A stopped VM that matches, found at once. */
  function Prompt(inventory: nat): Item {
    Item(true, VmStopped, 0, Code(false), 0, inventory)
  }

  /** One more call that finds the VM stopped and lives: it starts it. */
  lemma OneMoreStart(actions: seq<Action>, now: nat, inventory: nat) returns (longer: seq<Action>)
    requires Run(actions).file.Stored? && WellFormed(Run(actions).file.record)
    requires Run(actions).file.record.attempts < MAX_ATTEMPTS && now >= Run(actions).file.record.nextAt
    requires now >= Run(actions).free
    ensures longer == actions + [Tick(now, Prompt(inventory), 3)]
    ensures
      var r := Run(actions).file.record;
      && Run(longer).file == Stored(Ended(Begun(r, now), now, Prompt(inventory)))
      && Run(longer).starts == Run(actions).starts + [Start(r.epoch, r.attempts + 1, now, inventory, Some(0))]
      && Run(longer).free == now + inventory
  {
    longer := actions + [Tick(now, Prompt(inventory), 3)];
    FoldSnoc(Step, START, actions, Tick(now, Prompt(inventory), 3));
  }

  /** The continuation that comes too soon: one prompt call at the first moment allowed. */
  lemma SoonestTick(actions: seq<Action>, i: nat) returns (later: seq<Action>)
    requires i < |Run(actions).starts| && Run(actions).file.Stored?
    requires Latest(Run(actions).file.record, Run(actions).starts[i]) && !Safe(Run(actions), Run(actions).starts[i])
    ensures i < |Run(actions + later).starts| && !KeepsBackoff(Run(actions + later).starts, i)
  {
    var r, s, n := Run(actions).file.record, Run(actions).starts[i], |Run(actions).starts|;
    RunKeeps(actions);
    assert s in Run(actions).starts && Remembers(r, s);
    var now := Max(r.nextAt, Run(actions).free);
    later := [Tick(now, Prompt(0), 3)];
    var longer := OneMoreStart(actions, now, 0);
    var starts := Run(longer).starts;
    assert starts[i] == s && starts[n].epoch == s.epoch && Moment(starts[n]) == now;
  }

  /** An inventory of fifteen seconds: the start decided at 0 is spawned at 15, and the next may follow
      at 30, fifteen seconds after it, where its backoff is 30. */
  lemma InventoryShortensBackoff() returns (actions: seq<Action>)
    ensures
      var starts := Run(actions).starts;
      && starts == [Start(0, 1, 0, 15, Some(0)), Start(0, 2, 30, 0, Some(0))]
      && Moment(starts[1]) == Since(starts[0]) + 15 && Delay(starts[0].attempt) == 30
  {
    assert Delay(1) == 30;
    actions := FirstApproval();
    actions := OneMoreStart(actions, 0, 15);
    actions := OneMoreStart(actions, 30, 0);
  }

  lemma FirstApproval() returns (actions: seq<Action>)
    ensures Run(actions) == World(Stored(Record(0, 0, Approved, 0)), [], 0)
  {
    FoldSnoc(Step, START, [], Approval(Prompt(0)));
    actions := [] + [Approval(Prompt(0))];
  }
}
