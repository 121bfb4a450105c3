/** Exports and handoff commands of ops/flux_ops.py racing each other: the commands take no lock and a
    record is written without comparing versions, so each read and each write is a step of its own. */
module FluxRace {
  import opened Runs
  import opened Wrappers
  import opened FluxRecords
  import opened FluxSafety

  datatype Command = Exporting(refresh: bool) | Handing(kind: Kind)

  /** Where a command is, by what it has read and not yet written: an export, an adoption, or a
      verification, which an acceptance starts with. */
  datatype Client =
    | Started(command: Command, config: Config)
    | Suspended(config: Config)
    | Cleared(config: Config)
    | Ready(before: Before)
    | Recording(spec: Spec)
    | Listing
    | Matched(before: Before, lnd: Lnd, release: Spec)
    | Adopting(before: Before, lnd: Lnd, release: Spec)
    | Releasing(release: Spec)
    | Compared(before: Before, lnd: Lnd)
    | Approved(kind: Kind, before: Before, lnd: Lnd)
    | Passed(kind: Kind, before: Before, lnd: Lnd)

  datatype Race = Race(w: World, clients: map<nat, Client>)

  const START := Race(FluxRecords.INIT, map[])

  /** What a handoff command compares once it has read the baseline. */
  predicate Agrees(kind: Kind, before: Before, v: View) {
    match kind
    case Adopted =>
      && SameWallet(before.lnd, v.lnd) && before.lnd.revision == v.lnd.revision && before.lnd.values == v.lnd.values
      && v.release.suspended && v.release.values == v.lnd.values
    case Accepted => SameWallet(before.lnd, v.lnd) && v.release.values == v.lnd.values
    case Verified => SameIdentity(before.lnd, v.lnd) && v.release.values == v.lnd.values
  }

  function Agreed(kind: Kind, before: Before, v: View): Client {
    match kind
    case Adopted => Matched(before, v.lnd, v.release)
    case Accepted => Approved(Accepted, before, v.lnd)
    case Verified => Compared(before, v.lnd)
  }

  datatype Next = Next(w: World, client: Option<Client>)

  /** The next read or write of a command; without a client it has ended. */
  function Advance(w: World, client: Client, v: View): Next {
    match client
    case Started(Exporting(refresh), c) =>
      if w.file.None? then Next(w, if refresh then None else Some(Cleared(c)))
      else if !refresh || !w.file.value.suspended || !v.release.suspended || v.history then Next(w, None)
      else Next(w, Some(Suspended(c)))
    case Suspended(c) => Next(w, if w.mark then None else Some(Cleared(c)))
    case Cleared(c) => Next(w, if v.gate then Some(Ready(Before(c, v.lnd))) else None)
    case Ready(before) => Next(w.(baseline := Some(before)), Some(Recording(Spec(true, before.lnd.values))))
    case Recording(spec) => Next(w.(file := Some(spec)), Some(Listing))
    case Listing => Next(w.(listed := true), None)
    case Started(Handing(kind), c) =>
      if w.baseline.None? || w.baseline.value.config != c || !v.gate || !Agrees(kind, w.baseline.value, v) then
        Next(w, None)
      else Next(w, Some(Agreed(kind, w.baseline.value, v)))
    case Matched(before, lnd, release) =>
      Next(w, if w.file == Some(release) then Some(Adopting(before, lnd, release)) else None)
    case Adopting(before, lnd, release) =>
      Next(w.(mark := true, log := w.log + [Shown(Adopted, before.config, before, lnd)]), Some(Releasing(release)))
    case Releasing(release) => Next(w.(file := Some(release.(suspended := false))), None)
    case Compared(before, lnd) =>
      Next(w, if w.acceptance == Some(Acceptance(before.config, before)) then Some(Approved(Verified, before, lnd))
           else None)
    case Approved(kind, before, lnd) => Next(w, if w.mark then Some(Passed(kind, before, lnd)) else None)
    case Passed(kind, before, lnd) =>
      var shown := w.(log := w.log + [Shown(kind, before.config, before, lnd)]);
      Next(if kind.Accepted? then shown.(acceptance := Some(Acceptance(before.config, before))) else shown, None)
  }

  datatype Move =
    | Begin(c: nat, command: Command, config: Config, gate: bool)
    | Go(c: nat, view: View)
    | Die(c: nat)
    | Capture(config: Config, stage: Stage, revision: Revision, gate: bool, effects: nat)
    | Edit(spec: Spec)

  /** Every command starts with the exercise check; the handoff file and the mark are never removed. */
  function Apply(s: Race, m: Move): Race {
    match m
    case Begin(c, command, config, gate) =>
      if c in s.clients || !gate || !ExerciseDone(s.w.proof, config) then s
      else s.(clients := s.clients[c := Started(command, config)])
    case Go(c, v) =>
      if c !in s.clients then s
      else
        var next := Advance(s.w, s.clients[c], v);
        Race(next.w, if next.client.Some? then s.clients[c := next.client.value] else s.clients - {c})
    case Die(c) => s.(clients := s.clients - {c})
    case Capture(config, stage, revision, gate, effects) =>
      s.(w := StepCapture(s.w, config, stage, revision, gate, effects))
    case Edit(spec) => s.(w := Step(s.w, EditFile(spec)))
  }

  ghost function RunFrom(s: Race, moves: seq<Move>): Race {
    Fold(Apply, s, moves)
  }

  ghost function Run(moves: seq<Move>): Race {
    RunFrom(START, moves)
  }

  // ----- a command that runs alone -----

  /** The command's next n reads and writes with nothing in between. */
  function Alone(w: World, client: Option<Client>, v: View, n: nat): Next
    decreases n
  {
    if n == 0 || client.None? then Next(w, client)
    else
      var next := Advance(w, client.value, v);
      Alone(next.w, next.client, v, n - 1)
  }

  function Repeated(c: nat, v: View, n: nat): seq<Move> {
    if n == 0 then [] else [Go(c, v)] + Repeated(c, v, n - 1)
  }

  function Put(w: World, others: map<nat, Client>, c: nat, client: Option<Client>): Race {
    Race(w, if client.Some? then others[c := client.value] else others)
  }

  lemma {:induction false} AloneRuns(w: World, others: map<nat, Client>, c: nat, client: Option<Client>, v: View,
                                     n: nat)
    requires c !in others
    ensures
      var end := Alone(w, client, v, n);
      RunFrom(Put(w, others, c, client), Repeated(c, v, n)) == Put(end.w, others, c, end.client)
    decreases n
  {
    if n > 0 {
      var s := Put(w, others, c, client);
      FoldHead(Apply, s, Go(c, v), Repeated(c, v, n - 1));
      var next := if client.None? then Next(w, client) else Advance(w, client.value, v);
      assert Apply(s, Go(c, v)) == Put(next.w, others, c, next.client) by {
        if client.Some? { assert others[c := client.value] - {c} == others; }
      }
      AloneRuns(next.w, others, c, next.client, v, n - 1);
    }
  }

  /** A command from its start, over n reads and writes of its own. */
  function Whole(c: nat, command: Command, v: View, n: nat): seq<Move> {
    [Begin(c, command, v.config, v.gate)] + Repeated(c, v, n)
  }

  lemma WholeRuns(s: Race, c: nat, command: Command, v: View, n: nat)
    requires c !in s.clients
    ensures
      var started := if v.gate && ExerciseDone(s.w.proof, v.config) then Some(Started(command, v.config)) else None;
      var end := Alone(s.w, started, v, n);
      RunFrom(s, Whole(c, command, v, n)) == Put(end.w, s.clients, c, end.client)
  {
    var started := if v.gate && ExerciseDone(s.w.proof, v.config) then Some(Started(command, v.config)) else None;
    FoldHead(Apply, s, Begin(c, command, v.config, v.gate), Repeated(c, v, n));
    AloneRuns(s.w, s.clients, c, started, v, n);
  }

  /** Whatever other commands wait meanwhile, undisturbed reads and writes are the whole command. */
  lemma ExportAlone(s: Race, c: nat, refresh: bool, v: View)
    requires c !in s.clients
    ensures RunFrom(s, Whole(c, Exporting(refresh), v, 6)) == Race(StepExport(s.w, refresh, v, 3), s.clients)
  {
    WholeRuns(s, c, Exporting(refresh), v, 6);
  }

  function Handed(w: World, kind: Kind, v: View): World {
    match kind
    case Adopted => StepAdopt(w, v, 2)
    case Accepted => StepAccept(w, v, 1)
    case Verified => Step(w, Verify(v))
  }

  lemma HandoffAlone(s: Race, c: nat, kind: Kind, v: View)
    requires c !in s.clients
    ensures RunFrom(s, Whole(c, Handing(kind), v, 4)) == Race(Handed(s.w, kind, v), s.clients)
  {
    WholeRuns(s, c, Handing(kind), v, 4);
    if v.gate && ExerciseDone(s.w.proof, v.config) { HandoffEnds(s.w, kind, v); }
  }

  lemma HandoffEnds(w: World, kind: Kind, v: View)
    requires v.gate && ExerciseDone(w.proof, v.config)
    ensures Alone(w, Some(Started(Handing(kind), v.config)), v, 4) == Next(Handed(w, kind, v), None)
  {
  }

  // ----- what every run keeps -----

  /** An adoption that got past reading the handoff file saw one, and every comparison made holds. */
  ghost predicate Sound(s: Race) {
    && (s.w.mark ==> s.w.file.Some?)
    && (forall c :: c in s.clients ==> SoundClient(s.w, s.clients[c]))
  }

  /** A command that holds what it compared: the baseline and the state it showed. */
  predicate Holds(client: Client) {
    client.Matched? || client.Adopting? || client.Compared? || client.Approved? || client.Passed?
  }

  ghost predicate SoundClient(w: World, client: Client) {
    && (Holds(client) ==> SameIdentity(client.before.lnd, client.lnd))
    && (client.Adopting? ==> w.file.Some?)
  }

  lemma ApplyIsSound(s: Race, m: Move)
    requires Sound(s)
    ensures Sound(Apply(s, m))
  {
  }

  lemma {:induction false} RunIsSound(moves: seq<Move>)
    ensures Sound(Run(moves))
  {
    if moves != [] {
      RunIsSound(moves[..|moves| - 1]);
      ApplyIsSound(Run(moves[..|moves| - 1]), moves[|moves| - 1]);
    }
  }

  // ----- when the adopted baseline survives -----

  /** An export that can still store another baseline than this one without reading the mark. */
  predicate Threatens(client: Client, b: Before) {
    client.Cleared? || (client.Ready? && client.before != b)
  }

  ghost predicate Safe(s: Race, b: Before) {
    s.w.baseline == Some(b) && forall c :: c in s.clients ==> !Threatens(s.clients[c], b)
  }

  /** Whatever any client does from here on, this baseline is the stored one. */
  ghost predicate Survives(s: Race, b: Before) {
    forall more {:trigger RunFrom(s, more)} :: RunFrom(s, more).w.baseline == Some(b)
  }

  lemma {:induction false} SafeForever(s: Race, b: Before, more: seq<Move>)
    requires Sound(s) && s.w.mark && Safe(s, b)
    ensures Sound(RunFrom(s, more)) && RunFrom(s, more).w.mark && Safe(RunFrom(s, more), b)
  {
    if more != [] {
      var before := RunFrom(s, more[..|more| - 1]);
      SafeForever(s, b, more[..|more| - 1]);
      ApplyIsSound(before, more[|more| - 1]);
    }
  }

  /** A threatening export, left to itself, stores another baseline. */
  lemma ThreatIsReal(s: Race, b: Before, c: nat) returns (more: seq<Move>)
    requires c in s.clients && Threatens(s.clients[c], b)
    ensures RunFrom(s, more).w.baseline != Some(b)
  {
    var v := View(0, true, b.lnd.(revision := b.lnd.revision + 1), Spec(true, 0), false);
    var write := [Go(c, v)];
    more := if s.clients[c].Ready? then write else [Go(c, v)] + write;
    FoldSnoc(Apply, s, [], Go(c, v));
    FoldSnoc(Apply, s, [Go(c, v)], Go(c, v));
    assert [] + [Go(c, v)] == write;
  }

  /** A marked baseline survives everything that may follow exactly when it is the stored one and no
      export under way has passed the mark check for another. */
  lemma SurvivesIsSafe(s: Race, b: Before)
    requires Sound(s) && s.w.mark
    ensures Survives(s, b) <==> Safe(s, b)
  {
    if Safe(s, b) {
      forall more ensures RunFrom(s, more).w.baseline == Some(b) { SafeForever(s, b, more); }
    } else if s.w.baseline != Some(b) {
      assert RunFrom(s, []) == s;
    } else {
      var c :| c in s.clients && Threatens(s.clients[c], b);
      var more := ThreatIsReal(s, b, c);
    }
  }

  // ----- what later commands show -----

  /** A handoff command that holds another baseline and can still pass on it. */
  predicate Strays(w: World, client: Client, b: Before) {
    && Holds(client) && client.before != b
    && (client.Compared? ==> w.acceptance == Some(Acceptance(client.before.config, client.before)))
  }

  ghost predicate Consistent(s: Race, b: Before) {
    Safe(s, b) && forall c :: c in s.clients ==> !Strays(s.w, s.clients[c], b)
  }

  /** From the n-th event on, only this baseline is shown, with the wallet it recorded. */
  ghost predicate ShowsOnly(log: seq<Event>, n: nat, b: Before) {
    forall k {:trigger log[k]} :: n <= k < |log| && log[k].Shown? ==>
      log[k].baseline == b && SameIdentity(b.lnd, log[k].lnd)
  }

  /** Whatever any client does from here on, every command that passes shows this baseline's wallet. */
  ghost predicate ShownForever(s: Race, b: Before) {
    forall more {:trigger RunFrom(s, more)} :: ShowsOnly(RunFrom(s, more).w.log, |s.w.log|, b)
  }

  lemma ConsistentStays(s: Race, b: Before, m: Move, n: nat)
    requires Sound(s) && s.w.mark && Consistent(s, b) && n <= |s.w.log| && ShowsOnly(s.w.log, n, b)
    ensures Consistent(Apply(s, m), b) && n <= |Apply(s, m).w.log| && ShowsOnly(Apply(s, m).w.log, n, b)
  {
  }

  lemma {:induction false} ConsistentForever(s: Race, b: Before, more: seq<Move>)
    requires Sound(s) && s.w.mark && Consistent(s, b)
    ensures
      var s' := RunFrom(s, more);
      Sound(s') && s'.w.mark && Consistent(s', b) && |s.w.log| <= |s'.w.log| && ShowsOnly(s'.w.log, |s.w.log|, b)
  {
    SafeForever(s, b, more);
    if more != [] {
      ConsistentForever(s, b, more[..|more| - 1]);
      ConsistentStays(RunFrom(s, more[..|more| - 1]), b, more[|more| - 1], |s.w.log|);
    }
  }

  /** How many moves a stray command is from its last check. */
  function Distance(w: World, client: Client): nat {
    match client
    case Matched(_, _, release) => if w.file == Some(release) then 1 else 2
    case Compared(_, _) => 2
    case Approved(_, _, _) => 1
    case _ => 0
  }

  /** A stray command, left to itself, passes and shows the other baseline. */
  lemma {:induction false} StrayShows(s: Race, b: Before, c: nat) returns (more: seq<Move>)
    requires s.w.mark && s.w.file.Some? && c in s.clients && Strays(s.w, s.clients[c], b)
    ensures !ShowsOnly(RunFrom(s, more).w.log, |s.w.log|, b)
    decreases Distance(s.w, s.clients[c])
  {
    var v := View(0, true, b.lnd, Spec(true, 0), false);
    var client := s.clients[c];
    var m := if client.Matched? && s.w.file != Some(client.release) then Edit(client.release) else Go(c, v);
    if client.Adopting? || client.Passed? {
      more := [m];
      FoldHead(Apply, s, m, []);
      assert [m] + [] == [m];
      assert Apply(s, m).w.log[|s.w.log|].baseline == client.before;
    } else {
      var rest := StrayShows(Apply(s, m), b, c);
      more := [m] + rest;
      FoldHead(Apply, s, m, rest);
    }
  }

  /** A marked baseline survives, and every later command that passes shows its wallet, exactly when no
      export under way threatens it and no handoff command under way holds another. */
  lemma ShownIsConsistent(s: Race, b: Before)
    requires Sound(s) && s.w.mark
    ensures Survives(s, b) && ShownForever(s, b) <==> Consistent(s, b)
  {
    SurvivesIsSafe(s, b);
    if Consistent(s, b) {
      forall more ensures ShowsOnly(RunFrom(s, more).w.log, |s.w.log|, b) { ConsistentForever(s, b, more); }
    } else if Safe(s, b) {
      var c :| c in s.clients && Strays(s.w, s.clients[c], b);
      var more := StrayShows(s, b, c);
    }
  }

  /** So both are decided, in every run, at the moment an adoption marks ownership. */
  lemma AdoptionSurvivesRace(moves: seq<Move>, c: nat, v: View)
    requires c in Run(moves).clients && Run(moves).clients[c].Adopting?
    ensures
      var s := Run(moves);
      var b, marked := s.clients[c].before, Apply(s, Go(c, v));
      && marked.w.mark
      && marked.w.log == s.w.log + [Shown(Adopted, b.config, b, s.clients[c].lnd)]
      && (Survives(marked, b) <==> Safe(s, b))
      && (Survives(marked, b) && ShownForever(marked, b) <==> Consistent(s, b))
  {
    RunIsSound(moves);
    var s := Run(moves);
    var b, marked := s.clients[c].before, Apply(s, Go(c, v));
    ApplyIsSound(s, Go(c, v));
    SurvivesIsSafe(marked, b);
    ShownIsConsistent(marked, b);
    assert forall d :: d in s.clients ==> d in marked.clients && (d != c ==> marked.clients[d] == s.clients[d]);
    assert Safe(marked, b) <==> Safe(s, b);
    assert Consistent(marked, b) <==> Consistent(s, b);
  }

  /** Then the PVCs and node keys of the adoption are those every later passed command shows. */
  lemma AdoptionKeepsIdentity(moves: seq<Move>, c: nat, v: View, more: seq<Move>, k: nat)
    requires c in Run(moves).clients && Run(moves).clients[c].Adopting?
    requires Consistent(Run(moves), Run(moves).clients[c].before)
    requires |Run(moves).w.log| < k < |RunFrom(Apply(Run(moves), Go(c, v)), more).w.log|
    requires RunFrom(Apply(Run(moves), Go(c, v)), more).w.log[k].Shown?
    ensures SameIdentity(Run(moves).clients[c].lnd, RunFrom(Apply(Run(moves), Go(c, v)), more).w.log[k].lnd)
  {
    RunIsSound(moves);
    AdoptionSurvivesRace(moves, c, v);
    var s := Run(moves);
    var b, marked := s.clients[c].before, Apply(s, Go(c, v));
    assert ShowsOnly(RunFrom(marked, more).w.log, |marked.w.log|, b);
  }

  // ----- a refresh that races an adoption -----

  lemma {:induction false} CapturesOnly(captures: seq<Action>, moves: seq<Move>)
    requires |moves| == |captures| && forall i :: 0 <= i < |moves| ==> IsCapture(captures[i], moves[i])
    ensures Run(moves) == Race(FluxRecords.Run(captures), map[])
  {
    if moves != [] {
      var n := |moves| - 1;
      CapturesOnly(captures[..n], moves[..n]);
    }
  }

  predicate IsCapture(a: Action, m: Move) {
    && a.CaptureProbe? && m.Capture?
    && a == CaptureProbe(m.config, m.stage, m.revision, m.gate, m.effects)
  }

  /** Where nothing was exported: an export, and a refresh that gets past its mark check. */
  lemma RefreshGetsPast(s: Race, v: View)
    requires s.clients == map[] && ExerciseDone(s.w.proof, v.config) && s.w.file.None? && !s.w.mark
    requires v.gate && v.release == Spec(true, v.lnd.values) && !v.history
    ensures RunFrom(s, Whole(0, Exporting(false), v, 6) + Whole(1, Exporting(true), v, 2))
            == Race(StepExport(s.w, false, v, 3), map[1 := Cleared(v.config)])
  {
    var w := StepExport(s.w, false, v, 3);
    FoldAppend(Apply, s, Whole(0, Exporting(false), v, 6), Whole(1, Exporting(true), v, 2));
    ExportAlone(s, 0, false, v);
    WholeRuns(Race(w, map[]), 1, Exporting(true), v, 2);
  }

  /** Then an adoption, and the refresh goes on with what it reads. */
  lemma RefreshOvertakes(w: World, v: View, v': View)
    requires MayAdopt(w, v) && v'.gate
    ensures
      var s := Race(w, map[1 := Cleared(v.config)]);
      RunFrom(s, Whole(2, Handing(Adopted), v, 4) + Repeated(1, v', 2))
      == Race(StepAdopt(w, v, 2).(baseline := Some(Before(v.config, v'.lnd))),
              map[1 := Recording(Spec(true, v'.lnd.values))])
  {
    var s, adopted := Race(w, map[1 := Cleared(v.config)]), StepAdopt(w, v, 2);
    FoldAppend(Apply, s, Whole(2, Handing(Adopted), v, 4), Repeated(1, v', 2));
    HandoffAlone(s, 2, Adopted, v);
    AloneRuns(adopted, map[], 1, Some(Cleared(v.config)), v', 2);
  }

  /** So without the condition a marked and adopted baseline is replaced by that of another wallet. */
  lemma RacingRefreshLosesBaseline() returns (moves: seq<Move>, b: Before, lnd: Lnd)
    ensures
      var w := Run(moves).w;
      && w.mark && Shown(Adopted, b.config, b, lnd) in w.log
      && w.baseline.Some? && !SameIdentity(b.lnd, w.baseline.value.lnd)
  {
    var v := View(0, true, Lnd(1, 5, map["data-lnd-0-0" := 7], map[]), Spec(true, 5), false);
    var v' := v.(lnd := v.lnd.(pvcs := map["data-lnd-0-0" := 8]));
    var captures := [CaptureProbe(0, Baseline, 1, true, 1), CaptureProbe(0, Failure, 2, true, 1),
                     CaptureProbe(0, Recovery, 3, true, 1)];
    var first := [Capture(0, Baseline, 1, true, 1), Capture(0, Failure, 2, true, 1), Capture(0, Recovery, 3, true, 1)];
    CapturesOnly(captures, first);
    ThreeStages(captures);
    var exports := Whole(0, Exporting(false), v, 6) + Whole(1, Exporting(true), v, 2);
    var race := Whole(2, Handing(Adopted), v, 4) + Repeated(1, v', 2);
    FoldAppend(Apply, START, first + exports, race);
    FoldAppend(Apply, START, first, exports);
    RefreshGetsPast(Run(first), v);
    RefreshOvertakes(StepExport(Run(first).w, false, v, 3), v, v');
    assert v.lnd.pvcs["data-lnd-0-0"] != v'.lnd.pvcs["data-lnd-0-0"];
    moves, b, lnd := first + exports + race, Before(0, v.lnd), v.lnd;
  }
}
