/** What the exercise and handoff records prove, for every run of FluxRecords. */
module FluxSafety {
  import opened Runs
  import opened Wrappers
  import opened FluxRecords

  // ----- the exercise is sequential -----

  /** Baseline b was captured, then failure f, then recovery r, all under this configuration. */
  ghost predicate SawBaseline(log: seq<Event>, c: Config, b: Revision) {
    Captured(c, Baseline, b) in log
  }

  ghost predicate SawFailure(log: seq<Event>, c: Config, b: Revision, f: Revision) {
    exists j {:trigger log[j]} :: 0 <= j < |log| && log[j] == Captured(c, Failure, f) && SawBaseline(log[..j], c, b)
  }

  ghost predicate SawRecovery(log: seq<Event>, c: Config, b: Revision, f: Revision, r: Revision) {
    exists k {:trigger log[k]} :: 0 <= k < |log| && log[k] == Captured(c, Recovery, r) && SawFailure(log[..k], c, b, f)
  }

  ghost predicate Evidenced(proof: Proof, log: seq<Event>) {
    var c, s := proof.config, proof.stages;
    && (Failure in s ==> Baseline in s && s[Baseline] != s[Failure])
    && (Recovery in s ==> Failure in s && s[Failure] != s[Recovery])
    && (Baseline in s ==> SawBaseline(log, c, s[Baseline]))
    && (Failure in s ==> SawFailure(log, c, s[Baseline], s[Failure]))
    && (Recovery in s ==> SawRecovery(log, c, s[Baseline], s[Failure], s[Recovery]))
  }

  lemma SawMore(log: seq<Event>, e: Event, c: Config, b: Revision, f: Revision, r: Revision)
    ensures SawBaseline(log, c, b) ==> SawBaseline(log + [e], c, b)
    ensures SawFailure(log, c, b, f) ==> SawFailure(log + [e], c, b, f)
    ensures SawRecovery(log, c, b, f, r) ==> SawRecovery(log + [e], c, b, f, r)
  {
    if SawFailure(log, c, b, f) {
      var j :| 0 <= j < |log| && log[j] == Captured(c, Failure, f) && SawBaseline(log[..j], c, b);
      assert (log + [e])[j] == log[j] && (log + [e])[..j] == log[..j];
    }
    if SawRecovery(log, c, b, f, r) {
      var k :| 0 <= k < |log| && log[k] == Captured(c, Recovery, r) && SawFailure(log[..k], c, b, f);
      assert (log + [e])[k] == log[k] && (log + [e])[..k] == log[..k];
    }
  }

  lemma EvidencedMore(proof: Proof, log: seq<Event>, e: Event)
    requires Evidenced(proof, log)
    ensures Evidenced(proof, log + [e])
  {
    var c, s := proof.config, proof.stages;
    var b := if Baseline in s then s[Baseline] else 0;
    var f := if Failure in s then s[Failure] else 0;
    var r := if Recovery in s then s[Recovery] else 0;
    SawMore(log, e, c, b, f, r);
  }

  lemma CaptureIsEvidenced(oldProof: Option<Proof>, log: seq<Event>, c: Config, stage: Stage, revision: Revision)
    requires oldProof.Some? ==> Evidenced(oldProof.value, log)
    requires Recorded(oldProof, c, stage, revision).Some?
    ensures Evidenced(Recorded(oldProof, c, stage, revision).value, log + [Captured(c, stage, revision)])
  {
    var e := Captured(c, stage, revision);
    assert (log + [e])[|log|] == e && (log + [e])[..|log|] == log;
    if oldProof.Some? { EvidencedMore(oldProof.value, log, e); }
  }

  /** The stages are always a prefix of baseline, failure, recovery. */
  ghost predicate Prefix(stages: map<Stage, Revision>) {
    stages.Keys in {{}, {Baseline}, {Baseline, Failure}, {Baseline, Failure, Recovery}}
  }

  lemma EvidencedIsPrefix(proof: Proof, log: seq<Event>)
    requires Evidenced(proof, log)
    ensures Prefix(proof.stages)
  {
    var keys := proof.stages.Keys;
    forall s | s in keys ensures s in {Baseline, Failure, Recovery} {
      match s
      case Baseline =>
      case Failure =>
      case Recovery =>
    }
    if Recovery in keys {
      assert keys == {Baseline, Failure, Recovery};
    } else if Failure in keys {
      assert keys == {Baseline, Failure};
    } else if Baseline in keys {
      assert keys == {Baseline};
    } else {
      assert keys == {};
    }
  }

  lemma ThreeRevisions(stages: map<Stage, Revision>)
    requires stages.Keys == {Baseline, Failure, Recovery}
    ensures |stages.Values| == 3 <==>
              && stages[Baseline] != stages[Failure] && stages[Failure] != stages[Recovery]
              && stages[Baseline] != stages[Recovery]
  {
    var b, f, r := stages[Baseline], stages[Failure], stages[Recovery];
    assert stages.Values == {b, f, r} by {
      forall v | v in stages.Values ensures v in {b, f, r} {
        var k :| k in stages.Keys && stages[k] == v;
      }
      assert Baseline in stages && Failure in stages && Recovery in stages;
    }
    if b == f { assert {b, f, r} == {b, r}; }
    if f == r { assert {b, f, r} == {b, f}; }
    if b == r { assert {b, f, r} == {b, f}; }
  }

  // ----- what a command that is not cut short does -----

  /** The same volumes, and the same nodes with the same keys. */
  ghost predicate SameKeys(a: Lnd, b: Lnd) {
    && a.pvcs == b.pvcs && a.nodes.Keys == b.nodes.Keys
    && forall n :: n in a.nodes ==> a.nodes[n].pubkey == b.nodes[n].pubkey
  }

  lemma IdentityIsKeys(a: Lnd, b: Lnd)
    ensures SameIdentity(a, b) <==> SameKeys(a, b)
  {
    if SameIdentity(a, b) {
      assert Pubkeys(a).Keys == a.nodes.Keys && Pubkeys(b).Keys == b.nodes.Keys;
      forall n | n in a.nodes ensures a.nodes[n].pubkey == b.nodes[n].pubkey {
        assert Pubkeys(a)[n] == Pubkeys(b)[n];
      }
    }
  }

  /** All three stages are recorded for this configuration, at three different revisions. */
  ghost predicate Exercised(proof: Option<Proof>, c: Config) {
    && proof.Some? && proof.value.config == c && proof.value.stages.Keys == {Baseline, Failure, Recovery}
    && proof.value.stages[Baseline] != proof.value.stages[Failure]
    && proof.value.stages[Failure] != proof.value.stages[Recovery]
    && proof.value.stages[Baseline] != proof.value.stages[Recovery]
  }

  lemma DoneIsExercised(proof: Option<Proof>, c: Config)
    ensures ExerciseDone(proof, c) <==> Exercised(proof, c)
  {
    if proof.Some? && proof.value.stages.Keys == {Baseline, Failure, Recovery} { ThreeRevisions(proof.value.stages); }
  }

  /** A stage is recorded in the record of its configuration, if there is none yet in a new one: a baseline any
      time, dropping the others; a failure or a recovery at another revision than the stage before it, dropping
      what came after. */
  lemma CaptureIsExact(w: World, c: Config, stage: Stage, revision: Revision, gate: bool)
    ensures
      var stages := if w.proof.Some? then w.proof.value.stages else map[];
      var fits := && gate && (w.proof.Some? ==> w.proof.value.config == c)
                  && (stage == Failure ==> Baseline in stages && stages[Baseline] != revision)
                  && (stage == Recovery ==> Failure in stages && stages[Failure] != revision);
      var kept := match stage
                  case Baseline => map[]
                  case Failure => stages - {Recovery}
                  case Recovery => stages;
      StepCapture(w, c, stage, revision, gate, 1) ==
      if fits then w.(proof := Some(Proof(c, kept[stage := revision])), log := w.log + [Captured(c, stage, revision)])
      else w
  {
  }

  /** An export of a wallet in its configuration: the first one without a file, a refresh while file and release
      are suspended, nothing was ever released and nothing is marked. It stores baseline, suspended file and list
      entry. */
  lemma ExportIsExact(w: World, refresh: bool, v: View)
    ensures
      var first := w.file.None? && !refresh;
      var again := && w.file.Some? && refresh && w.file.value.suspended && v.release.suspended && !v.history && !w.mark;
      StepExport(w, refresh, v, 3) ==
      if v.gate && Exercised(w.proof, v.config) && (first || again)
      then w.(baseline := Some(Before(v.config, v.lnd)), file := Some(Spec(true, v.lnd.values)), listed := true)
      else w
  {
    DoneIsExercised(w.proof, v.config);
  }

  /** The stored baseline is of this configuration. */
  ghost predicate HasBaseline(w: World, c: Config) {
    w.baseline.Some? && w.baseline.value.config == c
  }

  /** An adoption needs the exercise, the baseline's very wallet, revision and values, and one suspended release with
      those values in cluster and file. It marks ownership and releases the file. */
  lemma AdoptIsExact(w: World, v: View)
    ensures
      var fits := && v.gate && Exercised(w.proof, v.config) && HasBaseline(w, v.config)
                  && v.lnd.pvcs == w.baseline.value.lnd.pvcs && v.lnd.nodes == w.baseline.value.lnd.nodes
                  && v.lnd.revision == w.baseline.value.lnd.revision && v.lnd.values == w.baseline.value.lnd.values
                  && w.file == Some(v.release) && v.release == Spec(true, v.lnd.values);
      StepAdopt(w, v, 2) ==
      if fits then w.(mark := true, file := Some(Spec(false, v.lnd.values)),
                      log := w.log + [Shown(Adopted, v.config, w.baseline.value, v.lnd)])
      else w
  {
    DoneIsExercised(w.proof, v.config);
  }

  /** An acceptance needs the exercise, the mark, released values that are the wallet's, and the baseline's very
      wallet; a verification, the acceptance of this baseline and only its volumes and keys. */
  lemma VerifyIsExact(w: World, v: View)
    ensures
      var fits := && v.gate && Exercised(w.proof, v.config) && HasBaseline(w, v.config) && w.mark
                  && v.release.values == v.lnd.values;
      && StepAccept(w, v, 1) ==
         (if fits && v.lnd.pvcs == w.baseline.value.lnd.pvcs && v.lnd.nodes == w.baseline.value.lnd.nodes
          then w.(acceptance := Some(Acceptance(v.config, w.baseline.value)),
                  log := w.log + [Shown(Accepted, v.config, w.baseline.value, v.lnd)])
          else w)
      && Step(w, Verify(v)) ==
         (if && fits && w.acceptance == Some(Acceptance(v.config, w.baseline.value))
             && SameKeys(w.baseline.value.lnd, v.lnd)
          then w.(log := w.log + [Shown(Verified, v.config, w.baseline.value, v.lnd)])
          else w)
  {
    DoneIsExercised(w.proof, v.config);
    if w.baseline.Some? { IdentityIsKeys(w.baseline.value.lnd, v.lnd); }
  }

  /** Where a command is cut: its writes are made in order, and only those it gets to. */
  lemma CommandsAreCut(w: World, v: View, refresh: bool, c: Config, stage: Stage, revision: Revision, gate: bool)
    ensures
      var done := StepExport(w, refresh, v, 3);
      && StepExport(w, refresh, v, 2) == done.(listed := w.listed)
      && StepExport(w, refresh, v, 1) == done.(listed := w.listed, file := w.file)
    ensures StepAdopt(w, v, 1) == StepAdopt(w, v, 2).(file := w.file)
    ensures StepExport(w, refresh, v, 0) == StepAdopt(w, v, 0) == StepAccept(w, v, 0) == w
    ensures StepCapture(w, c, stage, revision, gate, 0) == w
    ensures forall n :: n >= 3 ==> StepExport(w, refresh, v, n) == StepExport(w, refresh, v, 3)
    ensures forall n :: n >= 2 ==> StepAdopt(w, v, n) == StepAdopt(w, v, 2)
    ensures forall n :: n >= 1 ==> StepAccept(w, v, n) == StepAccept(w, v, 1)
    ensures forall n :: n >= 1 ==>
              StepCapture(w, c, stage, revision, gate, n) == StepCapture(w, c, stage, revision, gate, 1)
  {
  }

  // ----- the invariant -----

  ghost predicate SameRelease(a: Lnd, b: Lnd) {
    a.revision == b.revision && a.values == b.values
  }

  /** What every passed handoff command showed: the wallet of its baseline, after a whole exercise. */
  ghost predicate Justified(log: seq<Event>, j: nat)
    requires j < |log|
  {
    log[j].Shown? ==>
      && SameIdentity(log[j].baseline.lnd, log[j].lnd)
      && (!log[j].kind.Verified? ==> SameWallet(log[j].baseline.lnd, log[j].lnd))
      && (log[j].kind.Adopted? ==> SameRelease(log[j].baseline.lnd, log[j].lnd))
      && (log[j].kind.Verified? ==>
            exists i {:trigger log[i]} :: 0 <= i < j && log[i].Shown? && log[i].kind.Accepted?
                && log[i].baseline == log[j].baseline)
      && ExerciseShown(log[..j], log[j].config)
  }

  ghost predicate ExerciseShown(log: seq<Event>, c: Config) {
    exists b, f, r :: SawRecovery(log, c, b, f, r) && b != f && f != r && b != r
  }

  ghost predicate AllJustified(log: seq<Event>) {
    forall j {:trigger log[j]} :: 0 <= j < |log| ==> Justified(log, j)
  }

  ghost predicate Inv(w: World) {
    && (w.proof.Some? ==> Evidenced(w.proof.value, w.log))
    && (w.acceptance.Some? ==>
          exists i {:trigger w.log[i]} :: 0 <= i < |w.log| && w.log[i].Shown? && w.log[i].kind.Accepted?
            && w.log[i].baseline == w.acceptance.value.baseline)
    && AllJustified(w.log)
  }

  lemma DoneIsShown(w: World, c: Config)
    requires Inv(w) && ExerciseDone(w.proof, c)
    ensures ExerciseShown(w.log, c)
  {
    var s := w.proof.value.stages;
    ThreeRevisions(s);
    assert SawRecovery(w.log, c, s[Baseline], s[Failure], s[Recovery]);
  }

  lemma JustifiedAppend(log: seq<Event>, e: Event)
    requires AllJustified(log) && Justified(log + [e], |log|)
    ensures AllJustified(log + [e])
  {
    forall j: nat {:trigger Justified(log + [e], j)} | j < |log + [e]| ensures Justified(log + [e], j) {
      if j < |log| { StillJustified(log, e, j); }
    }
  }

  lemma StillJustified(log: seq<Event>, e: Event, j: nat)
    requires j < |log| && Justified(log, j)
    ensures Justified(log + [e], j)
  {
    var next := log + [e];
    assert next[j] == log[j] && next[..j] == log[..j];
    if log[j].Shown? && log[j].kind.Verified? {
      var i :| 0 <= i < j && log[i].Shown? && log[i].kind.Accepted? && log[i].baseline == log[j].baseline;
      assert next[i] == log[i];
    }
  }

  lemma ShownKeeps(w: World, w': World, e: Event)
    requires Inv(w) && e.Shown? && w'.proof == w.proof && w'.log == w.log + [e]
    requires w'.acceptance == if e.kind.Accepted? then Some(Acceptance(e.config, e.baseline)) else w.acceptance
    requires SameIdentity(e.baseline.lnd, e.lnd) && (!e.kind.Verified? ==> SameWallet(e.baseline.lnd, e.lnd))
    requires e.kind.Adopted? ==> SameRelease(e.baseline.lnd, e.lnd)
    requires e.kind.Verified? ==> w.acceptance.Some? && w.acceptance.value.baseline == e.baseline
    requires ExerciseDone(w.proof, e.config)
    ensures Inv(w')
  {
    DoneIsShown(w, e.config);
    assert w'.log[|w.log|] == e && w'.log[..|w.log|] == w.log;
    if w.acceptance.Some? {
      var i :| 0 <= i < |w.log| && w.log[i].Shown? && w.log[i].kind.Accepted?
          && w.log[i].baseline == w.acceptance.value.baseline;
      assert w'.log[i] == w.log[i];
    }
    JustifiedAppend(w.log, e);
    EvidencedMore(w.proof.value, w.log, e);
  }

  lemma CaptureKeeps(w: World, c: Config, stage: Stage, revision: Revision)
    requires Inv(w) && Recorded(w.proof, c, stage, revision).Some?
    ensures Inv(w.(proof := Recorded(w.proof, c, stage, revision), log := w.log + [Captured(c, stage, revision)]))
  {
    var e := Captured(c, stage, revision);
    CaptureIsEvidenced(w.proof, w.log, c, stage, revision);
    JustifiedAppend(w.log, e);
    if w.acceptance.Some? {
      var i :| 0 <= i < |w.log| && w.log[i].Shown? && w.log[i].kind.Accepted?
          && w.log[i].baseline == w.acceptance.value.baseline;
      assert (w.log + [e])[i] == w.log[i];
    }
  }

  lemma AdoptKeeps(w: World, v: View, effects: nat)
    requires Inv(w)
    ensures Inv(StepAdopt(w, v, effects))
  {
    if MayAdopt(w, v) && effects > 0 {
      ShownKeeps(w, StepAdopt(w, v, effects), Shown(Adopted, v.config, w.baseline.value, v.lnd));
    }
  }

  lemma AcceptKeeps(w: World, v: View, effects: nat)
    requires Inv(w)
    ensures Inv(StepAccept(w, v, effects))
  {
    if MayVerify(w, true, v) && effects > 0 {
      ShownKeeps(w, StepAccept(w, v, effects), Shown(Accepted, v.config, w.baseline.value, v.lnd));
    }
  }

  lemma VerifyKeeps(w: World, v: View)
    requires Inv(w)
    ensures Inv(Step(w, Verify(v)))
  {
    if MayVerify(w, false, v) {
      ShownKeeps(w, Step(w, Verify(v)), Shown(Verified, v.config, w.baseline.value, v.lnd));
    }
  }

  lemma StepKeeps(w: World, a: Action)
    requires Inv(w)
    ensures Inv(Step(w, a))
  {
    match a
    case CaptureProbe(c, stage, revision, gate, effects) =>
      if StepCapture(w, c, stage, revision, gate, effects) != w { CaptureKeeps(w, c, stage, revision); }
    case Adopt(v, effects) => AdoptKeeps(w, v, effects);
    case Verify(v) => VerifyKeeps(w, v);
    case Accept(v, effects) => AcceptKeeps(w, v, effects);
    case _ =>
  }

  lemma {:induction false} RunKeeps(actions: seq<Action>)
    ensures Inv(Run(actions))
  {
    if actions != [] {
      RunKeeps(actions[..|actions| - 1]);
      StepKeeps(Run(actions[..|actions| - 1]), actions[|actions| - 1]);
    }
  }

  /** In every run the recorded stages are a prefix of baseline, failure, recovery with distinct
      neighbours, captured in that order; and the exercise counts as done exactly when recovery is
      recorded at a revision other than the baseline's. */
  lemma StagesAreSequential(actions: seq<Action>, c: Config)
    ensures
      var w := Run(actions);
      && (w.proof.Some? ==> Evidenced(w.proof.value, w.log) && Prefix(w.proof.value.stages))
      && (ExerciseDone(w.proof, c) <==>
            && w.proof.Some? && w.proof.value.config == c && Recovery in w.proof.value.stages
            && w.proof.value.stages[Recovery] != w.proof.value.stages[Baseline])
  {
    RunKeeps(actions);
    var w := Run(actions);
    if w.proof.Some? {
      EvidencedIsPrefix(w.proof.value, w.log);
      if Recovery in w.proof.value.stages { ThreeRevisions(w.proof.value.stages); }
    }
  }

  /** Every passed adopt, accept and verify came after a whole exercise of its configuration and showed
      its baseline's wallet; every passed verify after an accept of the same baseline. */
  lemma PassedCommandsAreJustified(actions: seq<Action>, j: nat)
    requires j < |Run(actions).log|
    ensures Justified(Run(actions).log, j)
  {
    RunKeeps(actions);
  }

  // ----- the baseline after adoption -----

  /** The handoff file and the mark are only removed while nothing is marked. */
  ghost predicate Undisturbed(actions: seq<Action>) {
    actions != [] ==>
      && Undisturbed(actions[..|actions| - 1])
      && (actions[|actions| - 1].RemoveFile? || actions[|actions| - 1].RemoveMark? ==>
          !Run(actions[..|actions| - 1]).mark)
  }

  /** Once adopted, every later event shows the baseline that was adopted, and it is still stored. */
  ghost predicate Frozen(w: World) {
    && (w.mark ==> w.file.Some? && w.baseline.Some?)
    && (forall i {:trigger w.log[i]} :: 0 <= i < |w.log| && w.log[i].Shown? && w.log[i].kind.Adopted? ==>
          w.mark && w.baseline == Some(w.log[i].baseline))
    && (forall i, j {:trigger w.log[i], w.log[j]} ::
          0 <= i < j < |w.log| && w.log[i].Shown? && w.log[i].kind.Adopted? && w.log[j].Shown? ==>
          w.log[j].baseline == w.log[i].baseline)
  }

  lemma {:induction false} RunStaysFrozen(actions: seq<Action>)
    requires Undisturbed(actions)
    ensures Frozen(Run(actions))
  {
    if actions != [] {
      RunStaysFrozen(actions[..|actions| - 1]);
    }
  }

  /** After an adoption no export replaces the baseline, and every later passed adopt, accept or verify
      shows the very PVCs and node keys that the adoption showed. */
  lemma HandoffKeepsIdentity(actions: seq<Action>, i: nat, j: nat)
    requires Undisturbed(actions) && i < j < |Run(actions).log|
    requires Run(actions).log[i].Shown? && Run(actions).log[i].kind.Adopted? && Run(actions).log[j].Shown?
    ensures SameIdentity(Run(actions).log[i].lnd, Run(actions).log[j].lnd)
    ensures Run(actions).baseline == Some(Run(actions).log[i].baseline) && Run(actions).mark
  {
    RunStaysFrozen(actions);
    RunKeeps(actions);
    var log := Run(actions).log;
    assert Justified(log, i) && Justified(log, j);
    assert log[j].baseline == log[i].baseline;
  }

  /** On marked ground an export changes the baseline or the file exactly when the handoff file is
      gone, it was not asked to refresh, its checks pass and something really differs. */
  lemma MarkedExport(w: World, refresh: bool, v: View, effects: nat)
    requires w.mark
    ensures StepExport(w, refresh, v, effects) != w <==>
              && w.file.None? && !refresh && v.gate && ExerciseDone(w.proof, v.config) && effects >= 1
              && (effects >= 2 || w.baseline != Some(Before(v.config, v.lnd)))
  {
    var w' := StepExport(w, refresh, v, effects);
    if w.file.None? && MayExport(w, refresh, v) && effects >= 2 { assert w'.file.Some?; }
  }

  lemma ThreeCaptures(a: Action, b: Action, c: Action)
    requires a == CaptureProbe(0, Baseline, 1, true, 1) && b == CaptureProbe(0, Failure, 2, true, 1)
    requires c == CaptureProbe(0, Recovery, 3, true, 1)
    ensures
      var w := Step(Step(Step(INIT, a), b), c);
      ExerciseDone(w.proof, 0) && w.baseline.None? && w.file.None? && !w.mark
  {
    var w := Step(Step(Step(INIT, a), b), c);
    var s := map[Baseline := 1, Failure := 2, Recovery := 3];
    var one, two := map[Baseline := 1], map[Baseline := 1, Failure := 2];
    assert Step(INIT, a).proof == Some(Proof(0, one));
    assert one - {Recovery} == one && two == one[Failure := 2];
    assert Step(Step(INIT, a), b).proof == Some(Proof(0, two));
    assert w.proof == Some(Proof(0, s));
    ThreeRevisions(s);
  }

  lemma ThreeStages(captures: seq<Action>)
    requires captures == [CaptureProbe(0, Baseline, 1, true, 1), CaptureProbe(0, Failure, 2, true, 1),
                          CaptureProbe(0, Recovery, 3, true, 1)]
    ensures
      var w := Run(captures);
      ExerciseDone(w.proof, 0) && w.baseline.None? && w.file.None? && !w.mark
  {
    FoldThree(Step, INIT, captures[0], captures[1], captures[2]);
    ThreeCaptures(captures[0], captures[1], captures[2]);
  }

  /** So deleting the file alone lets a marked baseline be replaced by that of another wallet. */
  lemma DeletedFileLosesBaseline() returns (actions: seq<Action>, again: Action)
    ensures
      var w := Run(actions);
      && w.mark && w.baseline.Some? && Step(w, again).mark && Step(w, again).baseline.Some?
      && !SameIdentity(w.baseline.value.lnd, Step(w, again).baseline.value.lnd)
  {
    var v := View(0, true, Lnd(1, 5, map["data-lnd-0-0" := 7], map[]), Spec(true, 5), false);
    var captures := [CaptureProbe(0, Baseline, 1, true, 1), CaptureProbe(0, Failure, 2, true, 1),
                     CaptureProbe(0, Recovery, 3, true, 1)];
    var handoff := [Export(false, v, 3), Adopt(v, 2), RemoveFile];
    actions := captures + handoff;
    again := Export(false, v.(lnd := v.lnd.(pvcs := map["data-lnd-0-0" := 8])), 3);
    ThreeStages(captures);
    FoldAppend(Step, INIT, captures, handoff);
    FoldThree(Step, Run(captures), handoff[0], handoff[1], handoff[2]);
    assert v.lnd.pvcs["data-lnd-0-0"] != again.view.lnd.pvcs["data-lnd-0-0"];
    OtherWallet(Run(captures), v, again.view);
  }

  lemma OtherWallet(w: World, v: View, v': View)
    requires ExerciseDone(w.proof, v.config) && w.baseline.None? && w.file.None? && !w.mark
    requires v.gate && v.release == Spec(true, v.lnd.values) && !v.history
    requires v' == v.(lnd := v'.lnd) && !SameIdentity(v.lnd, v'.lnd)
    ensures
      var marked := Step(Step(Step(w, Export(false, v, 3)), Adopt(v, 2)), RemoveFile);
      && marked.mark && marked.baseline == Some(Before(v.config, v.lnd))
      && Step(marked, Export(false, v', 3)).mark
      && Step(marked, Export(false, v', 3)).baseline == Some(Before(v.config, v'.lnd))
  {
  }
}
