/** The Flux exercise and handoff records (ops/flux_ops.py): three evidence stages, the baseline of
    the wallet before the handoff, the ownership mark, and the acceptance. Commands of one host run one
    at a time; each may die after any of its writes. */
module FluxRecords {
  import opened Runs
  import opened Wrappers

  type Revision = nat
  /** The Git configuration's digest together with the cluster's UID. */
  type Config = nat

  datatype Stage = Baseline | Failure | Recovery
  datatype Proof = Proof(config: Config, stages: map<Stage, Revision>)

  datatype Node = Node(pubkey: nat, channels: seq<nat>, active: seq<nat>)
  datatype Lnd = Lnd(revision: nat, values: nat, pvcs: map<string, nat>, nodes: map<string, Node>)
  datatype Before = Before(config: Config, lnd: Lnd)
  /** The digest of the baseline is taken to be injective. */
  datatype Acceptance = Acceptance(config: Config, baseline: Before)
  datatype Spec = Spec(suspended: bool, values: nat)

  /** What one command reads from Git and the cluster; `gate` stands for all its other checks. */
  datatype View = View(config: Config, gate: bool, lnd: Lnd, release: Spec, history: bool)

  datatype Kind = Adopted | Accepted | Verified
  datatype Event =
    | Captured(config: Config, stage: Stage, revision: Revision)
    | Shown(kind: Kind, config: Config, baseline: Before, lnd: Lnd)

  /** The cluster's records, the local handoff file, whether the kustomization lists it, and the
      ownership mark; `log` is history. */
  datatype World = World(proof: Option<Proof>, baseline: Option<Before>, acceptance: Option<Acceptance>,
                         file: Option<Spec>, listed: bool, mark: bool, log: seq<Event>)

  const INIT := World(None, None, None, None, false, false, [])

  // ----- the exercise -----

  predicate Admissible(stages: map<Stage, Revision>, stage: Stage, revision: Revision) {
    match stage
    case Baseline => true
    case Failure => Baseline in stages && stages[Baseline] != revision
    case Recovery => Failure in stages && stages[Failure] != revision
  }

  function Cleared(stages: map<Stage, Revision>, stage: Stage): map<Stage, Revision> {
    match stage
    case Baseline => map[]
    case Failure => stages - {Recovery}
    case Recovery => stages
  }

  /** The record after capturing a stage, or None when the command raises. */
  function Recorded(oldProof: Option<Proof>, c: Config, stage: Stage, revision: Revision): Option<Proof> {
    var proof := if oldProof.Some? then oldProof.value else Proof(c, map[]);
    if proof.config != c || !Admissible(proof.stages, stage, revision) then None
    else Some(proof.(stages := Cleared(proof.stages, stage)[stage := revision]))
  }

  predicate ExerciseDone(proof: Option<Proof>, c: Config) {
    && proof.Some? && proof.value.config == c
    && proof.value.stages.Keys == {Baseline, Failure, Recovery} && |proof.value.stages.Values| == 3
  }

  // ----- the handoff -----

  function Pubkeys(lnd: Lnd): map<string, nat> {
    map n | n in lnd.nodes :: lnd.nodes[n].pubkey
  }

  predicate SameWallet(a: Lnd, b: Lnd) {
    a.pvcs == b.pvcs && a.nodes == b.nodes
  }

  predicate SameIdentity(a: Lnd, b: Lnd) {
    a.pvcs == b.pvcs && Pubkeys(a) == Pubkeys(b)
  }

  predicate MayExport(w: World, refresh: bool, v: View) {
    && v.gate && ExerciseDone(w.proof, v.config)
    && (if w.file.Some? then refresh && w.file.value.suspended && v.release.suspended && !v.history && !w.mark
        else !refresh)
  }

  predicate MayAdopt(w: World, v: View) {
    && v.gate && ExerciseDone(w.proof, v.config)
    && w.baseline.Some? && w.baseline.value.config == v.config
    && SameWallet(w.baseline.value.lnd, v.lnd)
    && w.baseline.value.lnd.revision == v.lnd.revision && w.baseline.value.lnd.values == v.lnd.values
    && v.release.suspended && v.release.values == v.lnd.values
    && w.file == Some(v.release)
  }

  predicate MayVerify(w: World, initial: bool, v: View) {
    && v.gate && ExerciseDone(w.proof, v.config)
    && w.baseline.Some? && w.baseline.value.config == v.config
    && (if initial then SameWallet(w.baseline.value.lnd, v.lnd)
        else
          && w.acceptance == Some(Acceptance(v.config, w.baseline.value))
          && SameIdentity(w.baseline.value.lnd, v.lnd))
    && v.release.values == v.lnd.values && w.mark
  }

  datatype Action =
    | CaptureProbe(c: Config, stage: Stage, revision: Revision, gate: bool, effects: nat)
    | Export(refresh: bool, view: View, effects: nat)
    | Adopt(view: View, effects: nat)
    | Verify(view: View)
    | Accept(view: View, effects: nat)
    | EditFile(spec: Spec)
    | RemoveFile
    | RemoveMark

  function StepCapture(w: World, c: Config, stage: Stage, revision: Revision, gate: bool, effects: nat): World {
    var next := Recorded(w.proof, c, stage, revision);
    if !gate || next.None? || effects == 0 then w
    else w.(proof := next, log := w.log + [Captured(c, stage, revision)])
  }

  /** The baseline is recorded before the file is written, and the file before it is listed. */
  function StepExport(w: World, refresh: bool, v: View, effects: nat): World {
    if !MayExport(w, refresh, v) || effects == 0 then w
    else
      var recorded := w.(baseline := Some(Before(v.config, v.lnd)));
      var written := recorded.(file := Some(Spec(true, v.lnd.values)));
      if effects == 1 then recorded else if effects == 2 then written else written.(listed := true)
  }

  /** Ownership is marked before the file is released from suspension. */
  function StepAdopt(w: World, v: View, effects: nat): World {
    if !MayAdopt(w, v) || effects == 0 then w
    else
      var marked := w.(mark := true, log := w.log + [Shown(Adopted, v.config, w.baseline.value, v.lnd)]);
      if effects == 1 then marked else marked.(file := Some(w.file.value.(suspended := false)))
  }

  function StepAccept(w: World, v: View, effects: nat): World {
    if !MayVerify(w, true, v) || effects == 0 then w
    else w.(acceptance := Some(Acceptance(v.config, w.baseline.value)),
            log := w.log + [Shown(Accepted, v.config, w.baseline.value, v.lnd)])
  }

  function Step(w: World, a: Action): World {
    match a
    case CaptureProbe(c, stage, revision, gate, effects) => StepCapture(w, c, stage, revision, gate, effects)
    case Export(refresh, v, effects) => StepExport(w, refresh, v, effects)
    case Adopt(v, effects) => StepAdopt(w, v, effects)
    case Verify(v) =>
      if MayVerify(w, false, v) then w.(log := w.log + [Shown(Verified, v.config, w.baseline.value, v.lnd)]) else w
    case Accept(v, effects) => StepAccept(w, v, effects)
    case EditFile(spec) => if w.file.Some? then w.(file := Some(spec)) else w
    case RemoveFile => w.(file := None)
    case RemoveMark => w.(mark := false)
  }

  ghost function Run(actions: seq<Action>): World {
    Fold(Step, INIT, actions)
  }

  /** The records as the commands change them; the boolean results tell whether the command passed. */
  class Records {
    var proof: Option<Proof>
    var baseline: Option<Before>
    var acceptance: Option<Acceptance>
    var file: Option<Spec>
    var listed: bool
    var mark: bool
    ghost var log: seq<Event>

    ghost function Now(): World
      reads this
    {
      World(proof, baseline, acceptance, file, listed, mark, log)
    }

    method CaptureProbe(c: Config, stage: Stage, revision: Revision, gate: bool, effects: nat) returns (passed: bool)
      modifies this
      ensures Now() == StepCapture(old(Now()), c, stage, revision, gate, effects)
      ensures passed <==> gate && Recorded(old(proof), c, stage, revision).Some? && effects >= 1
    {
      if !gate { return false; }
      var p := if proof.Some? then proof.value else Proof(c, map[]);
      if p.config != c { return false; }
      var stages := p.stages;
      match stage {
        case Baseline => stages := map[];
        case Failure =>
          if Baseline !in stages || stages[Baseline] == revision { return false; }
          stages := stages - {Recovery};
        case Recovery =>
          if Failure !in stages || stages[Failure] == revision { return false; }
      }
      if effects == 0 { return false; }
      proof, log := Some(p.(stages := stages[stage := revision])), log + [Captured(c, stage, revision)];
      return true;
    }

    method ExportLnd(refresh: bool, v: View, effects: nat) returns (passed: bool)
      modifies this
      ensures Now() == StepExport(old(Now()), refresh, v, effects)
      ensures passed <==> MayExport(old(Now()), refresh, v) && effects >= 3
    {
      if !v.gate || !ExerciseDone(proof, v.config) { return false; }
      if file.Some? {
        if !refresh || !file.value.suspended || !v.release.suspended || v.history || mark { return false; }
      } else if refresh {
        return false;
      }
      if effects == 0 { return false; }
      baseline := Some(Before(v.config, v.lnd));
      if effects == 1 { return false; }
      file := Some(Spec(true, v.lnd.values));
      if effects == 2 { return false; }
      listed := true;
      return true;
    }

    method Adopt(v: View, effects: nat) returns (passed: bool)
      modifies this
      ensures Now() == StepAdopt(old(Now()), v, effects)
      ensures passed <==> MayAdopt(old(Now()), v) && effects >= 2
    {
      if !v.gate || !ExerciseDone(proof, v.config) { return false; }
      if baseline.None? || baseline.value.config != v.config { return false; }
      var before := baseline.value.lnd;
      if before.pvcs != v.lnd.pvcs || before.nodes != v.lnd.nodes { return false; }
      if before.revision != v.lnd.revision || before.values != v.lnd.values { return false; }
      if !v.release.suspended || v.release.values != v.lnd.values || file != Some(v.release) { return false; }
      if effects == 0 { return false; }
      mark, log := true, log + [Shown(Adopted, v.config, baseline.value, v.lnd)];
      if effects == 1 { return false; }
      file := Some(file.value.(suspended := false));
      return true;
    }

    method Verify(initial: bool, v: View) returns (passed: bool)
      ensures passed <==> MayVerify(Now(), initial, v)
    {
      if !v.gate || !ExerciseDone(proof, v.config) { return false; }
      if baseline.None? || baseline.value.config != v.config { return false; }
      var before := baseline.value.lnd;
      if initial {
        if before.pvcs != v.lnd.pvcs || before.nodes != v.lnd.nodes { return false; }
      } else {
        if acceptance != Some(Acceptance(v.config, baseline.value)) { return false; }
        if before.pvcs != v.lnd.pvcs || Pubkeys(before) != Pubkeys(v.lnd) { return false; }
      }
      return v.release.values == v.lnd.values && mark;
    }

    method Accept(v: View, effects: nat) returns (passed: bool)
      modifies this
      ensures Now() == StepAccept(old(Now()), v, effects)
      ensures passed <==> MayVerify(old(Now()), true, v) && effects >= 1
    {
      passed := Verify(true, v);
      if !passed || effects == 0 { return false; }
      acceptance := Some(Acceptance(v.config, baseline.value));
      log := log + [Shown(Accepted, v.config, baseline.value, v.lnd)];
    }
  }
}
