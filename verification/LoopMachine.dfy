/**
 Any number of clients of the Loop journal, interleaved at every read, every write and every
 POST, against a daemon that moves on its own. A client may die anywhere; a write or a POST it
 left behind may still arrive later, or never. The theorems are in LoopTheorems.
 */
module LoopMachine {
  import opened Runs
  import opened Wrappers
  import opened Intents
  import opened LoopJournal

  /** `began` is the clock reading of the quote-lifetime check. */
  datatype Job =
    | Submit(plan: Plan, budget: int, automatic: bool, approval: Option<ApprovalId>, began: int)
    | Arm(rule: Rule)
    | Disarm(target: Option<ApprovalId>)
    | Show

  /** What the journal history keeps of one claim: the clock behind its cutoff, its budget, and the plan and the
      listing it was decided on. */
  datatype Claim = Claim(began: int, now: int, budget: int, approval: Option<ApprovalId>, plan: Plan,
                         listing: seq<Swap>)

  datatype Purpose =
    | Continue(job: Job, listing: seq<Swap>)
    | Claiming(record: Record, claim: Claim)
    | Arming(id: ApprovalId)
    | Disarming(target: Option<ApprovalId>)

  /** Where a client stands; one that is not in the map is not running. `base` is the
      resourceVersion its copy of the document came with. */
  datatype Client =
    | Started(job: Job)
    | Loaded(job: Job, base: nat, st: State)
    | Ready(job: Job, base: nat, st: State, listing: seq<Swap>)
    | Saving(base: nat, next: State, purpose: Purpose)
    | Claimed(record: Record)
    | Sent(record: Record)

  datatype AutoEvent = Armed(id: ApprovalId) | Fired(id: ApprovalId) | Disarmed(target: Option<ApprovalId>)

  /** `version` is the stored resourceVersion, 0 while the document does not exist. `log`,
      `claims`, `autos` and `issued`, the rule behind every approval id, are history the proofs speak about. */
  datatype World = World(version: nat, st: State, daemon: map<Label, Swap>, clients: map<nat, Client>,
                         log: seq<Event<Label>>, claims: seq<Claim>, autos: seq<AutoEvent>,
                         issued: map<ApprovalId, Rule>)

  datatype Action =
    | Begin(c: nat, job: Job)
    | Load(c: nat)
    | Refresh(c: nat, listing: seq<Swap>, views: seq<LndView>)
    | Decide(c: nat, now: int, gate: bool, newId: ApprovalId)
    | Land(c: nat, acknowledged: bool)
    | Post(c: nat)
    | Accept(c: nat, swap: Swap)
    | Crash(c: nat)
    | Progress(tag: Label, swap: Swap)

  ghost const INIT := World(0, EMPTY, map[], map[], [], [], [], map[])

  /** A listing may omit or repeat swaps, but shows this tool's swaps as they are. */
  ghost predicate Truthful(listing: seq<Swap>, daemon: map<Label, Swap>) {
    forall s :: s in listing && s.tag.Some? ==> s.tag.value in daemon && daemon[s.tag.value] == s
  }

  ghost function Stop(w: World, c: nat): World {
    w.(clients := w.clients - {c})
  }

  ghost function Put(w: World, c: nat, client: Client): World {
    w.(clients := w.clients[c := client])
  }

  ghost predicate MayBegin(job: Job) {
    job.Submit? ==> 0 <= job.began - job.plan.created <= QUOTE_LIFETIME && Intact(job.plan)
  }

  ghost predicate DisarmApplies(auto: Automatic, target: Option<ApprovalId>) {
    auto.enabled && (target.None? || auto.approval == target)
  }

  ghost function ApplyLoad(w: World, c: nat, job: Job): World {
    if !job.Disarm? then Put(w, c, Loaded(job, w.version, w.st))
    else if DisarmApplies(w.st.auto, job.target) then
      Put(w, c, Saving(w.version, w.st.(auto := w.st.auto.(enabled := false)), Disarming(job.target)))
    else Stop(w, c).(autos := w.autos + [Disarmed(job.target)])
  }

  ghost function ApplyRefresh(w: World, c: nat, cl: Client, listing: seq<Swap>, views: seq<LndView>): World
    requires cl.Loaded? && |views| == |cl.st.records|
  {
    var next := ReconcileState(cl.st, listing, views);
    if next.None? then Stop(w, c)
    else if next.value == cl.st then Put(w, c, Ready(cl.job, cl.base, cl.st, listing))
    else Put(w, c, Saving(cl.base, next.value, Continue(cl.job, listing)))
  }

  ghost function ApplyDecide(w: World, c: nat, cl: Client, now: int, gate: bool, newId: ApprovalId): World
    requires cl.Ready?
  {
    match cl.job
    case Submit(p, budget, automatic, approval, began) =>
      if MayClaim(cl.st, cl.listing, p, budget, automatic, approval, now, gate) then
        var claim := Claim(began, now, budget, if automatic then approval else None, p, cl.listing);
        Put(w, c, Saving(cl.base, ClaimedState(cl.st, p, automatic), Claiming(NewRecord(p, automatic), claim)))
      else Stop(w, c)
    case Arm(rule) =>
      if Quiet(cl.st, cl.listing) && gate && RuleAccepted(rule) && newId !in w.issued then
        Put(w, c, Saving(cl.base, ArmedState(cl.st, rule, newId), Arming(newId))).(issued := w.issued[newId := rule])
      else Stop(w, c)
    case _ => Stop(w, c)
  }

  /** The event of a reconcile write: the last record, the only one that can, became terminal. */
  ghost function Resolution(oldRecords: seq<Record>, records: seq<Record>): seq<Event<Label>> {
    var n := |oldRecords| - 1;
    if 0 <= n < |records| && !Terminal(oldRecords[n].status) && Terminal(records[n].status)
    then [Resolve(oldRecords[n].tag)] else []
  }

  /** A write arrives: it is stored exactly when its base version is still current. */
  ghost function ApplyLand(w: World, c: nat, cl: Client, acknowledged: bool): World
    requires cl.Saving?
  {
    if cl.base != w.version then Stop(w, c)
    else
      var stored := w.(version := w.version + 1, st := cl.next);
      match cl.purpose
      case Continue(job, listing) =>
        var v := stored.(log := w.log + Resolution(w.st.records, cl.next.records));
        if acknowledged then Put(v, c, Ready(job, v.version, cl.next, listing)) else Stop(v, c)
      case Claiming(r, claim) =>
        var fired := if claim.approval.Some? then [Fired(claim.approval.value)] else [];
        var v := stored.(log := w.log + [Intent(r.tag)], claims := w.claims + [claim], autos := w.autos + fired);
        if acknowledged then Put(v, c, Claimed(r)) else Stop(v, c)
      case Arming(id) => Stop(stored.(autos := w.autos + [Armed(id)]), c)
      case Disarming(target) => Stop(stored.(autos := w.autos + [Disarmed(target)]), c)
  }

  /** One step of the whole system; an action that is not possible changes nothing. */
  ghost function Apply(w: World, a: Action): World {
    match a
    case Begin(c, job) => if c !in w.clients && MayBegin(job) then Put(w, c, Started(job)) else w
    case Load(c) => if c in w.clients && w.clients[c].Started? then ApplyLoad(w, c, w.clients[c].job) else w
    case Refresh(c, listing, views) =>
      if c in w.clients && w.clients[c].Loaded? && |views| == |w.clients[c].st.records| && Truthful(listing, w.daemon)
      then ApplyRefresh(w, c, w.clients[c], listing, views) else w
    case Decide(c, now, gate, newId) =>
      if c in w.clients && w.clients[c].Ready? then ApplyDecide(w, c, w.clients[c], now, gate, newId) else w
    case Land(c, acknowledged) =>
      if c in w.clients && w.clients[c].Saving? then ApplyLand(w, c, w.clients[c], acknowledged) else w
    case Post(c) =>
      if c in w.clients && w.clients[c].Claimed? then
        Put(w, c, Sent(w.clients[c].record)).(log := w.log + [Effect(w.clients[c].record.tag)])
      else w
    case Accept(c, swap) =>
      if c in w.clients && w.clients[c].Sent? && swap.tag == Some(w.clients[c].record.tag) then
        Stop(w, c).(daemon := w.daemon[w.clients[c].record.tag := swap])
      else w
    case Crash(c) => Stop(w, c)
    case Progress(tag, swap) =>
      if tag in w.daemon && !Terminal(StateOf(w.daemon[tag])) && swap.tag == Some(tag) then
        w.(daemon := w.daemon[tag := swap])
      else w
  }

  ghost function Run(actions: seq<Action>): World {
    Fold(Apply, INIT, actions)
  }

  // ----- the approval discipline -----

  /** The approval that may still fire after these events. */
  ghost function Live(autos: seq<AutoEvent>): Option<ApprovalId> {
    if autos == [] then None
    else
      var before := Live(autos[..|autos| - 1]);
      match autos[|autos| - 1]
      case Armed(id) => Some(id)
      case Fired(_) => None
      case Disarmed(t) => if t.None? || t == before then None else before
  }

  /** Approvals are armed under fresh ids and fire only while live. */
  ghost predicate Lawful(autos: seq<AutoEvent>) {
    autos != [] ==>
      && Lawful(autos[..|autos| - 1])
      && (autos[|autos| - 1].Armed? ==> autos[|autos| - 1] !in autos[..|autos| - 1])
      && (autos[|autos| - 1].Fired? ==> Live(autos[..|autos| - 1]) == Some(autos[|autos| - 1].id))
  }

  ghost predicate Covers(e: AutoEvent, id: ApprovalId) {
    e == Fired(id) || (e.Disarmed? && (e.target.None? || e.target == Some(id)))
  }

  /** A live approval was armed, and nothing has used or withdrawn it since. */
  lemma {:induction false} LiveWasArmed(autos: seq<AutoEvent>, id: ApprovalId) returns (k: nat)
    requires Live(autos) == Some(id)
    ensures k < |autos| && autos[k] == Armed(id)
    ensures forall i {:trigger autos[i]} :: k < i < |autos| ==> !Covers(autos[i], id)
  {
    var n := |autos| - 1;
    if autos[n] == Armed(id) {
      k := n;
    } else {
      k := LiveWasArmed(autos[..n], id);
      forall i {:trigger autos[i]} | k < i < |autos| ensures !Covers(autos[i], id) {
        if i < n { assert autos[..n][i] == autos[i]; }
      }
    }
  }

  lemma {:induction false} LawfulPrefix(autos: seq<AutoEvent>, n: nat)
    requires Lawful(autos) && n <= |autos|
    ensures Lawful(autos[..n])
    decreases |autos| - n
  {
    if n == |autos| {
      assert autos[..n] == autos;
    } else {
      LawfulPrefix(autos, n + 1);
      assert autos[..n + 1][..n] == autos[..n];
    }
  }

  lemma LawfulAppend(autos: seq<AutoEvent>, e: AutoEvent)
    ensures Lawful(autos + [e]) <==>
              && Lawful(autos)
              && (e.Armed? ==> e !in autos)
              && (e.Fired? ==> Live(autos) == Some(e.id))
    ensures Live(autos + [e]) == match e
                                 case Armed(id) => Some(id)
                                 case Fired(_) => None
                                 case Disarmed(t) => if t.None? || t == Live(autos) then None else Live(autos)
  {
    assert (autos + [e])[..|autos|] == autos;
  }

  /** An approval id is armed once, so one that is live has never fired. */
  lemma LiveNeverFired(autos: seq<AutoEvent>, id: ApprovalId)
    requires Lawful(autos) && Live(autos) == Some(id)
    ensures Fired(id) !in autos
  {
    var k := LiveWasArmed(autos, id);
    if Fired(id) in autos {
      var m :| 0 <= m < |autos| && autos[m] == Fired(id);
      LawfulPrefix(autos, m + 1);
      assert autos[..m + 1][..m] == autos[..m];
      var k' := LiveWasArmed(autos[..m], id);
      ArmedOnce(autos, k', k);
    }
  }

  lemma ArmedOnce(autos: seq<AutoEvent>, i: nat, j: nat)
    requires Lawful(autos) && i < j < |autos| && autos[i].Armed? && autos[j].Armed?
    ensures autos[i] != autos[j]
  {
    LawfulPrefix(autos, j + 1);
    assert autos[..j + 1][..j] == autos[..j];
    assert autos[..j][i] == autos[i];
  }

  // ----- the invariant -----

  ghost function Tags(rs: seq<Record>): set<Label> {
    set i | 0 <= i < |rs| :: rs[i].tag
  }

  /** All records but the last are terminal, and the log's slot is held exactly by a
      last record that is not. */
  ghost predicate SingleFlight(rs: seq<Record>, log: seq<Event<Label>>) {
    && Disciplined(log)
    && Replay(log).value.used == Tags(rs)
    && (forall i, j :: 0 <= i < j < |rs| ==> rs[i].tag != rs[j].tag)
    && (forall i :: 0 <= i < |rs| - 1 ==> Terminal(rs[i].status))
    && (Replay(log).value.slot.Free? <==> AllTerminal(rs))
    && (Replay(log).value.slot.Held? ==> |rs| > 0 && rs[|rs| - 1].tag == Replay(log).value.slot.key)
  }

  /** A terminal record repeats what the daemon finally said. */
  ghost predicate Backed(rs: seq<Record>, daemon: map<Label, Swap>) {
    forall i {:trigger rs[i]} :: 0 <= i < |rs| && Terminal(rs[i].status) ==>
      && rs[i].tag in daemon && StateOf(daemon[rs[i].tag]) == rs[i].status
      && ActualFee(rs[i]) == Cost(daemon[rs[i].tag])
  }

  ghost predicate Budgeted(rs: seq<Record>, claims: seq<Claim>) {
    && |claims| == |rs|
    && forall i {:trigger claims[i]} :: 0 <= i < |rs| ==>
         && 0 <= claims[i].began - rs[i].created <= QUOTE_LIFETIME
         && WindowFees(rs[..i], claims[i].now - DAY) + rs[i].reservation <= claims[i].budget
         && (rs[i].automatic <==> claims[i].approval.Some?)
  }

  /** Every automatic claim is one firing, and no two claims share an approval. */
  ghost predicate FiredOnce(claims: seq<Claim>, autos: seq<AutoEvent>) {
    && (forall i {:trigger claims[i]} :: 0 <= i < |claims| && claims[i].approval.Some? ==>
          Fired(claims[i].approval.value) in autos)
    && (forall i, j :: 0 <= i < j < |claims| && claims[i].approval.Some? ==> claims[i].approval != claims[j].approval)
  }

  ghost predicate Automated(w: World) {
    && Lawful(w.autos)
    && FiredOnce(w.claims, w.autos)
    && (forall e :: e in w.autos && e.Armed? ==> e.id in w.issued)
    && (w.st.auto.enabled ==> w.st.auto.approval.Some? && Live(w.autos) == w.st.auto.approval)
  }

  /** How a reconcile may change a record: never its request, and nothing once terminal. */
  ghost predicate Kept(r: Record, r': Record) {
    && r'.tag == r.tag && r'.created == r.created && r'.reservation == r.reservation && r'.amount == r.amount
    && r'.automatic == r.automatic && r'.scid == r.scid && r'.direction == r.direction
    && (Terminal(r.status) ==> r'.status == r.status && ActualFee(r') == ActualFee(r))
  }

  ghost predicate AllKept(rs: seq<Record>, rs': seq<Record>) {
    |rs'| == |rs| && forall i {:trigger rs[i]} {:trigger rs'[i]} :: 0 <= i < |rs| ==> Kept(rs[i], rs'[i])
  }

  /** What a pending write may do to the state it was computed from. */
  ghost predicate Permitted(st: State, daemon: map<Label, Swap>, next: State, purpose: Purpose) {
    match purpose
    case Continue(_, _) =>
      && AllKept(st.records, next.records) && Backed(next.records, daemon)
      && (next.auto == st.auto || next.auto == st.auto.(enabled := false))
    case Claiming(r, claim) =>
      && AllTerminal(st.records) && r.tag !in Tags(st.records) && r.status.Submitting?
      && next == State(st.records + [r], st.auto.(enabled := false))
      && (claim.approval.Some? ==> st.auto.enabled && st.auto.approval == claim.approval)
      && (r.automatic <==> claim.approval.Some?)
      && 0 <= claim.began - r.created <= QUOTE_LIFETIME
      && WindowFees(st.records, claim.now - DAY) + r.reservation <= claim.budget
    case Arming(id) => next.records == st.records && next.auto.approval == Some(id)
    case Disarming(target) => next == st.(auto := st.auto.(enabled := false))
  }

  ghost predicate ClientOk(w: World, cl: Client) {
    match cl
    case Started(job) => MayBegin(job)
    case Loaded(job, base, st) => MayBegin(job) && base <= w.version && (base == w.version ==> st == w.st)
    case Ready(job, base, st, _) => MayBegin(job) && base <= w.version && (base == w.version ==> st == w.st)
    case Saving(base, next, purpose) =>
      && base <= w.version
      && (base == w.version ==> Permitted(w.st, w.daemon, next, purpose))
      && (purpose.Continue? ==> MayBegin(purpose.job))
      && (purpose.Arming? ==> purpose.id in w.issued && Armed(purpose.id) !in w.autos)
    case Claimed(r) => Disciplined(w.log) && Replay(w.log).value.slot == Held(r.tag, false)
    case Sent(r) => Effect(r.tag) in w.log && r.tag !in w.daemon
  }

  ghost predicate Clash(a: Client, b: Client) {
    || (a.Claimed? && b.Claimed?)
    || (a.Sent? && b.Sent? && a.record.tag == b.record.tag)
    || (a.Saving? && b.Saving? && a.purpose.Arming? && a.purpose == b.purpose)
  }

  ghost predicate ClientsOk(w: World) {
    && (forall c :: c in w.clients ==> ClientOk(w, w.clients[c]))
    && (forall c, d :: c in w.clients && d in w.clients && c != d ==> !Clash(w.clients[c], w.clients[d]))
  }

  ghost predicate DaemonOk(w: World) {
    forall l :: l in w.daemon ==> Effect(l) in w.log && w.daemon[l].tag == Some(l)
  }

  ghost predicate Inv(w: World) {
    && SingleFlight(w.st.records, w.log)
    && Backed(w.st.records, w.daemon)
    && Budgeted(w.st.records, w.claims)
    && Automated(w)
    && DaemonOk(w)
    && ClientsOk(w)
  }
}
