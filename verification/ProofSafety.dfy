/** What the proof-payment journal promises over every run of its operations and crashes. */
module ProofSafety {
  import opened Wrappers
  import opened Intents
  import opened ForwardingProof
  import opened ProofJournal
  import opened Selections

  function AbstractEntry(e: Entry): Event<string> {
    match e
    case Intended(r, _, _) => Intent(r.id)
    case Sent(r) => Effect(r.id)
    case Settled(r, _, _) => Resolve(r.id)
  }

  ghost function StateOf(log: seq<Entry>): Machine<string>
    requires Disciplined(Project(log, AbstractEntry))
  {
    Replay(Project(log, AbstractEntry)).value
  }

  /** The payer itself reports the payment of this hash failed. */
  predicate PayerReportsFailure(r: Record, after: Record, v: View) {
    && v.payment.Some? && Some(v.payment.value.hash) == r.hash && v.payment.value.state.Failed?
    && after == r.(state := State.Failed)
  }

  /** Payment, invoice and exactly one local forward all agree with the record. */
  ghost predicate FullyValidated(r: Record, after: Record, v: View) {
    && r.hash.Some? && v.payment.Some? && v.invoice.Some? && v.events.Some? && v.invoice.value.hash == r.hash
    && exists k, j ::
         && ProvedBy(RequestOf(r), v.payment.value, v.invoice.value, v.events.value, v.nowNs, k, j)
         && after == Record(r.plan, r.id, r.startedNs, r.hash, Complete,
                            Some(Evidence(RequestOf(r), v.payment.value.feeMsat.value, v.events.value[j].ns.value,
                                          v.nowNs)))
  }

  /** The three wallets and both channels are still those of the plan. */
  ghost predicate PartiesShown(p: Plan, v: View) {
    && v.router == Some(p.identity) && v.payer == Some(p.payer) && v.receiver == Some(p.receiver)
    && (exists i {:trigger v.channels[i]} :: 0 <= i < |v.channels| && Shows(v.channels[i], p.incoming))
    && (exists i {:trigger v.channels[i]} :: 0 <= i < |v.channels| && Shows(v.channels[i], p.outgoing))
  }

  /** Channel i is the only active public one with this peer. */
  ghost predicate OnlyWith(channels: seq<Channel>, peer: string, i: int) {
    && 0 <= i < |channels| && IsLeg(channels[i], channels[i].id, peer)
    && forall k :: 0 <= k < |channels| && k != i ==> !IsLeg(channels[k], channels[k].id, peer)
  }

  /** These three wallets and their only two channels make this very plan. */
  ghost predicate PlannedOn(w: Wallets, p: Plan) {
    exists i, j ::
      && OnlyWith(w.channels, w.payer.identity, i) && OnlyWith(w.channels, w.receiver.identity, j)
      && w.router.usable && w.payer.usable && w.receiver.usable
      && w.router.identity != w.payer.identity && w.router.identity != w.receiver.identity
      && w.payer.identity != w.receiver.identity
      && 1 <= p.amountSat <= 100 && 0 <= p.feeLimitSat <= 100 && w.channels[i].id != w.channels[j].id
      && p.identity == w.router.identity && p.payer == w.payer.identity && p.receiver == w.receiver.identity
      && p.incoming == Leg(w.channels[i].id, w.channels[i].point, w.payer.identity)
      && p.outgoing == Leg(w.channels[j].id, w.channels[j].point, w.receiver.identity)
  }

  lemma WithIsOnly(channels: seq<Channel>, peer: string)
    ensures |ActiveWith(channels, peer)| == 1 <==> exists i :: OnlyWith(channels, peer, i)
    ensures forall i :: OnlyWith(channels, peer, i) ==>
              ActiveWith(channels, peer) == [channels[i]] && OnlyLeg(channels, channels[i].id, peer, i)
  {
    var p := (c: Channel) => c.peer == peer && c.active && !c.isPrivate;
    if |ActiveWith(channels, peer)| == 1 {
      var k := SelectSingle(channels, p);
      assert OnlyWith(channels, peer, k);
    }
    forall i | OnlyWith(channels, peer, i)
      ensures ActiveWith(channels, peer) == [channels[i]] && OnlyLeg(channels, channels[i].id, peer, i)
    {
      SelectOnly(channels, p, i);
    }
  }

  /** Exactly which plans a preview returns. */
  lemma PreviewIsExact(w: Wallets, p: Plan)
    ensures Preview(w, p.amountSat, p.feeLimitSat) == Ok(p) <==> PlannedOn(w, p)
  {
    WithIsOnly(w.channels, w.payer.identity);
    WithIsOnly(w.channels, w.receiver.identity);
    forall i, j | OnlyWith(w.channels, w.payer.identity, i) && OnlyWith(w.channels, w.receiver.identity, j)
      ensures Preview(w, p.amountSat, p.feeLimitSat) == Ok(p) <==> PlannedOn(w, p)
    {
      PreviewOf(w, p, i, j);
    }
  }

  lemma PreviewOf(w: Wallets, p: Plan, i: int, j: int)
    requires OnlyWith(w.channels, w.payer.identity, i) && OnlyWith(w.channels, w.receiver.identity, j)
    ensures Preview(w, p.amountSat, p.feeLimitSat) == Ok(p) <==> PlannedOn(w, p)
  {
    WithIsOnly(w.channels, w.payer.identity);
    WithIsOnly(w.channels, w.receiver.identity);
    LegIsOnly(w.channels, w.channels[i].id, w.payer.identity);
    LegIsOnly(w.channels, w.channels[j].id, w.receiver.identity);
  }

  ghost predicate Justified(e: Entry) {
    match e
    case Intended(r, seen, invoice) =>
      && r.state.Paying? && r.hash == Some(invoice.hash) && PlannedOn(seen, r.plan)
      && invoice.destination == r.plan.receiver && invoice.msat == 1000 * r.plan.amountSat
      && invoice.receiverHash == r.hash
    case Sent(r) => r.state.Paying? && r.hash.Some?
    case Settled(r, after, v) =>
      PartiesShown(r.plan, v) && (PayerReportsFailure(r, after, v) || FullyValidated(r, after, v))
  }

  /** Two versions of one payment: the same plan, start and hash. */
  predicate SamePayment(r: Record, r': Record) {
    r'.plan == r.plan && r'.id == r.id && r'.startedNs == r.startedNs && r'.hash == r.hash
  }

  /** Every entry continues the payment of the entry before it, unless it starts one. */
  ghost predicate LogOk(log: seq<Entry>) {
    && Disciplined(Project(log, AbstractEntry))
    && (forall i {:trigger log[i]} :: 0 <= i < |log| ==>
          log[i].Intended? || (i > 0 && SamePayment(log[i - 1].record, log[i].record)))
  }

  ghost predicate AllJustified(log: seq<Entry>) {
    forall e :: e in log ==> Justified(e)
  }

  ghost predicate Inv(d: Disk) {
    && LogOk(d.log)
    && var m := StateOf(d.log);
       && (m.slot.Held? <==> d.current.Some? && Blocking(d.current.value))
       && (m.slot.Held? ==>
             && d.current.value.id == m.slot.key && d.current.value.hash.Some?
             && d.log != [] && SamePayment(d.log[|d.log| - 1].record, d.current.value))
  }

  lemma LogExtends(log: seq<Entry>, e: Entry)
    requires LogOk(log) && Step(StateOf(log), AbstractEntry(e)).Some?
    requires e.Intended? || (log != [] && SamePayment(log[|log| - 1].record, e.record))
    ensures LogOk(log + [e]) && Some(StateOf(log + [e])) == Step(StateOf(log), AbstractEntry(e))
  {
    ProjectAppend(log, e, AbstractEntry);
    ReplayAppend(Project(log, AbstractEntry), AbstractEntry(e));
    var log' := log + [e];
    forall i {:trigger log'[i]} | 0 <= i < |log'|
      ensures log'[i].Intended? || (i > 0 && SamePayment(log'[i - 1].record, log'[i].record))
    {
      if i < |log| {
        assert log'[i] == log[i];
        assert i > 0 ==> log'[i - 1] == log[i - 1];
      }
    }
  }

  lemma SettleKeeps(d: Disk, v: View, effects: nat)
    requires Inv(d)
    ensures Inv(Apply(d, Reconcile(v, effects)))
  {
    if d.current.Some? && Blocking(d.current.value) && Reconciled(d.current.value, v).Ok? {
      var r := d.current.value;
      LogExtends(d.log, Settled(r, Reconciled(r, v).value, v));
    }
  }

  lemma IntentKeeps(d: Disk, r: Record, seen: Wallets, invoice: Decoded, effects: nat)
    requires Inv(d) && r.state.Paying? && r.hash.Some? && r.id !in StateOf(d.log).used
    requires d.current.Some? ==> !Blocking(d.current.value)
    ensures Inv(Save(d, r, [Intended(r, seen, invoice)], effects))
    ensures effects > 0 ==> StateOf(Save(d, r, [Intended(r, seen, invoice)], effects).log).slot == Held(r.id, false)
  {
    LogExtends(d.log, Intended(r, seen, invoice));
  }

  lemma SentKeeps(d: Disk, r: Record)
    requires Inv(d) && d.current == Some(r) && StateOf(d.log).slot == Held(r.id, false)
    ensures Inv(d.(log := d.log + [Sent(r)]))
  {
    LogExtends(d.log, Sent(r));
  }

  lemma VersionKeeps(d: Disk, r: Record, effects: nat)
    requires Inv(d) && d.current.Some? && Blocking(d.current.value) && Blocking(r) && SamePayment(d.current.value, r)
    ensures Inv(Save(d, r, [], effects))
  {
    assert d.log + [] == d.log;
  }

  lemma PayKeeps(d: Disk, r: Record, seen: Wallets, invoice: Decoded, answered: bool, effects: nat)
    requires Inv(d) && r.state.Paying? && r.hash.Some? && r.id !in StateOf(d.log).used
    requires d.current.Some? ==> !Blocking(d.current.value)
    ensures Inv(Pay(d, r, seen, invoice, answered, effects))
  {
    IntentKeeps(d, r, seen, invoice, effects);
    if effects >= 3 {
      var intended := Save(d, r, [Intended(r, seen, invoice)], effects);
      SentKeeps(intended, r);
      VersionKeeps(intended.(log := intended.log + [Sent(r)]), r.(state := if answered then Verifying else Uncertain),
                   effects - 3);
    }
  }

  lemma StartKeeps(d: Disk, a: Action)
    requires Inv(d) && a.Start?
    ensures Inv(Apply(d, a))
  {
    if Unused(d, a.id) && MayStart(d, a.approved, a.seen) {
      var requested := Save(d, Requested(a.approved, a.id, a.startedNs), [], a.effects);
      assert d.log + [] == d.log;
      if a.effects >= 2 && InvoiceFits(a.approved, a.decoded) {
        UnusedIsNew(d, a.id);
        PayKeeps(requested, PayingRecord(a.approved, a.id, a.startedNs, a.decoded.value.hash), a.seen, a.decoded.value,
                 a.answered, a.effects - 2);
      }
    }
  }

  lemma UnusedIsNew(d: Disk, id: string)
    requires LogOk(d.log) && Unused(d, id)
    ensures id !in StateOf(d.log).used
  {
    ReplayExplains(Project(d.log, AbstractEntry));
  }

  lemma {:induction false} RunKeeps(actions: seq<Action>)
    ensures Inv(Run(EMPTY, actions))
  {
    if actions != [] {
      var before, last := Run(EMPTY, actions[..|actions| - 1]), actions[|actions| - 1];
      RunKeeps(actions[..|actions| - 1]);
      match last
      case Reconcile(v, effects) => SettleKeeps(before, v, effects);
      case Start(_, _, _, _, _, _, _) => StartKeeps(before, last);
    }
  }

  /** A reconcile settles exactly on the payer's report of failure or on full validation, while the parties are
      still those of the plan, and with exactly that outcome. */
  lemma ReconcileIsExact(r: Record, v: View, after: Record)
    ensures Reconciled(r, v) == Ok(after) <==>
            PartiesShown(r.plan, v) && (PayerReportsFailure(r, after, v) || FullyValidated(r, after, v))
  {
    assert SameParties(r.plan, v) <==> PartiesShown(r.plan, v) by { PartiesAre(r.plan, v); }
    if r.hash.Some? && v.payment.Some? && v.invoice.Some? && v.events.Some? {
      ValidateIsExact(RequestOf(r), v.payment.value, v.invoice.value, v.events.value, v.nowNs);
    }
  }

  lemma PartiesAre(p: Plan, v: View)
    ensures SameParties(p, v) <==> PartiesShown(p, v)
  {
    assert forall x: Row, leg: Leg :: Shows(x, leg) <==> x == Row(leg.id, leg.point, leg.peer, false);
  }

  lemma ReconcileJustifies(d: Disk, v: View, effects: nat)
    requires AllJustified(d.log)
    ensures AllJustified(Apply(d, Reconcile(v, effects)).log)
  {
    if d.current.Some? && Reconciled(d.current.value, v).Ok? {
      ReconcileIsExact(d.current.value, v, Reconciled(d.current.value, v).value);
    }
  }

  lemma StartJustifies(d: Disk, a: Action)
    requires AllJustified(d.log) && a.Start?
    ensures AllJustified(Apply(d, a).log)
  {
    if MayStart(d, a.approved, a.seen) && InvoiceFits(a.approved, a.decoded) {
      PreviewIsExact(a.seen, a.approved);
      var r := PayingRecord(a.approved, a.id, a.startedNs, a.decoded.value.hash);
      assert Justified(Intended(r, a.seen, a.decoded.value));
    }
  }

  lemma {:induction false} RunJustifies(actions: seq<Action>)
    ensures AllJustified(Run(EMPTY, actions).log)
  {
    if actions != [] {
      var before, last := Run(EMPTY, actions[..|actions| - 1]), actions[|actions| - 1];
      RunJustifies(actions[..|actions| - 1]);
      match last
      case Reconcile(v, effects) => ReconcileJustifies(before, v, effects);
      case Start(_, _, _, _, _, _, _) => StartJustifies(before, last);
    }
  }

  // ----- what an operation leaves behind, wherever it is cut -----

  ghost predicate Unresolved(d: Disk) {
    d.current.Some? && d.current.value.state in {Paying, Uncertain, Verifying}
  }

  ghost predicate InvoiceIsFor(p: Plan, invoice: Decoded) {
    && invoice.destination == p.receiver && invoice.msat == 1000 * p.amountSat
    && invoice.receiverHash == Some(invoice.hash)
  }

  /** Nothing, when a payment is unresolved or the plan no longer holds; the request, when the invoice is not for
      it; else the request paid once and stored by how the call ended. Each file is replaced, and the call made, in
      this order, as far as the process lives. */
  lemma StartEnds(d: Disk, p: Plan, seen: Wallets, id: string, startedNs: int, decoded: Option<Decoded>, answered: bool,
                  effects: nat)
    requires Unused(d, id)
    ensures
      var d' := Apply(d, Start(p, seen, id, startedNs, decoded, answered, effects));
      if Unresolved(d) || !PlannedOn(seen, p) then d' == d
      else
        var asked := Record(p, id, startedNs, None, InvoiceRequested, None);
        if decoded.None? || !InvoiceIsFor(p, decoded.value) then
          d' == d.(current := if effects >= 1 then Some(asked) else d.current,
                   archive := if effects >= 2 then d.archive[id := asked] else d.archive)
        else
          var paying := Record(p, id, startedNs, Some(decoded.value.hash), Paying, None);
          var paid := paying.(state := if answered then Verifying else Uncertain);
          && d'.current == (if effects == 0 then d.current else if effects < 3 then Some(asked)
                            else if effects < 6 then Some(paying) else Some(paid))
          && d'.archive == (if effects < 2 then d.archive else if effects < 4 then d.archive[id := asked]
                            else if effects < 7 then d.archive[id := paying] else d.archive[id := paid])
          && d'.forwarding == d.forwarding
          && d'.log == d.log + (if effects >= 3 then [Intended(paying, seen, decoded.value)] else [])
                       + if effects >= 5 then [Sent(paying)] else []
  {
    PreviewIsExact(seen, p);
    assert d.log + [] == d.log;
    if !Unresolved(d) && PlannedOn(seen, p) && decoded.Some? && InvoiceIsFor(p, decoded.value) {
      StartPays(d, p, seen, id, startedNs, decoded.value, answered, effects);
    }
  }

  lemma StartPays(d: Disk, p: Plan, seen: Wallets, id: string, startedNs: int, invoice: Decoded, answered: bool,
                  effects: nat)
    requires Unused(d, id) && MayStart(d, p, seen) && InvoiceIsFor(p, invoice)
    ensures
      var d' := Apply(d, Start(p, seen, id, startedNs, Some(invoice), answered, effects));
      var asked := Record(p, id, startedNs, None, InvoiceRequested, None);
      var paying := Record(p, id, startedNs, Some(invoice.hash), Paying, None);
      var paid := paying.(state := if answered then Verifying else Uncertain);
      && d'.current == (if effects == 0 then d.current else if effects < 3 then Some(asked)
                        else if effects < 6 then Some(paying) else Some(paid))
      && d'.archive == (if effects < 2 then d.archive else if effects < 4 then d.archive[id := asked]
                        else if effects < 7 then d.archive[id := paying] else d.archive[id := paid])
      && d'.forwarding == d.forwarding
      && d'.log == d.log + (if effects >= 3 then [Intended(paying, seen, invoice)] else [])
                   + if effects >= 5 then [Sent(paying)] else []
  {
    assert d.log + [] == d.log;
    if effects >= 2 {
      PayEnds(Save(d, Requested(p, id, startedNs), [], effects), PayingRecord(p, id, startedNs, invoice.hash), seen,
              invoice, answered, effects - 2);
    }
  }

  lemma PayEnds(d: Disk, r: Record, seen: Wallets, invoice: Decoded, answered: bool, effects: nat)
    ensures
      var d' := Pay(d, r, seen, invoice, answered, effects);
      var paid := r.(state := if answered then Verifying else Uncertain);
      && d'.current == (if effects == 0 then d.current else if effects < 4 then Some(r) else Some(paid))
      && d'.archive == (if effects < 2 then d.archive
                        else if effects < 5 then d.archive[r.id := r] else d.archive[r.id := paid])
      && d'.forwarding == d.forwarding
      && d'.log == d.log + (if effects >= 1 then [Intended(r, seen, invoice)] else [])
                   + if effects >= 3 then [Sent(r)] else []
  {
    assert d.log + [] == d.log;
    var log := d.log + [Intended(r, seen, invoice)];
    assert log + [] == log && log + [Sent(r)] + [] == log + [Sent(r)];
  }

  /** A reconcile replaces both files by the settled version, and then the forwarding proof by a complete one; without
      an outcome, or with nothing unresolved, it changes nothing. */
  lemma ReconcileEnds(d: Disk, v: View, effects: nat, after: Record)
    ensures !Unresolved(d) ==> Apply(d, Reconcile(v, effects)) == d
    ensures Unresolved(d) ==>
      var r, d' := d.current.value, Apply(d, Reconcile(v, effects));
      PartiesShown(r.plan, v) && (PayerReportsFailure(r, after, v) || FullyValidated(r, after, v)) ==>
        && d'.current == (if effects >= 1 then Some(after) else d.current)
        && d'.archive == (if effects >= 2 then d.archive[r.id := after] else d.archive)
        && d'.forwarding == (if effects >= 3 && after.state.Complete? then Some(after) else d.forwarding)
        && d'.log == d.log + if effects >= 1 then [Settled(r, after, v)] else []
    ensures Unresolved(d) ==>
      var r := d.current.value;
      (forall x :: !(PartiesShown(r.plan, v) && (PayerReportsFailure(r, x, v) || FullyValidated(r, x, v)))) ==>
        Apply(d, Reconcile(v, effects)) == d
  {
    assert d.log + [] == d.log;
    if Unresolved(d) {
      ReconcileIsExact(d.current.value, v, after);
      if Reconciled(d.current.value, v).Ok? {
        ReconcileIsExact(d.current.value, v, Reconciled(d.current.value, v).value);
      }
    }
  }

  // ----- theorems -----

  /** In every run each `payinvoice` follows its own stored paying record and is sent once; before
      the next one, the stored record of this one became failed on the payer's own report, or
      complete on full validation. */
  lemma SecondPaymentNeedsOutcome(actions: seq<Action>, i: nat, j: nat)
    requires i < j < |Run(EMPTY, actions).log|
    requires Run(EMPTY, actions).log[i].Sent? && Run(EMPTY, actions).log[j].Sent?
    ensures
      var log := Run(EMPTY, actions).log;
      && log[i].record.id != log[j].record.id && i + 1 < j - 1
      && log[i + 1].Settled? && SamePayment(log[i].record, log[i + 1].record)
      && (var s := log[i + 1];
          PayerReportsFailure(s.record, s.after, s.view) || FullyValidated(s.record, s.after, s.view))
      && log[j - 1].Intended? && SamePayment(log[j - 1].record, log[j].record) && log[j - 1].record.state.Paying?
  {
    RunKeeps(actions);
    RunJustifies(actions);
    var log := Run(EMPTY, actions).log;
    OutcomeBetween(log, i, j);
    assert log[i + 1] in log && log[j - 1] in log;
  }

  lemma OutcomeBetween(log: seq<Entry>, i: nat, j: nat)
    requires LogOk(log) && i < j < |log| && log[i].Sent? && log[j].Sent?
    ensures log[i].record.id != log[j].record.id && i + 1 < j - 1
    ensures log[i + 1].Settled? && SamePayment(log[i].record, log[i + 1].record)
    ensures log[j - 1].Intended? && SamePayment(log[j - 1].record, log[j].record)
  {
    var h := Project(log, AbstractEntry);
    assert h[i] == AbstractEntry(log[i]) && h[j] == AbstractEntry(log[j]);
    ResolvedBetweenEffects(h, i, j);
    assert h[i + 1] == AbstractEntry(log[i + 1]) && h[j - 1] == AbstractEntry(log[j - 1]);
  }

  /** Every request pays at most once, for a plan recomputed under the same lock on the wallets it saw then, and
      for an invoice of that plan's receiver and amount whose hash payer and receiver agree on. */
  lemma PaidOnceAfterPlan(actions: seq<Action>, j: nat)
    requires j < |Run(EMPTY, actions).log| && Run(EMPTY, actions).log[j].Sent?
    ensures
      var log := Run(EMPTY, actions).log;
      && j > 0 && log[j - 1].Intended? && SamePayment(log[j - 1].record, log[j].record)
      && PlannedOn(log[j - 1].seen, log[j].record.plan)
      && (var invoice := log[j - 1].invoice;
          && invoice.destination == log[j].record.plan.receiver && invoice.msat == 1000 * log[j].record.plan.amountSat
          && invoice.receiverHash == Some(invoice.hash) && log[j].record.hash == Some(invoice.hash))
      && forall i {:trigger log[i]} :: 0 <= i < |log| && log[i].Sent? && log[i].record.id == log[j].record.id ==> i == j
  {
    RunKeeps(actions);
    RunJustifies(actions);
    var log := Run(EMPTY, actions).log;
    var h := Project(log, AbstractEntry);
    assert h[j] == AbstractEntry(log[j]);
    EffectNeighbours(h, j);
    assert h[j - 1] == AbstractEntry(log[j - 1]);
    assert log[j - 1] in log;
    EffectAfterIntentOnce(h, j);
    forall i {:trigger log[i]} | 0 <= i < |log| && log[i].Sent? && log[i].record.id == log[j].record.id ensures i == j {
      assert h[i] == h[j];
    }
  }

  /** Every resolution belongs to a stored intent of the same payment. */
  lemma SettledWasIntended(actions: seq<Action>, k: nat) returns (i: nat)
    requires k < |Run(EMPTY, actions).log| && Run(EMPTY, actions).log[k].Settled?
    ensures i < k && Run(EMPTY, actions).log[i].Intended?
    ensures SamePayment(Run(EMPTY, actions).log[i].record, Run(EMPTY, actions).log[k].record)
  {
    RunKeeps(actions);
    i := IntentBefore(Run(EMPTY, actions).log, k);
  }

  lemma {:induction false} IntentBefore(log: seq<Entry>, k: nat) returns (i: nat)
    requires LogOk(log) && k < |log|
    ensures i <= k && log[i].Intended? && SamePayment(log[i].record, log[k].record)
  {
    if log[k].Intended? {
      i := k;
    } else {
      i := IntentBefore(log, k - 1);
    }
  }

  /** A payment that any run completed and that still fits the channels is confirmed by the
      independent forwarding count: its matched forward is counted, given ids and window. */
  lemma CompletedPaymentIsObserved(actions: seq<Action>, k: nat, rows: seq<Row>, seen: seq<Forward>, nowNs: nat)
    requires k < |Run(EMPTY, actions).log| && Run(EMPTY, actions).log[k].Settled?
             && Run(EMPTY, actions).log[k].after.state.Complete?
    requires Run(EMPTY, actions).log[k].after.evidence.Some?
    requires
      var e := Run(EMPTY, actions).log[k].after.evidence.value;
      && CurrentEvidence(e, e.request.plan.identity, rows) && UniqueIds(rows)
      && e.request.plan.incoming.id != "" && e.request.plan.outgoing.id != ""
      && WindowStart(nowNs) * SECOND <= e.forwardedNs <= nowNs
    requires Run(EMPTY, actions).log[k].view.events.Some?
    requires forall x :: x in Run(EMPTY, actions).log[k].view.events.value ==> x in seen
    ensures |Matched(seen, nowNs, rows)| >= 1
    ensures exists x ::
              x in Matched(seen, nowNs, rows) && Stamp(x) == Run(EMPTY, actions).log[k].after.evidence.value.forwardedNs
  {
    var i := SettledWasIntended(actions, k);
    var log := Run(EMPTY, actions).log;
    var r, v, w := log[k].record, log[k].view, log[i].seen;
    RunJustifies(actions);
    assert log[i] in log && log[k] in log;
    assert FullyValidated(r, log[k].after, v);
    var k', j :| ProvedBy(RequestOf(r), v.payment.value, v.invoice.value, v.events.value, v.nowNs, k', j)
      && log[k].after.evidence == Some(Evidence(RequestOf(r), v.payment.value.feeMsat.value,
                                                v.events.value[j].ns.value, v.nowNs));
    PreviewIsExact(w, r.plan);
    var ins, outs := ActiveWith(w.channels, w.payer.identity), ActiveWith(w.channels, w.receiver.identity);
    ProofImpliesObservation(w.router, w.payer, w.receiver, w.channels, ins[0].id, outs[0].id, r.plan.amountSat,
                            r.plan.feeLimitSat, RequestOf(r), v.payment.value, v.invoice.value, v.events.value, v.nowNs,
                            k', j, rows, seen, nowNs);
  }
}
