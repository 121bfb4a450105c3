/**
 The proof-payment journal (ops/router_proof_run.py): at most one unresolved `payinvoice`, always
 behind a durable record. `effects` counts the writes and money-moving RPCs before the process dies.
 */
module ProofJournal {
  import opened Runs
  import opened Wrappers
  import opened ForwardingProof
  import opened Selections

  datatype State = InvoiceRequested | Paying | Uncertain | Verifying | Failed | Complete

  datatype Record = Record(plan: Plan, id: string, startedNs: int, hash: Option<string>, state: State,
                           evidence: Option<Evidence>)

  predicate Blocking(r: Record) {
    r.state in {Paying, Uncertain, Verifying}
  }

  /** What a preview reads: the three wallets and this node's channels. */
  datatype Wallets = Wallets(router: Info, payer: Info, receiver: Info, channels: seq<Channel>)

  function ActiveWith(channels: seq<Channel>, peer: string): seq<Channel> {
    Select(channels, (c: Channel) => c.peer == peer && c.active && !c.isPrivate)
  }

  function Preview(w: Wallets, amountSat: int, feeSat: int): Result<Plan> {
    var ins := ActiveWith(w.channels, w.payer.identity);
    var outs := ActiveWith(w.channels, w.receiver.identity);
    if |ins| != 1 || |outs| != 1 then Raised
    else MakePlan(w.router, w.payer, w.receiver, w.channels, ins[0].id, outs[0].id, amountSat, feeSat)
  }

  /** The receiver's new invoice as the payer decodes it, and the receiver's own hash of it. */
  datatype Decoded = Decoded(hash: string, destination: string, msat: int, receiverHash: Option<string>)

  predicate InvoiceFits(p: Plan, d: Option<Decoded>) {
    d.Some? && d.value.destination == p.receiver && d.value.msat == p.amountSat * 1000
    && d.value.receiverHash == Some(d.value.hash)
  }

  /** What `reconcile` reads; None where a read or its check raises. */
  datatype View = View(router: Option<string>, payer: Option<string>, receiver: Option<string>, channels: seq<Row>,
                       payment: Option<Payment>, invoice: Option<Invoice>, events: Option<seq<Forward>>, nowNs: int)

  predicate SameParties(p: Plan, v: View) {
    && v.router == Some(p.identity) && v.payer == Some(p.payer) && v.receiver == Some(p.receiver)
    && LegCurrent(p.incoming, v.channels) && LegCurrent(p.outgoing, v.channels)
  }

  function RequestOf(r: Record): Request
    requires r.hash.Some?
  {
    Request(r.plan, r.id, r.startedNs, r.hash.value)
  }

  /** The record after a reconcile: failed, complete, or a raise that leaves it alone. */
  function Reconciled(r: Record, v: View): Result<Record> {
    if !SameParties(r.plan, v) || r.hash.None? || v.payment.None? || v.payment.value.hash != r.hash.value then Raised
    else if v.payment.value.state.Failed? then Ok(r.(state := State.Failed))
    else if v.invoice.None? || v.invoice.value.hash != r.hash || v.events.None? then Raised
    else
      match Validate(RequestOf(r), v.payment.value, v.invoice.value, v.events.value, v.nowNs)
      case Raised => Raised
      case Ok(e) => Ok(r.(state := Complete, evidence := Some(e)))
  }

  // ----- the disk and its operations -----

  datatype Entry =
    | Intended(record: Record, seen: Wallets, invoice: Decoded)
    | Sent(record: Record)
    | Settled(record: Record, after: Record, view: View)

  datatype Disk = Disk(current: Option<Record>, archive: map<string, Record>, forwarding: Option<Record>,
                       log: seq<Entry>)

  const EMPTY := Disk(None, map[], None, [])

  function Save(d: Disk, r: Record, entries: seq<Entry>, effects: nat): Disk {
    if effects == 0 then d
    else if effects == 1 then d.(current := Some(r), log := d.log + entries)
    else d.(current := Some(r), archive := d.archive[r.id := r], log := d.log + entries)
  }

  function Requested(p: Plan, id: string, startedNs: int): Record {
    Record(p, id, startedNs, None, InvoiceRequested, None)
  }

  function PayingRecord(p: Plan, id: string, startedNs: int, hash: string): Record {
    Record(p, id, startedNs, Some(hash), Paying, None)
  }

  /** From the paying record through the RPC to the record of its answer. */
  function Pay(d: Disk, r: Record, seen: Wallets, invoice: Decoded, answered: bool, effects: nat): Disk {
    var paying := Save(d, r, [Intended(r, seen, invoice)], effects);
    if effects < 3 then paying
    else Save(paying.(log := paying.log + [Sent(r)]), r.(state := if answered then Verifying else Uncertain), [],
              effects - 3)
  }

  datatype Action =
    | Reconcile(view: View, effects: nat)
    | Start(approved: Plan, seen: Wallets, id: string, startedNs: int, decoded: Option<Decoded>, answered: bool,
            effects: nat)

  predicate MayStart(d: Disk, approved: Plan, seen: Wallets) {
    && (d.current.Some? ==> !Blocking(d.current.value))
    && Preview(seen, approved.amountSat, approved.feeLimitSat) == Ok(approved)
  }

  predicate Unused(d: Disk, id: string) {
    && (forall e :: e in d.log ==> e.record.id != id)
    && id !in d.archive && (d.current.Some? ==> d.current.value.id != id)
  }

  function Apply(d: Disk, a: Action): Disk {
    match a
    case Reconcile(v, effects) =>
      if d.current.None? || !Blocking(d.current.value) then d
      else
        var r := d.current.value;
        (match Reconciled(r, v)
         case Raised => d
         case Ok(after) =>
           var saved := Save(d, after, [Settled(r, after, v)], effects);
           if effects < 3 || !after.state.Complete? then saved else saved.(forwarding := Some(after)))
    case Start(approved, seen, id, startedNs, decoded, answered, effects) =>
      if !Unused(d, id) || !MayStart(d, approved, seen) then d
      else
        var requested := Save(d, Requested(approved, id, startedNs), [], effects);
        if effects < 2 || !InvoiceFits(approved, decoded) then requested
        else
          Pay(requested, PayingRecord(approved, id, startedNs, decoded.value.hash), seen, decoded.value, answered,
              effects - 2)
  }

  ghost function Run(d: Disk, actions: seq<Action>): Disk {
    Fold(Apply, d, actions)
  }

  class ProofStore {
    var current: Option<Record>
    var archive: map<string, Record>
    var forwarding: Option<Record>
    ghost var log: seq<Entry>

    ghost function OnDisk(): Disk
      reads this
    {
      Disk(current, archive, forwarding, log)
    }

    constructor ()
      ensures OnDisk() == EMPTY
    {
      current, archive, forwarding, log := None, map[], None, [];
    }

    method SaveBoth(r: Record, ghost entries: seq<Entry>, effects: nat)
      modifies this
      ensures OnDisk() == Save(old(OnDisk()), r, entries, effects)
    {
      if effects == 0 { return; }
      current, log := Some(r), log + entries;
      if effects == 1 { return; }
      archive := archive[r.id := r];
    }

    method StartProof(approved: Plan, seen: Wallets, id: string, startedNs: int, decoded: Option<Decoded>,
                      answered: bool, effects: nat)
      requires Unused(OnDisk(), id)
      modifies this
      ensures OnDisk() == Apply(old(OnDisk()), Start(approved, seen, id, startedNs, decoded, answered, effects))
    {
      if current.Some? && Blocking(current.value) { return; }
      if Preview(seen, approved.amountSat, approved.feeLimitSat) != Ok(approved) { return; }
      SaveBoth(Requested(approved, id, startedNs), [], effects);
      if effects < 2 || !InvoiceFits(approved, decoded) { return; }
      var r := PayingRecord(approved, id, startedNs, decoded.value.hash);
      SaveBoth(r, [Intended(r, seen, decoded.value)], effects - 2);
      if effects < 5 { return; }
      log := log + [Sent(r)];
      SaveBoth(r.(state := if answered then Verifying else Uncertain), [], effects - 5);
    }

    method ReconcileProof(v: View, effects: nat)
      modifies this
      ensures OnDisk() == Apply(old(OnDisk()), Reconcile(v, effects))
    {
      if current.None? || !Blocking(current.value) { return; }
      var r := current.value;
      var after := Reconciled(r, v);
      if after.Raised? { return; }
      SaveBoth(after.value, [Settled(r, after.value, v)], effects);
      if effects >= 3 && after.value.state.Complete? {
        forwarding := Some(after.value);
      }
    }
  }
}
