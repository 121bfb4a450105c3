/** Every interleaving keeps the invariant of LoopMachine; the theorems follow from it. */
module LoopSafety {
  import opened Wrappers
  import opened Intents
  import opened LoopJournal
  import opened LoopMachine

  // ----- what a write does to the records -----

  lemma TagsAppend(rs: seq<Record>, r: Record)
    ensures Tags(rs + [r]) == Tags(rs) + {r.tag}
  {
    forall l | l in Tags(rs) + {r.tag} ensures l in Tags(rs + [r]) {
      if l in Tags(rs) {
        var i :| 0 <= i < |rs| && rs[i].tag == l;
        assert (rs + [r])[i].tag == l;
      } else {
        assert (rs + [r])[|rs|].tag == l;
      }
    }
  }

  lemma TagsKept(rs: seq<Record>, rs': seq<Record>)
    requires AllKept(rs, rs')
    ensures Tags(rs') == Tags(rs)
  {
    forall l | l in Tags(rs) ensures l in Tags(rs') {
      var i :| 0 <= i < |rs| && rs[i].tag == l;
      assert rs'[i].tag == l;
    }
    forall l | l in Tags(rs') ensures l in Tags(rs) {
      var i :| 0 <= i < |rs'| && rs'[i].tag == l;
      assert rs[i].tag == l;
    }
  }

  lemma {:induction false} WindowFeesKept(rs: seq<Record>, rs': seq<Record>, lo: int)
    requires AllKept(rs, rs') && AllTerminal(rs)
    ensures WindowFees(rs', lo) == WindowFees(rs, lo)
  {
    if rs != [] {
      var n := |rs| - 1;
      WindowFeesKept(rs[..n], rs'[..n], lo);
      assert Kept(rs[n], rs'[n]);
    }
  }

  lemma BudgetedKept(rs: seq<Record>, rs': seq<Record>, claims: seq<Claim>)
    requires AllKept(rs, rs') && Budgeted(rs, claims)
    requires forall i :: 0 <= i < |rs| - 1 ==> Terminal(rs[i].status)
    ensures Budgeted(rs', claims)
  {
    forall i {:trigger claims[i]} | 0 <= i < |rs'|
      ensures 0 <= claims[i].began - rs'[i].created <= QUOTE_LIFETIME
      ensures WindowFees(rs'[..i], claims[i].now - DAY) + rs'[i].reservation <= claims[i].budget
      ensures rs'[i].automatic <==> claims[i].approval.Some?
    {
      WindowFeesKept(rs[..i], rs'[..i], claims[i].now - DAY);
      assert Kept(rs[i], rs'[i]);
    }
  }

  lemma BudgetedAppend(rs: seq<Record>, r: Record, claims: seq<Claim>, claim: Claim)
    requires Budgeted(rs, claims)
    requires 0 <= claim.began - r.created <= QUOTE_LIFETIME
    requires WindowFees(rs, claim.now - DAY) + r.reservation <= claim.budget
    requires r.automatic <==> claim.approval.Some?
    ensures Budgeted(rs + [r], claims + [claim])
  {
    forall i {:trigger (claims + [claim])[i]} | 0 <= i < |rs + [r]|
      ensures 0 <= (claims + [claim])[i].began - (rs + [r])[i].created <= QUOTE_LIFETIME
      ensures WindowFees((rs + [r])[..i], (claims + [claim])[i].now - DAY) + (rs + [r])[i].reservation
              <= (claims + [claim])[i].budget
      ensures (rs + [r])[i].automatic <==> (claims + [claim])[i].approval.Some?
    {
      if i < |rs| {
        assert (rs + [r])[..i] == rs[..i];
        assert (claims + [claim])[i] == claims[i];
      } else {
        assert (rs + [r])[..i] == rs;
      }
    }
  }

  /** A reconcile keeps requests and terminal records, and what it writes is backed by the daemon. */
  lemma ReconcileKeeps(rs: seq<Record>, listing: seq<Swap>, views: seq<LndView>, daemon: map<Label, Swap>)
    requires |rs| == |views| && ReconcileRecords(rs, listing, views).Some?
    requires Truthful(listing, daemon) && Backed(rs, daemon)
    ensures AllKept(rs, ReconcileRecords(rs, listing, views).value)
    ensures Backed(ReconcileRecords(rs, listing, views).value, daemon)
  {
    var rs' := ReconcileRecords(rs, listing, views).value;
    forall i {:trigger rs[i]} {:trigger rs'[i]} | 0 <= i < |rs|
      ensures Kept(rs[i], rs'[i])
      ensures Terminal(rs'[i].status) ==>
                && rs'[i].tag in daemon && StateOf(daemon[rs'[i].tag]) == rs'[i].status
                && ActualFee(rs'[i]) == Cost(daemon[rs'[i].tag])
    {
      ReconcileAt(rs, listing, views, i);
      var matches := Matching(listing, rs[i].tag);
      if matches != [] {
        assert matches[0] in matches;
      }
    }
  }

  lemma SingleFlightKept(rs: seq<Record>, rs': seq<Record>, log: seq<Event<Label>>)
    requires SingleFlight(rs, log) && AllKept(rs, rs')
    ensures SingleFlight(rs', log + Resolution(rs, rs'))
  {
    var n := |rs| - 1;
    TagsKept(rs, rs');
    forall i, j | 0 <= i < j < |rs'| ensures rs'[i].tag != rs'[j].tag {
      assert Kept(rs[i], rs'[i]) && Kept(rs[j], rs'[j]);
    }
    forall i | 0 <= i < n ensures Terminal(rs'[i].status) {
      assert Kept(rs[i], rs'[i]);
    }
    if n >= 0 {
      assert Kept(rs[n], rs'[n]);
      assert AllTerminal(rs) <==> Terminal(rs[n].status);
      assert AllTerminal(rs') <==> Terminal(rs'[n].status);
      if !Terminal(rs[n].status) && Terminal(rs'[n].status) {
        ReplayAppend(log, Resolve(rs[n].tag));
      } else {
        assert log + Resolution(rs, rs') == log;
      }
    } else {
      assert log + Resolution(rs, rs') == log;
    }
  }

  lemma SingleFlightClaim(rs: seq<Record>, r: Record, log: seq<Event<Label>>)
    requires SingleFlight(rs, log) && AllTerminal(rs) && r.tag !in Tags(rs) && r.status.Submitting?
    ensures SingleFlight(rs + [r], log + [Intent(r.tag)])
    ensures Replay(log + [Intent(r.tag)]).value.slot == Held(r.tag, false)
  {
    ReplayAppend(log, Intent(r.tag));
    TagsAppend(rs, r);
    var rs' := rs + [r];
    forall i, j | 0 <= i < j < |rs'| ensures rs'[i].tag != rs'[j].tag {
      if j == |rs| {
        assert rs[i].tag in Tags(rs);
      }
    }
    assert !Terminal(rs'[|rs|].status);
  }

  // ----- steps that touch only one client -----

  ghost predicate SameElsewhere(w: World, w': World, c: nat) {
    && (forall d :: d in w.clients && d != c ==> d in w'.clients && w'.clients[d] == w.clients[d])
    && (forall d :: d in w'.clients && d != c ==> d in w.clients)
  }

  /** A step that stores nothing and sends nothing: only client c moved, to a legal place. */
  lemma LocalStep(w: World, w': World, c: nat)
    requires Inv(w)
    requires w'.st == w.st && w'.version == w.version && w'.daemon == w.daemon && w'.log == w.log
             && w'.claims == w.claims
    requires w.issued.Keys <= w'.issued.Keys && Automated(w')
    requires forall e :: e in w'.autos && e.Armed? ==> e in w.autos
    requires SameElsewhere(w, w', c)
    requires c in w'.clients ==>
               && ClientOk(w', w'.clients[c])
               && forall d :: d in w.clients && d != c ==>
                    !Clash(w'.clients[c], w.clients[d]) && !Clash(w.clients[d], w'.clients[c])
    ensures Inv(w')
  {
    forall d | d in w'.clients ensures ClientOk(w', w'.clients[d]) {
      if d != c {
        assert ClientOk(w, w.clients[d]);
      }
    }
    forall d, e | d in w'.clients && e in w'.clients && d != e ensures !Clash(w'.clients[d], w'.clients[e]) {
      if d != c && e != c { assert !Clash(w.clients[d], w.clients[e]); }
    }
  }

  lemma LoadKeeps(w: World, c: nat)
    requires Inv(w) && c in w.clients && w.clients[c].Started?
    ensures Inv(ApplyLoad(w, c, w.clients[c].job))
  {
    var job := w.clients[c].job;
    var w' := ApplyLoad(w, c, job);
    assert ClientOk(w, w.clients[c]);
    if job.Disarm? && !DisarmApplies(w.st.auto, job.target) {
      LawfulAppend(w.autos, Disarmed(job.target));
    }
    LocalStep(w, w', c);
  }

  lemma RefreshedClient(w: World, cl: Client, listing: seq<Swap>, views: seq<LndView>, cl': Client)
    requires Inv(w) && ClientOk(w, cl) && cl.Loaded?
    requires |views| == |cl.st.records| && Truthful(listing, w.daemon)
    requires ReconcileState(cl.st, listing, views).Some?
    requires
      var next := ReconcileState(cl.st, listing, views).value;
      cl' == if next == cl.st then Ready(cl.job, cl.base, cl.st, listing)
             else Saving(cl.base, next, Continue(cl.job, listing))
    ensures ClientOk(w, cl')
  {
    if cl.base == w.version {
      ReconcileKeeps(cl.st.records, listing, views, w.daemon);
    }
  }

  /** A client that moves on by itself, to a place that cannot clash with anyone's. */
  lemma PutKeeps(w: World, c: nat, client: Client)
    requires Inv(w) && ClientOk(w, client)
    requires !client.Claimed? && !client.Sent? && (client.Saving? ==> !client.purpose.Arming?)
    ensures Inv(Put(w, c, client))
  {
    LocalStep(w, Put(w, c, client), c);
  }

  lemma StopKeeps(w: World, c: nat)
    requires Inv(w)
    ensures Inv(Stop(w, c))
  {
    LocalStep(w, Stop(w, c), c);
  }

  lemma RefreshKeeps(w: World, c: nat, listing: seq<Swap>, views: seq<LndView>)
    requires Inv(w) && c in w.clients && w.clients[c].Loaded?
    requires |views| == |w.clients[c].st.records| && Truthful(listing, w.daemon)
    ensures Inv(ApplyRefresh(w, c, w.clients[c], listing, views))
  {
    var cl := w.clients[c];
    var next := ReconcileState(cl.st, listing, views);
    assert ClientOk(w, cl);
    if next.None? {
      StopKeeps(w, c);
    } else {
      var cl' := if next.value == cl.st then Ready(cl.job, cl.base, cl.st, listing)
                 else Saving(cl.base, next.value, Continue(cl.job, listing));
      RefreshedClient(w, cl, listing, views, cl');
      PutKeeps(w, c, cl');
    }
  }

  /** What a passed decision may write, if the client's copy is still current. */
  lemma DecisionIsPermitted(w: World, cl: Client, p: Plan, budget: int, automatic: bool, approval: Option<ApprovalId>,
                            began: int, now: int, gate: bool)
    requires cl.Ready? && cl.job == Submit(p, budget, automatic, approval, began) && ClientOk(w, cl)
    requires MayClaim(cl.st, cl.listing, p, budget, automatic, approval, now, gate) && cl.base == w.version
    requires w.st.auto.enabled ==> w.st.auto.approval.Some?
    ensures Permitted(w.st, w.daemon, ClaimedState(cl.st, p, automatic),
                      Claiming(NewRecord(p, automatic),
                               Claim(began, now, budget, if automatic then approval else None, p, cl.listing)))
  {
    ChargesCoverFees(cl.st.records, now - DAY);
  }

  lemma DecideSubmitKeeps(w: World, c: nat, now: int, gate: bool, newId: ApprovalId)
    requires Inv(w) && c in w.clients && w.clients[c].Ready? && w.clients[c].job.Submit?
    ensures Inv(ApplyDecide(w, c, w.clients[c], now, gate, newId))
  {
    var cl := w.clients[c];
    var w' := ApplyDecide(w, c, cl, now, gate, newId);
    assert ClientOk(w, cl);
    if c in w'.clients && cl.base == w.version {
      DecisionIsPermitted(w, cl, cl.job.plan, cl.job.budget, cl.job.automatic, cl.job.approval, cl.job.began, now,
                          gate);
    }
    LocalStep(w, w', c);
  }

  lemma DecideArmKeeps(w: World, c: nat, now: int, gate: bool, newId: ApprovalId)
    requires Inv(w) && c in w.clients && w.clients[c].Ready? && w.clients[c].job.Arm?
    ensures Inv(ApplyDecide(w, c, w.clients[c], now, gate, newId))
  {
    var cl := w.clients[c];
    var w' := ApplyDecide(w, c, cl, now, gate, newId);
    assert ClientOk(w, cl);
    if c in w'.clients {
      assert Armed(newId) !in w.autos;
      forall d | d in w.clients && d != c
        ensures !Clash(w'.clients[c], w.clients[d]) && !Clash(w.clients[d], w'.clients[c])
      {
        assert ClientOk(w, w.clients[d]);
      }
    }
    LocalStep(w, w', c);
  }

  lemma DecideKeeps(w: World, c: nat, now: int, gate: bool, newId: ApprovalId)
    requires Inv(w) && c in w.clients && w.clients[c].Ready?
    ensures Inv(ApplyDecide(w, c, w.clients[c], now, gate, newId))
  {
    match w.clients[c].job
    case Submit(_, _, _, _, _) => DecideSubmitKeeps(w, c, now, gate, newId);
    case Arm(_) => DecideArmKeeps(w, c, now, gate, newId);
    case _ => LocalStep(w, ApplyDecide(w, c, w.clients[c], now, gate, newId), c);
  }

  // ----- a write arrives -----

  /** After a stored write every other client's copy is out of date; only facts about the log,
      the daemon and issued ids must survive. */
  lemma OthersAfterLanding(w: World, w': World, c: nat)
    requires Inv(w) && c in w.clients && w.clients[c].Saving?
    requires w'.version == w.version + 1 && w'.daemon == w.daemon && w'.issued == w.issued
    requires SameElsewhere(w, w', c)
    requires w.log <= w'.log && w.autos <= w'.autos
    requires forall e :: e in w'.autos && e.Armed? ==> e in w.autos || w.clients[c].purpose == Arming(e.id)
    requires forall d :: d in w.clients && w.clients[d].Claimed? ==>
                           Disciplined(w'.log) && Replay(w'.log).value.slot == Held(w.clients[d].record.tag, false)
    requires c in w'.clients ==>
               && ClientOk(w', w'.clients[c]) && !w'.clients[c].Sent? && !w'.clients[c].Saving?
               && (w'.clients[c].Claimed? ==> forall d :: d in w.clients ==> !w.clients[d].Claimed?)
    ensures ClientsOk(w')
  {
    forall d | d in w'.clients ensures ClientOk(w', w'.clients[d]) {
      if d != c {
        assert ClientOk(w, w.clients[d]);
        assert !Clash(w.clients[c], w.clients[d]);
      }
    }
    forall d, e | d in w'.clients && e in w'.clients && d != e ensures !Clash(w'.clients[d], w'.clients[e]) {
      if d != c && e != c { assert !Clash(w.clients[d], w.clients[e]); }
    }
  }

  lemma ContinueIsPermitted(w: World, cl: Client)
    requires ClientOk(w, cl) && cl.Saving? && cl.purpose.Continue? && cl.base == w.version
    ensures Permitted(w.st, w.daemon, cl.next, cl.purpose) && MayBegin(cl.purpose.job)
  {
  }

  lemma ContinueLands(w: World, w': World, c: nat)
    requires Inv(w) && c in w.clients && w.clients[c].Saving? && w.clients[c].purpose.Continue?
    requires Permitted(w.st, w.daemon, w.clients[c].next, w.clients[c].purpose) && SameElsewhere(w, w', c)
    requires MayBegin(w.clients[c].purpose.job)
    requires w'.version == w.version + 1 && w'.st == w.clients[c].next && w'.claims == w.claims
    requires w'.daemon == w.daemon && w'.issued == w.issued && w'.autos == w.autos
    requires w'.log == w.log + Resolution(w.st.records, w.clients[c].next.records)
    requires c in w'.clients ==>
               w'.clients[c] == Ready(w.clients[c].purpose.job, w'.version, w'.st, w.clients[c].purpose.listing)
    ensures Inv(w')
  {
    var cl := w.clients[c];
    SingleFlightKept(w.st.records, cl.next.records, w.log);
    BudgetedKept(w.st.records, cl.next.records, w.claims);
    forall d | d in w.clients && w.clients[d].Claimed?
      ensures Disciplined(w'.log) && Replay(w'.log).value.slot == Held(w.clients[d].record.tag, false)
    {
      NotResolvedBeforeSent(w, cl.next.records, d);
    }
    OthersAfterLanding(w, w', c);
  }

  lemma LandContinueKeeps(w: World, c: nat, acknowledged: bool)
    requires Inv(w) && c in w.clients && w.clients[c].Saving? && w.clients[c].purpose.Continue?
    requires w.clients[c].base == w.version
    ensures Inv(ApplyLand(w, c, w.clients[c], acknowledged))
  {
    ContinueIsPermitted(w, w.clients[c]);
    ContinueLands(w, ApplyLand(w, c, w.clients[c], acknowledged), c);
  }

  /** Between claim and POST nothing can look terminal: the daemon has never seen the label. */
  lemma NotResolvedBeforeSent(w: World, records: seq<Record>, d: nat)
    requires Inv(w) && d in w.clients && w.clients[d].Claimed?
    requires AllKept(w.st.records, records) && Backed(records, w.daemon)
    ensures Resolution(w.st.records, records) == []
    ensures w.log + Resolution(w.st.records, records) == w.log
  {
    assert ClientOk(w, w.clients[d]);
    var n := |w.st.records| - 1;
    ReplayExplains(w.log);
    assert Kept(w.st.records[n], records[n]);
    assert Effect(records[n].tag) !in w.log;
    assert records[n].tag !in w.daemon;
  }

  ghost function Firing(claim: Claim): seq<AutoEvent> {
    if claim.approval.Some? then [Fired(claim.approval.value)] else []
  }

  lemma FiringIsLawful(w: World, claim: Claim)
    requires Automated(w)
    requires claim.approval.Some? ==> w.st.auto.enabled && w.st.auto.approval == claim.approval
    ensures Lawful(w.autos + Firing(claim)) && FiredOnce(w.claims + [claim], w.autos + Firing(claim))
    ensures forall e :: e in w.autos + Firing(claim) && e.Armed? ==> e in w.autos
  {
    if claim.approval.Some? {
      LawfulAppend(w.autos, Fired(claim.approval.value));
      LiveNeverFired(w.autos, claim.approval.value);
    } else {
      assert w.autos + Firing(claim) == w.autos;
    }
  }

  lemma NoneClaimedWhileFree(w: World)
    requires Inv(w) && AllTerminal(w.st.records)
    ensures forall d :: d in w.clients ==> !w.clients[d].Claimed?
  {
    forall d | d in w.clients ensures !w.clients[d].Claimed? {
      assert ClientOk(w, w.clients[d]);
    }
  }

  lemma ClaimedClients(w: World, w': World, c: nat)
    requires Inv(w) && c in w.clients && w.clients[c].Saving? && w.clients[c].purpose.Claiming?
    requires AllTerminal(w.st.records) && SameElsewhere(w, w', c)
    requires w'.version == w.version + 1 && w'.daemon == w.daemon && w'.issued == w.issued
    requires w'.log == w.log + [Intent(w.clients[c].purpose.record.tag)]
    requires Disciplined(w'.log) && Replay(w'.log).value.slot == Held(w.clients[c].purpose.record.tag, false)
    requires w'.autos == w.autos + Firing(w.clients[c].purpose.claim)
    requires c in w'.clients ==> w'.clients[c] == Claimed(w.clients[c].purpose.record)
    ensures ClientsOk(w')
  {
    NoneClaimedWhileFree(w);
    OthersAfterLanding(w, w', c);
  }

  lemma ClaimIsPermitted(w: World, cl: Client)
    requires ClientOk(w, cl) && cl.Saving? && cl.purpose.Claiming? && cl.base == w.version
    ensures Permitted(w.st, w.daemon, cl.next, cl.purpose)
  {
  }

  lemma ClaimLands(w: World, w': World, c: nat)
    requires Inv(w) && c in w.clients && w.clients[c].Saving? && w.clients[c].purpose.Claiming?
    requires Permitted(w.st, w.daemon, w.clients[c].next, w.clients[c].purpose) && SameElsewhere(w, w', c)
    requires w'.version == w.version + 1 && w'.st == w.clients[c].next
    requires w'.daemon == w.daemon && w'.issued == w.issued
    requires w'.log == w.log + [Intent(w.clients[c].purpose.record.tag)]
    requires w'.claims == w.claims + [w.clients[c].purpose.claim]
    requires w'.autos == w.autos + Firing(w.clients[c].purpose.claim)
    requires c in w'.clients ==> w'.clients[c] == Claimed(w.clients[c].purpose.record)
    ensures Inv(w')
  {
    var r, claim := w.clients[c].purpose.record, w.clients[c].purpose.claim;
    SingleFlightClaim(w.st.records, r, w.log);
    ClaimedClients(w, w', c);
    BudgetedAppend(w.st.records, r, w.claims, claim);
    FiringIsLawful(w, claim);
    BackedAppend(w.st.records, r, w.daemon);
    assert DaemonOk(w');
  }

  lemma LandClaimKeeps(w: World, c: nat, acknowledged: bool)
    requires Inv(w) && c in w.clients && w.clients[c].Saving? && w.clients[c].purpose.Claiming?
    requires w.clients[c].base == w.version
    ensures Inv(ApplyLand(w, c, w.clients[c], acknowledged))
  {
    var w' := ApplyLand(w, c, w.clients[c], acknowledged);
    ClaimIsPermitted(w, w.clients[c]);
    assert w'.autos == w.autos + Firing(w.clients[c].purpose.claim);
    ClaimLands(w, w', c);
  }

  lemma BackedAppend(rs: seq<Record>, r: Record, daemon: map<Label, Swap>)
    requires Backed(rs, daemon) && r.status.Submitting?
    ensures Backed(rs + [r], daemon)
  {
    forall i {:trigger (rs + [r])[i]} | 0 <= i < |rs + [r]| && Terminal((rs + [r])[i].status)
      ensures (rs + [r])[i].tag in daemon && StateOf(daemon[(rs + [r])[i].tag]) == (rs + [r])[i].status
      ensures ActualFee((rs + [r])[i]) == Cost(daemon[(rs + [r])[i].tag])
    {
      assert (rs + [r])[i] == rs[i];
    }
  }

  lemma LandApprovalKeeps(w: World, c: nat, acknowledged: bool)
    requires Inv(w) && c in w.clients && w.clients[c].Saving?
             && (w.clients[c].purpose.Arming? || w.clients[c].purpose.Disarming?)
    requires w.clients[c].base == w.version
    ensures Inv(ApplyLand(w, c, w.clients[c], acknowledged))
  {
    var cl := w.clients[c];
    var w' := ApplyLand(w, c, cl, acknowledged);
    assert ClientOk(w, cl);
    LawfulAppend(w.autos, if cl.purpose.Arming? then Armed(cl.purpose.id) else Disarmed(cl.purpose.target));
    forall d | d in w.clients && w.clients[d].Claimed?
      ensures Disciplined(w'.log) && Replay(w'.log).value.slot == Held(w.clients[d].record.tag, false)
    {
      assert ClientOk(w, w.clients[d]);
    }
    OthersAfterLanding(w, w', c);
  }

  lemma LandKeeps(w: World, c: nat, acknowledged: bool)
    requires Inv(w) && c in w.clients && w.clients[c].Saving?
    ensures Inv(ApplyLand(w, c, w.clients[c], acknowledged))
  {
    if w.clients[c].base != w.version {
      LocalStep(w, Stop(w, c), c);
    } else {
      match w.clients[c].purpose
      case Continue(_, _) => LandContinueKeeps(w, c, acknowledged);
      case Claiming(_, _) => LandClaimKeeps(w, c, acknowledged);
      case _ => LandApprovalKeeps(w, c, acknowledged);
    }
  }

  // ----- the POST and the daemon -----

  /** Nobody else stands between claim and POST, or waits on the same label. */
  lemma PostedClients(w: World, w': World, c: nat)
    requires Inv(w) && c in w.clients && w.clients[c].Claimed? && w' == Apply(w, Post(c))
    requires Effect(w.clients[c].record.tag) !in w.log
    ensures ClientsOk(w')
  {
    forall d | d in w'.clients ensures ClientOk(w', w'.clients[d]) {
      if d != c {
        assert ClientOk(w, w.clients[d]) && !Clash(w.clients[c], w.clients[d]);
      }
    }
    forall d, e | d in w'.clients && e in w'.clients && d != e ensures !Clash(w'.clients[d], w'.clients[e]) {
      if d != c { assert ClientOk(w, w.clients[d]); }
      if e != c { assert ClientOk(w, w.clients[e]); }
    }
  }

  lemma PostKeeps(w: World, c: nat)
    requires Inv(w) && c in w.clients && w.clients[c].Claimed?
    ensures Inv(Apply(w, Post(c)))
  {
    var l := w.clients[c].record.tag;
    assert ClientOk(w, w.clients[c]);
    ReplayAppend(w.log, Effect(l));
    ReplayExplains(w.log);
    PostedClients(w, Apply(w, Post(c)), c);
  }

  /** The daemon gains a label or moves a swap that is not final: terminal entries stay. */
  ghost predicate Advances(daemon: map<Label, Swap>, daemon': map<Label, Swap>) {
    forall l :: l in daemon ==>
      l in daemon' && (Terminal(StateOf(daemon[l])) ==> daemon'[l] == daemon[l])
  }

  lemma DaemonStep(w: World, w': World)
    requires Inv(w) && Advances(w.daemon, w'.daemon) && DaemonOk(w')
    requires w' == w.(daemon := w'.daemon, clients := w'.clients)
    requires forall d :: d in w'.clients ==> d in w.clients && w'.clients[d] == w.clients[d]
    requires forall d :: d in w'.clients && w'.clients[d].Sent? ==> w'.clients[d].record.tag !in w'.daemon
    ensures Inv(w')
  {
    forall d | d in w'.clients ensures ClientOk(w', w'.clients[d]) {
      assert ClientOk(w, w.clients[d]);
    }
    forall d, e | d in w'.clients && e in w'.clients && d != e ensures !Clash(w'.clients[d], w'.clients[e]) {
      assert !Clash(w.clients[d], w.clients[e]);
    }
  }

  lemma AcceptKeeps(w: World, c: nat, swap: Swap)
    requires Inv(w)
    ensures Inv(Apply(w, Accept(c, swap)))
  {
    var w' := Apply(w, Accept(c, swap));
    if w' != w {
      assert ClientOk(w, w.clients[c]);
      forall d | d in w'.clients && w'.clients[d].Sent? ensures w'.clients[d].record.tag !in w'.daemon {
        assert ClientOk(w, w.clients[d]) && !Clash(w.clients[c], w.clients[d]);
      }
      DaemonStep(w, w');
    }
  }

  lemma ProgressKeeps(w: World, l: Label, swap: Swap)
    requires Inv(w)
    ensures Inv(Apply(w, Progress(l, swap)))
  {
    var w' := Apply(w, Progress(l, swap));
    if w' != w {
      forall d | d in w'.clients && w'.clients[d].Sent? ensures w'.clients[d].record.tag !in w'.daemon {
        assert ClientOk(w, w.clients[d]);
      }
      DaemonStep(w, w');
    }
  }

  /** What a client does by itself, with nothing stored or sent. */
  lemma ThinkingKeeps(w: World, a: Action)
    requires Inv(w) && (a.Begin? || a.Load? || a.Refresh? || a.Decide? || a.Crash?)
    ensures Inv(Apply(w, a))
  {
    var w' := Apply(w, a);
    match a
    case Begin(c, job) => if w' != w { LocalStep(w, w', c); }
    case Load(c) => if c in w.clients && w.clients[c].Started? { LoadKeeps(w, c); }
    case Refresh(c, listing, views) =>
      if c in w.clients && w.clients[c].Loaded? && |views| == |w.clients[c].st.records| && Truthful(listing, w.daemon) {
        RefreshKeeps(w, c, listing, views);
      }
    case Decide(c, now, gate, newId) =>
      if c in w.clients && w.clients[c].Ready? { DecideKeeps(w, c, now, gate, newId); }
    case Crash(c) => StopKeeps(w, c);
  }

  /** Every step of every client, of the network and of the daemon keeps the invariant. */
  lemma StepKeepsInvariant(w: World, a: Action)
    requires Inv(w)
    ensures Inv(Apply(w, a))
  {
    match a
    case Land(c, acknowledged) => if c in w.clients && w.clients[c].Saving? { LandKeeps(w, c, acknowledged); }
    case Post(c) => if c in w.clients && w.clients[c].Claimed? { PostKeeps(w, c); }
    case Accept(c, swap) => AcceptKeeps(w, c, swap);
    case Progress(l, swap) => ProgressKeeps(w, l, swap);
    case _ => ThinkingKeeps(w, a);
  }

  lemma {:induction false} RunKeepsInvariant(actions: seq<Action>)
    ensures Inv(Run(actions))
  {
    if actions != [] {
      RunKeepsInvariant(actions[..|actions| - 1]);
      StepKeepsInvariant(Run(actions[..|actions| - 1]), actions[|actions| - 1]);
    }
  }
}
