/** What the Loop journal promises, for every run of LoopMachine. */
module LoopTheorems {
  import opened Arithmetic
  import opened Intents
  import opened LoopJournal
  import opened LoopMachine
  import opened LoopSafety

  ghost predicate LiveSwap(w: World, l: Label) {
    l in w.daemon && !Terminal(StateOf(w.daemon[l]))
  }

  lemma SwapHasRecord(w: World, l: Label) returns (i: nat)
    requires Inv(w) && l in w.daemon
    ensures i < |w.st.records| && w.st.records[i].tag == l
    ensures LiveSwap(w, l) ==> i == |w.st.records| - 1 && !Terminal(w.st.records[i].status)
  {
    ReplayExplains(w.log);
    var e :| 0 <= e < |w.log| && w.log[e] == Effect(l);
    assert w.log[e].key in Tags(w.st.records);
    i :| 0 <= i < |w.st.records| && w.st.records[i].tag == l;
  }

  lemma OneLiveSwap(w: World, l: Label, m: Label)
    requires Inv(w) && LiveSwap(w, l) && LiveSwap(w, m)
    ensures l == m
  {
    var i := SwapHasRecord(w, l);
    var j := SwapHasRecord(w, m);
  }

  lemma EffectIsRecorded(w: World, j: nat)
    requires Inv(w) && j < |w.log| && w.log[j].Effect?
    ensures Intent(w.log[j].key) in w.log[..j] && w.log[j].key in Tags(w.st.records)
  {
    ReplayExplains(w.log);
    EffectAfterIntentOnce(w.log, j);
  }

  /** In every run each label is POSTed at most once and only after its record was stored; two
      POSTs are separated by the stored completion of the first. */
  lemma PostedOnceAfterRecord(actions: seq<Action>)
    ensures
      var w := Run(actions);
      && (forall j {:trigger w.log[j]} :: 0 <= j < |w.log| && w.log[j].Effect? ==>
            Intent(w.log[j].key) in w.log[..j] && w.log[j].key in Tags(w.st.records))
      && (forall i, j :: 0 <= i < j < |w.log| && w.log[i].Effect? && w.log[j].Effect? ==>
            w.log[i].key != w.log[j].key && i + 1 < j - 1 && w.log[i + 1] == Resolve(w.log[i].key))
  {
    RunKeepsInvariant(actions);
    var w := Run(actions);
    forall j {:trigger w.log[j]} | 0 <= j < |w.log| && w.log[j].Effect?
      ensures Intent(w.log[j].key) in w.log[..j] && w.log[j].key in Tags(w.st.records)
    {
      EffectIsRecorded(w, j);
    }
    forall i, j | 0 <= i < j < |w.log| && w.log[i].Effect? && w.log[j].Effect?
      ensures w.log[i].key != w.log[j].key && i + 1 < j - 1 && w.log[i + 1] == Resolve(w.log[i].key)
    {
      ResolvedBetweenEffects(w.log, i, j);
    }
  }

  /** At most one record is ever unresolved, and at most one swap of this tool ever live. */
  lemma SwapSingleFlight(actions: seq<Action>)
    ensures
      var w := Run(actions);
      && (forall i :: 0 <= i < |w.st.records| - 1 ==> Terminal(w.st.records[i].status))
      && (forall l, m :: LiveSwap(w, l) && LiveSwap(w, m) ==> l == m)
  {
    RunKeepsInvariant(actions);
    var w := Run(actions);
    forall l, m | LiveSwap(w, l) && LiveSwap(w, m) ensures l == m {
      OneLiveSwap(w, l, m);
    }
  }

  /** The claimed record is the last one stored, all others are terminal, it was never sent, and no
      swap of this tool is live. */
  ghost predicate QuietFor(w: World, l: Label) {
    var n := |w.st.records| - 1;
    && n >= 0 && w.st.records[n].tag == l && !Terminal(w.st.records[n].status)
    && (forall i :: 0 <= i < n ==> Terminal(w.st.records[i].status) && w.st.records[i].tag != l)
    && Effect(l) !in w.log
    && (forall m :: !LiveSwap(w, m))
  }

  lemma ClaimedIsQuiet(w: World, c: nat)
    requires Inv(w) && c in w.clients && w.clients[c].Claimed?
    ensures QuietFor(w, w.clients[c].record.tag)
  {
    var l := w.clients[c].record.tag;
    assert ClientOk(w, w.clients[c]);
    ReplayExplains(w.log);
    assert l !in w.daemon;
    forall m ensures !LiveSwap(w, m) {
      if m in w.daemon { var i := SwapHasRecord(w, m); }
    }
  }

  /** Any client about to POST, in any run, does so on quiet ground. */
  lemma QuietAtPost(actions: seq<Action>, c: nat)
    requires c in Run(actions).clients && Run(actions).clients[c].Claimed?
    ensures QuietFor(Run(actions), Run(actions).clients[c].record.tag)
  {
    RunKeepsInvariant(actions);
    ClaimedIsQuiet(Run(actions), c);
  }

  // ----- the rolling budget -----

  ghost function CostNow(daemon: map<Label, Swap>, r: Record): nat {
    if r.tag in daemon then Cost(daemon[r.tag]) else 0
  }

  ghost predicate Within(r: Record, lo: int, hi: int) {
    lo <= r.created <= hi
  }

  /** Real cost, as the daemon reports it now, of the swaps created between lo and hi. */
  ghost function Spent(daemon: map<Label, Swap>, rs: seq<Record>, lo: int, hi: int): nat {
    if rs == [] then 0
    else
      var r := rs[|rs| - 1];
      Spent(daemon, rs[..|rs| - 1], lo, hi) + if Within(r, lo, hi) then CostNow(daemon, r) else 0
  }

  lemma {:induction false} SpentIsCovered(daemon: map<Label, Swap>, rs: seq<Record>, lo: int, hi: int, cutoff: int)
    requires AllTerminal(rs) && Backed(rs, daemon) && cutoff <= lo
    ensures Spent(daemon, rs, lo, hi) <= WindowFees(rs, cutoff)
  {
    if rs != [] {
      var n := |rs| - 1;
      assert forall i :: 0 <= i < n ==> rs[..n][i] == rs[i];
      SpentIsCovered(daemon, rs[..n], lo, hi, cutoff);
      assert Terminal(rs[n].status);
    }
  }

  lemma {:induction false} SpentIgnoresOutside(daemon: map<Label, Swap>, rs: seq<Record>, lo: int, hi: int, n: nat)
    requires n <= |rs|
    requires forall i :: n <= i < |rs| ==> !Within(rs[i], lo, hi)
    ensures Spent(daemon, rs, lo, hi) == Spent(daemon, rs[..n], lo, hi)
    decreases |rs|
  {
    if n == |rs| {
      assert rs[..n] == rs;
    } else {
      SpentIgnoresOutside(daemon, rs[..|rs| - 1], lo, hi, n);
      assert rs[..|rs| - 1][..n] == rs[..n];
    }
  }

  ghost predicate LastWithin(rs: seq<Record>, lo: int, hi: int, i: nat) {
    i < |rs| && Within(rs[i], lo, hi) && forall j :: i < j < |rs| ==> !Within(rs[j], lo, hi)
  }

  lemma {:induction false} FindLastWithin(rs: seq<Record>, lo: int, hi: int) returns (i: nat)
    ensures i < |rs| ==> LastWithin(rs, lo, hi, i)
    ensures i >= |rs| ==> forall j :: 0 <= j < |rs| ==> !Within(rs[j], lo, hi)
  {
    i := |rs|;
    if rs != [] {
      var n := |rs| - 1;
      if Within(rs[n], lo, hi) {
        i := n;
      } else {
        i := FindLastWithin(rs[..n], lo, hi);
        if i < n {
          assert forall j :: i < j < n ==> rs[..n][j] == rs[j];
        } else {
          assert forall j :: 0 <= j < n ==> rs[..n][j] == rs[j];
          i := |rs|;
        }
      }
    }
  }

  /** The window the 24-hour cutoff really protects: a day, less the minute a quote may age,
      less the longest time `late` between a claim's freshness check and its cutoff reading. */
  ghost function WindowEnd(lo: int, late: int): int {
    lo + DAY - QUOTE_LIFETIME - late
  }

  lemma SpentBeforeLast(w: World, lo: int, hi: int, i: nat)
    requires Inv(w) && i < |w.st.records| && w.claims[i].now - DAY <= lo
    ensures Spent(w.daemon, w.st.records[..i], lo, hi) <= WindowFees(w.st.records[..i], w.claims[i].now - DAY)
    ensures Spent(w.daemon, w.st.records[..i], lo, hi) + w.st.records[i].reservation <= w.claims[i].budget
  {
    var before := w.st.records[..i];
    assert forall j :: 0 <= j < i ==> before[j] == w.st.records[j];
    SpentIsCovered(w.daemon, before, lo, hi, w.claims[i].now - DAY);
  }

  /** In every run, whatever daemon and clock do: all swaps created inside such a window together
      cost at most the budget the last of them was claimed under, plus its own overrun. */
  lemma RollingBudget(actions: seq<Action>, lo: int, late: nat, i: nat)
    requires LastWithin(Run(actions).st.records, lo, WindowEnd(lo, late), i)
    requires i < |Run(actions).claims| && Run(actions).claims[i].now - Run(actions).claims[i].began <= late
    ensures
      var w := Run(actions);
      var r := w.st.records[i];
      Spent(w.daemon, w.st.records, lo, WindowEnd(lo, late))
      <= w.claims[i].budget + Max(0, CostNow(w.daemon, r) - r.reservation)
  {
    RunKeepsInvariant(actions);
    RollingBudgetOf(Run(actions), lo, late, i);
  }

  lemma RollingBudgetOf(w: World, lo: int, late: nat, i: nat)
    requires Inv(w) && LastWithin(w.st.records, lo, WindowEnd(lo, late), i)
    requires w.claims[i].now - w.claims[i].began <= late
    ensures Spent(w.daemon, w.st.records, lo, WindowEnd(lo, late))
            <= w.claims[i].budget + Max(0, CostNow(w.daemon, w.st.records[i]) - w.st.records[i].reservation)
  {
    var rs, hi := w.st.records, WindowEnd(lo, late);
    SpentIgnoresOutside(w.daemon, rs, lo, hi, i + 1);
    assert rs[..i + 1][..i] == rs[..i];
    SpentBeforeLast(w, lo, hi, i);
  }

  /** With one budget, prompt claims and no overrun, the window never costs more than the budget. */
  lemma FixedBudgetIsKept(actions: seq<Action>, lo: int, late: nat, budget: nat)
    requires forall i {:trigger Run(actions).claims[i]} :: 0 <= i < |Run(actions).claims| ==>
               && Run(actions).claims[i].budget == budget
               && Run(actions).claims[i].now - Run(actions).claims[i].began <= late
    requires forall r :: r in Run(actions).st.records ==> CostNow(Run(actions).daemon, r) <= r.reservation
    ensures Spent(Run(actions).daemon, Run(actions).st.records, lo, WindowEnd(lo, late)) <= budget
  {
    RunKeepsInvariant(actions);
    FixedBudgetOf(Run(actions), lo, late, budget);
  }

  lemma FixedBudgetOf(w: World, lo: int, late: nat, budget: nat)
    requires Inv(w)
    requires forall i {:trigger w.claims[i]} :: 0 <= i < |w.claims| ==>
               w.claims[i].budget == budget && w.claims[i].now - w.claims[i].began <= late
    requires forall r :: r in w.st.records ==> CostNow(w.daemon, r) <= r.reservation
    ensures Spent(w.daemon, w.st.records, lo, WindowEnd(lo, late)) <= budget
  {
    var i := FindLastWithin(w.st.records, lo, WindowEnd(lo, late));
    if i < |w.st.records| {
      assert w.st.records[i] in w.st.records;
      RollingBudgetOf(w, lo, late, i);
    } else {
      SpentIgnoresOutside(w.daemon, w.st.records, lo, WindowEnd(lo, late), 0);
    }
  }

  // ----- one-shot automation -----

  /** Every automatic record fired one approval, no two the same; each firing was preceded by the
      arming of that very id, with no firing and no covering disarm of it in between. */
  lemma OneShotAutomation(actions: seq<Action>)
    ensures
      var w := Run(actions);
      && |w.claims| == |w.st.records|
      && (forall i {:trigger w.claims[i]} :: 0 <= i < |w.claims| && w.st.records[i].automatic ==>
            w.claims[i].approval.Some? && Fired(w.claims[i].approval.value) in w.autos)
      && (forall i, j :: 0 <= i < j < |w.claims| && w.st.records[i].automatic && w.st.records[j].automatic ==>
            w.claims[i].approval != w.claims[j].approval)
      && (forall j {:trigger w.autos[j]} :: 0 <= j < |w.autos| && w.autos[j].Fired? ==>
            exists k {:trigger w.autos[k]} :: 0 <= k < j && w.autos[k] == Armed(w.autos[j].id)
              && forall m {:trigger w.autos[m]} :: k < m < j ==> !Covers(w.autos[m], w.autos[j].id))
  {
    RunKeepsInvariant(actions);
    var w := Run(actions);
    forall j {:trigger w.autos[j]} | 0 <= j < |w.autos| && w.autos[j].Fired?
      ensures exists k {:trigger w.autos[k]} :: 0 <= k < j && w.autos[k] == Armed(w.autos[j].id)
                && forall m {:trigger w.autos[m]} :: k < m < j ==> !Covers(w.autos[m], w.autos[j].id)
    {
      LawfulPrefix(w.autos, j + 1);
      assert w.autos[..j + 1][..j] == w.autos[..j];
      var k := LiveWasArmed(w.autos[..j], w.autos[j].id);
      assert w.autos[k] == Armed(w.autos[j].id);
      forall m {:trigger w.autos[m]} | k < m < j ensures !Covers(w.autos[m], w.autos[j].id) {
        assert w.autos[..j][m] == w.autos[m];
      }
    }
  }

  /** No approval armed before a completed disarm that covers it can fire after that disarm. */
  lemma NoFiringAfterDisarm(actions: seq<Action>, d: nat, j: nat)
    requires d < j < |Run(actions).autos|
    requires Run(actions).autos[d].Disarmed? && Run(actions).autos[j].Fired?
    requires Covers(Run(actions).autos[d], Run(actions).autos[j].id)
    ensures forall k {:trigger Run(actions).autos[k]} ::
            0 <= k < d ==> Run(actions).autos[k] != Armed(Run(actions).autos[j].id)
  {
    OneShotAutomation(actions);
    RunKeepsInvariant(actions);
    var autos := Run(actions).autos;
    var armed :| 0 <= armed < j && autos[armed] == Armed(autos[j].id)
      && forall m {:trigger autos[m]} :: armed < m < j ==> !Covers(autos[m], autos[j].id);
    forall k {:trigger autos[k]} | 0 <= k < d ensures autos[k] != Armed(autos[j].id) {
      if autos[k] == Armed(autos[j].id) {
        ArmedOnce(autos, k, armed);
      }
    }
  }
}
