/** Input selection for a channel open (ops/router_channels.py:26-54). */
module Funding {
  import opened Wrappers
  import opened Ordering

  datatype AddressKind = WitnessPubkeyHash | NestedPubkeyHash | TaprootPubkey | OtherAddress

  /** `scriptFits` says whether the script has the one form its address kind allows; `outpoint`
      is None when it does not parse. */
  datatype Utxo = Utxo(outpoint: Option<string>, amount: int, kind: AddressKind, scriptFits: bool, confirmations: int)

  predicate Eligible(u: Utxo) {
    !u.kind.OtherAddress? && u.scriptFits && u.confirmations >= 1
  }

  function Amount(u: Utxo): int {
    u.amount
  }

  /** The fee bound for k inputs at a rate in sat per vbyte. */
  function UpperFee(rate: nat, k: nat): int {
    rate * (1000 + 200 * k) + 1000
  }

  datatype Selection = Selection(utxos: seq<string>, inputSat: int, feeUpperBound: int)

  datatype Funded = Selected(s: Selection) | Insufficient | BadOutpoint

  function Sum(us: seq<Utxo>): int {
    if us == [] then 0 else Sum(us[..|us| - 1]) + us[|us| - 1].amount
  }

  function Filter(us: seq<Utxo>): (out: seq<Utxo>)
    ensures forall u :: u in out ==> Eligible(u)
  {
    if us == [] then []
    else Filter(us[..|us| - 1]) + if Eligible(us[|us| - 1]) then [us[|us| - 1]] else []
  }

  /** The eligible inputs, largest first. */
  function Candidates(utxos: seq<Utxo>): seq<Utxo> {
    Filter(SortDescending(utxos, Amount))
  }

  /** A standard confirmed input of one of the three kinds. */
  ghost predicate Standard(u: Utxo) {
    u.kind in {WitnessPubkeyHash, NestedPubkeyHash, TaprootPubkey} && u.scriptFits && u.confirmations > 0
  }

  /** `picked` is a choice of standard confirmed inputs, none used twice, that pays amount and fee within the cap:
      1000 vbytes and 200 for each input at the rate, and 1000 satoshi for change too small to keep. */
  ghost predicate Pays(utxos: seq<Utxo>, picked: seq<Utxo>, amount: int, rate: nat, cap: int) {
    var fee := 1000 + 1000 * rate + 200 * (rate * |picked|);
    && multiset(picked) <= multiset(utxos)
    && (forall u :: u in picked ==> Standard(u))
    && |picked| > 0
    && fee <= cap
    && Sum(picked) >= amount + fee
  }

  /** The selection names these inputs in order, with their sum and fee bound. */
  ghost predicate IsSelection(s: Selection, picked: seq<Utxo>, rate: nat) {
    && |s.utxos| == |picked| && (forall i :: 0 <= i < |picked| ==> picked[i].outpoint == Some(s.utxos[i]))
    && s.inputSat == Sum(picked) && s.feeUpperBound == 1000 + 1000 * rate + 200 * (rate * |picked|)
  }

  lemma FeeBound(rate: nat, k: nat)
    ensures UpperFee(rate, k) == 1000 + 1000 * rate + 200 * (rate * k)
  {
    assert rate * (1000 + 200 * k) == 1000 * rate + 200 * (rate * k);
  }

  predicate PrefixPays(cs: seq<Utxo>, k: nat, amount: int, rate: nat, cap: int) {
    0 < k <= |cs| && UpperFee(rate, k) <= cap && Sum(cs[..k]) >= amount + UpperFee(rate, k)
  }

  ghost predicate LeastPaying(cs: seq<Utxo>, k: nat, amount: int, rate: nat, cap: int) {
    PrefixPays(cs, k, amount, rate, cap) && forall j: nat :: j < k ==> !PrefixPays(cs, j, amount, rate, cap)
  }

  ghost predicate Parses(us: seq<Utxo>) {
    forall u :: u in us ==> u.outpoint.Some?
  }

  function Names(us: seq<Utxo>): seq<string> {
    seq(|us|, i requires 0 <= i < |us| => if us[i].outpoint.Some? then us[i].outpoint.value else "")
  }

  /** The k-th candidate is the first that does not parse, and is reached: nothing before it
      ended the search. */
  ghost predicate StuckAt(cs: seq<Utxo>, k: nat, amount: int, rate: nat, cap: int)
    requires k < |cs|
  {
    && cs[k].outpoint.None? && Parses(cs[..k])
    && (k > 0 ==> UpperFee(rate, k) <= cap)
    && forall j: nat :: j <= k ==> !PrefixPays(cs, j, amount, rate, cap)
  }

  /** The result says which of the three ways the source ends, in terms of the sorted candidates alone. */
  ghost predicate Decided(cs: seq<Utxo>, amount: int, rate: nat, cap: int, r: Funded) {
    match r
    case Selected(s) =>
      LeastPaying(cs, |s.utxos|, amount, rate, cap) && Parses(cs[..|s.utxos|]) && s.utxos == Names(cs[..|s.utxos|])
      && s.inputSat == Sum(cs[..|s.utxos|]) && s.feeUpperBound == UpperFee(rate, |s.utxos|)
    case Insufficient =>
      && (forall k: nat :: !PrefixPays(cs, k, amount, rate, cap))
      && (forall k {:trigger cs[k]} :: 0 <= k < |cs| && cs[k].outpoint.None? ==> k > 0 && UpperFee(rate, k) > cap)
    case BadOutpoint =>
      exists k {:trigger cs[k]} :: 0 <= k < |cs| && StuckAt(cs, k, amount, rate, cap)
  }

  lemma FeeIsMonotone(rate: nat, j: nat, k: nat)
    requires j <= k
    ensures UpperFee(rate, j) <= UpperFee(rate, k)
  {
    assert rate * (1000 + 200 * k) - rate * (1000 + 200 * j) == rate * (200 * (k - j));
  }

  /** The search has looked at n candidates and has no reason to stop yet. */
  ghost predicate Searching(cs: seq<Utxo>, n: nat, amount: int, rate: nat, cap: int) {
    && n <= |cs| && Parses(cs[..n])
    && (n > 0 ==> UpperFee(rate, n) <= cap)
    && forall k: nat :: k <= n ==> !PrefixPays(cs, k, amount, rate, cap)
  }

  lemma NothingPays(cs: seq<Utxo>, amount: int, rate: nat, cap: int)
    requires Searching(cs, |cs|, amount, rate, cap)
    ensures Decided(cs, amount, rate, cap, Insufficient)
  {
    assert cs[..|cs|] == cs;
  }

  lemma PrefixGrows(cs: seq<Utxo>, n: nat)
    requires n < |cs|
    ensures Sum(cs[..n + 1]) == Sum(cs[..n]) + cs[n].amount
    ensures cs[n].outpoint.Some? ==> Names(cs[..n + 1]) == Names(cs[..n]) + [cs[n].outpoint.value]
    ensures cs[n].outpoint.Some? && Parses(cs[..n]) ==> Parses(cs[..n + 1])
  {
    assert cs[..n + 1][..n] == cs[..n];
    assert cs[..n + 1] == cs[..n] + [cs[n]];
  }

  lemma CapEndsSearch(cs: seq<Utxo>, n: nat, amount: int, rate: nat, cap: int)
    requires n < |cs| && Searching(cs, n, amount, rate, cap) && cs[n].outpoint.Some? && UpperFee(rate, n + 1) > cap
    ensures Decided(cs, amount, rate, cap, Insufficient)
  {
    forall k: nat ensures !PrefixPays(cs, k, amount, rate, cap) {
      if k > n { FeeIsMonotone(rate, n + 1, k); }
    }
    PrefixGrows(cs, n);
    assert forall k :: 0 <= k <= n ==> cs[..n + 1][k] == cs[k];
    forall k {:trigger cs[k]} | 0 <= k < |cs| && cs[k].outpoint.None? ensures k > 0 && UpperFee(rate, k) > cap {
      FeeIsMonotone(rate, n + 1, k);
    }
  }

  method FundingSelection(utxos: seq<Utxo>, amount: int, rate: nat, cap: int) returns (r: Funded)
    ensures Decided(Candidates(utxos), amount, rate, cap, r)
  {
    r := SelectInOrder(SortDescending(utxos, Amount), amount, rate, cap);
  }

  /** One turn of the source's loop on an eligible input: it either ends the search or is taken. */
  method Take(ghost cs: seq<Utxo>, u: Utxo, selected: seq<string>, total: int, amount: int, rate: nat, cap: int)
    returns (r: Option<Funded>, selected': seq<string>, total': int)
    requires |selected| < |cs| && cs[|selected|] == u && Searching(cs, |selected|, amount, rate, cap)
    requires selected == Names(cs[..|selected|]) && total == Sum(cs[..|selected|])
    ensures r.Some? ==> Decided(cs, amount, rate, cap, r.value)
    ensures r.None? ==>
              && |selected'| == |selected| + 1 && Searching(cs, |selected'|, amount, rate, cap)
              && selected' == Names(cs[..|selected'|]) && total' == Sum(cs[..|selected'|])
  {
    ghost var n := |selected|;
    selected', total' := selected, total;
    if u.outpoint.None? {
      return Some(BadOutpoint), selected', total';
    }
    PrefixGrows(cs, n);
    selected', total' := selected + [u.outpoint.value], total + u.amount;
    var fee := UpperFee(rate, |selected'|);
    if fee > cap {
      CapEndsSearch(cs, n, amount, rate, cap);
      return Some(Insufficient), selected', total';
    }
    if total' >= amount + fee {
      return Some(Selected(Selection(selected', total', fee))), selected', total';
    }
    return None, selected', total';
  }

  /** The source's loop over the sorted inputs. */
  method SelectInOrder(sorted: seq<Utxo>, amount: int, rate: nat, cap: int) returns (r: Funded)
    ensures Decided(Filter(sorted), amount, rate, cap, r)
  {
    ghost var cs := Filter(sorted);
    var selected: seq<string>, total := [], 0;
    for i := 0 to |sorted|
      invariant |selected| <= |cs| && Filter(sorted[..i]) == cs[..|selected|]
      invariant selected == Names(cs[..|selected|]) && total == Sum(cs[..|selected|])
      invariant Searching(cs, |selected|, amount, rate, cap)
    {
      FilterStep(sorted, i);
      if !Eligible(sorted[i]) { continue; }
      NextCandidate(sorted, i, |selected|);
      var ended: Option<Funded>;
      ended, selected, total := Take(cs, sorted[i], selected, total, amount, rate, cap);
      if ended.Some? { return ended.value; }
    }
    assert sorted[..|sorted|] == sorted && cs[..|cs|] == cs;
    NothingPays(cs, amount, rate, cap);
    return Insufficient;
  }

  lemma NextCandidate(sorted: seq<Utxo>, i: nat, n: nat)
    requires i < |sorted| && Eligible(sorted[i])
    requires n <= |Filter(sorted)| && Filter(sorted[..i]) == Filter(sorted)[..n]
    ensures n < |Filter(sorted)| && Filter(sorted)[n] == sorted[i]
    ensures Filter(sorted[..i + 1]) == Filter(sorted)[..n + 1]
  {
    FilterStep(sorted, i);
    assert Filter(sorted[..i + 1])[n] == sorted[i];
  }

  lemma FilterStep(us: seq<Utxo>, i: nat)
    requires i < |us|
    ensures Filter(us[..i + 1]) == Filter(us[..i]) + if Eligible(us[i]) then [us[i]] else []
    ensures Filter(us[..i + 1]) <= Filter(us)
  {
    assert us[..i + 1][..i] == us[..i];
    FilterPrefix(us, i + 1);
  }

  lemma {:induction false} FilterPrefix(us: seq<Utxo>, n: nat)
    requires n <= |us|
    ensures Filter(us[..n]) <= Filter(us)
    decreases |us|
  {
    if n == |us| {
      assert us[..n] == us;
    } else {
      FilterPrefix(us[..|us| - 1], n);
      assert us[..|us| - 1][..n] == us[..n];
    }
  }

  // ----- largest-first is optimal -----

  lemma {:induction false} SumAppend(a: seq<Utxo>, b: seq<Utxo>)
    ensures Sum(a + b) == Sum(a) + Sum(b)
  {
    if b == [] {
      assert a + b == a;
    } else {
      assert (a + b)[..|a + b| - 1] == a + b[..|b| - 1];
      SumAppend(a, b[..|b| - 1]);
    }
  }

  /** Taking one element out of a choice. */
  function Without(picked: seq<Utxo>, i: nat): seq<Utxo>
    requires i < |picked|
  {
    picked[..i] + picked[i + 1..]
  }

  lemma {:induction false} SumWithout(picked: seq<Utxo>, i: nat)
    requires i < |picked|
    ensures Sum(picked) == Sum(Without(picked, i)) + picked[i].amount
  {
    var n := |picked| - 1;
    if i == n {
      assert Without(picked, i) == picked[..n];
    } else {
      SumWithout(picked[..n], i);
      assert Without(picked, i)[..n - 1] == Without(picked[..n], i);
    }
  }

  /** Dropping the head wherever it occurs (or any element, if it does not) leaves a choice from the tail. */
  lemma ChoiceFromTail(cs: seq<Utxo>, picked: seq<Utxo>, i: nat)
    requires multiset(picked) <= multiset(cs) && cs != []
    requires i < |picked| && (cs[0] in picked ==> picked[i] == cs[0])
    ensures multiset(Without(picked, i)) <= multiset(cs[1..])
  {
    var h, t, rest := cs[0], cs[1..], Without(picked, i);
    assert cs == [h] + t;
    assert multiset(cs) == multiset{h} + multiset(t);
    assert picked == picked[..i] + [picked[i]] + picked[i + 1..];
    assert multiset(picked) == multiset(rest) + multiset{picked[i]};
    forall u ensures multiset(rest)[u] <= multiset(t)[u] {
      assert multiset(picked)[u] <= multiset(cs)[u];
      if u == h && picked[i] != h {
        assert h !in picked;
        assert multiset(picked)[h] == 0;
      }
    }
  }

  /** The exchange step: any choice of k elements from a descending list sums to at most its first k. */
  lemma {:induction false} FirstAreBest(cs: seq<Utxo>, picked: seq<Utxo>)
    requires Descending(cs, Amount) && multiset(picked) <= multiset(cs)
    ensures |picked| <= |cs| && Sum(picked) <= Sum(cs[..|picked|])
  {
    if picked != [] {
      assert picked[0] in multiset(cs);
      var h, t := cs[0], cs[1..];
      var i: nat :| i < |picked| && (h in picked ==> picked[i] == h);
      var rest := Without(picked, i);
      SumWithout(picked, i);
      ChoiceFromTail(cs, picked, i);
      FirstAreBest(t, rest);
      assert picked[i] in multiset(cs);
      assert h.amount >= picked[i].amount;
      assert cs[..|picked|] == [h] + t[..|rest|];
      SumAppend([h], t[..|rest|]);
    }
  }

  lemma {:induction false} FilterDescending(us: seq<Utxo>)
    requires Descending(us, Amount)
    ensures Descending(Filter(us), Amount)
    ensures multiset(Filter(us)) <= multiset(us)
  {
    if us != [] {
      var n := |us| - 1;
      FilterDescending(us[..n]);
      assert us == us[..n] + [us[n]];
      forall u | u in Filter(us[..n]) ensures u.amount >= us[n].amount {
        assert u in multiset(Filter(us[..n]));
        assert u in us[..n];
      }
    }
  }

  lemma {:induction false} FilterCounts(us: seq<Utxo>, u: Utxo)
    requires Eligible(u)
    ensures multiset(Filter(us))[u] == multiset(us)[u]
  {
    if us != [] {
      var n := |us| - 1;
      FilterCounts(us[..n], u);
      assert us == us[..n] + [us[n]];
    }
  }

  /** The candidates are all eligible inputs with their multiplicity, largest first. */
  lemma CandidatesAreEligible(utxos: seq<Utxo>)
    ensures Descending(Candidates(utxos), Amount)
    ensures multiset(Candidates(utxos)) <= multiset(utxos)
    ensures forall u :: multiset(Candidates(utxos))[u] == if Standard(u) then multiset(utxos)[u] else 0
  {
    SortIsDescendingPermutation(utxos, Amount);
    FilterDescending(SortDescending(utxos, Amount));
    forall u ensures multiset(Candidates(utxos))[u] == if Standard(u) then multiset(utxos)[u] else 0 {
      if Eligible(u) { FilterCounts(SortDescending(utxos, Amount), u); }
    }
  }

  /** The k largest eligible inputs are a choice of inputs. */
  lemma PrefixIsChoice(utxos: seq<Utxo>, k: nat, amount: int, rate: nat, cap: int)
    requires PrefixPays(Candidates(utxos), k, amount, rate, cap)
    ensures Pays(utxos, Candidates(utxos)[..k], amount, rate, cap)
  {
    var cs := Candidates(utxos);
    CandidatesAreEligible(utxos);
    assert cs == cs[..k] + cs[k..];
    assert multiset(cs[..k]) <= multiset(cs);
    forall u | u in cs[..k] ensures Standard(u) {
      assert u in cs;
    }
    FeeBound(rate, k);
  }

  /** If any choice of k inputs pays, the k largest eligible ones do. */
  lemma ChoiceGivesPrefix(utxos: seq<Utxo>, picked: seq<Utxo>, amount: int, rate: nat, cap: int)
    requires Pays(utxos, picked, amount, rate, cap)
    ensures PrefixPays(Candidates(utxos), |picked|, amount, rate, cap)
  {
    var cs := Candidates(utxos);
    CandidatesAreEligible(utxos);
    forall u ensures multiset(picked)[u] <= multiset(cs)[u] {
      if u in multiset(picked) { assert u in picked; }
    }
    FirstAreBest(cs, picked);
    FeeBound(rate, |picked|);
  }

  /** A selection succeeds with a choice of inputs that pays, and no choice that pays is smaller. */
  lemma SelectionIsMinimal(utxos: seq<Utxo>, amount: int, rate: nat, cap: int, s: Selection)
    requires Decided(Candidates(utxos), amount, rate, cap, Selected(s))
    ensures
      var picked := Candidates(utxos)[..|s.utxos|];
      Pays(utxos, picked, amount, rate, cap) && IsSelection(s, picked, rate)
    ensures forall picked :: Pays(utxos, picked, amount, rate, cap) ==> |s.utxos| <= |picked|
  {
    PrefixIsChoice(utxos, |s.utxos|, amount, rate, cap);
    FeeBound(rate, |s.utxos|);
    forall picked | Pays(utxos, picked, amount, rate, cap) ensures |s.utxos| <= |picked| {
      ChoiceGivesPrefix(utxos, picked, amount, rate, cap);
    }
  }

  /** Selection is exact: when the outpoints parse, it succeeds exactly if some choice of inputs pays. */
  lemma SelectionIsExact(utxos: seq<Utxo>, amount: int, rate: nat, cap: int, r: Funded)
    requires Decided(Candidates(utxos), amount, rate, cap, r)
    ensures r.Insufficient? ==> forall picked :: !Pays(utxos, picked, amount, rate, cap)
    ensures Parses(Candidates(utxos)) ==> (r.Selected? <==> exists picked :: Pays(utxos, picked, amount, rate, cap))
  {
    forall picked | Pays(utxos, picked, amount, rate, cap) ensures !r.Insufficient? {
      ChoiceGivesPrefix(utxos, picked, amount, rate, cap);
    }
    match r
    case Selected(s) => PrefixIsChoice(utxos, |s.utxos|, amount, rate, cap);
    case Insufficient =>
    case BadOutpoint =>
      var cs := Candidates(utxos);
      var k :| 0 <= k < |cs| && StuckAt(cs, k, amount, rate, cap);
      assert cs[k] in cs;
  }

  /** The three ways to end exclude each other: the result is a function of the candidates. */
  lemma DecisionIsUnique(cs: seq<Utxo>, amount: int, rate: nat, cap: int, r: Funded, r': Funded)
    requires Decided(cs, amount, rate, cap, r) && Decided(cs, amount, rate, cap, r')
    ensures r == r'
  {
    if r.Selected? && r'.Selected? {
      assert |r.s.utxos| == |r'.s.utxos|;
    } else {
      OneWayToEnd(cs, amount, rate, cap, r, r');
      OneWayToEnd(cs, amount, rate, cap, r', r);
    }
  }

  lemma ParsedPrefixIsShort(cs: seq<Utxo>, k: nat, n: nat)
    requires k < |cs| && n <= |cs| && cs[k].outpoint.None? && Parses(cs[..n])
    ensures n <= k
  {
  }

  lemma OneWayToEnd(cs: seq<Utxo>, amount: int, rate: nat, cap: int, r: Funded, r': Funded)
    requires Decided(cs, amount, rate, cap, r) && Decided(cs, amount, rate, cap, r')
    ensures r.BadOutpoint? ==> r'.BadOutpoint?
    ensures r.Insufficient? ==> !r'.Selected?
  {
    if r.BadOutpoint? {
      var k: nat :| k < |cs| && StuckAt(cs, k, amount, rate, cap);
      if r'.Selected? {
        ParsedPrefixIsShort(cs, k, |r'.s.utxos|);
      } else if r'.Insufficient? {
        NotStuckWhenInsufficient(cs, k, amount, rate, cap);
      }
    }
  }

  lemma NotStuckWhenInsufficient(cs: seq<Utxo>, k: nat, amount: int, rate: nat, cap: int)
    requires k < |cs| && Decided(cs, amount, rate, cap, Insufficient)
    ensures !StuckAt(cs, k, amount, rate, cap)
  {
  }
}
