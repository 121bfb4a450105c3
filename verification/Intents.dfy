/**
 The write-ahead discipline shared by every money-moving journal: a durable intent comes
 first, its one irreversible effect at most once after that, and no further intent until
 the old one is resolved. Each journal proves that its own history replays on this machine.
 */
module Intents {
  import opened Wrappers

  datatype Event<+K> = Intent(key: K) | Effect(key: K) | Resolve(key: K)

  datatype Slot<+K> = Free | Held(key: K, sent: bool)

  datatype Machine<K> = Machine(slot: Slot<K>, used: set<K>)

  ghost function Step<K>(m: Machine<K>, e: Event<K>): Option<Machine<K>> {
    match e
    case Intent(k) =>
      if m.slot.Free? && k !in m.used then Some(Machine(Held(k, false), m.used + {k})) else None
    case Effect(k) =>
      if m.slot == Held(k, false) then Some(m.(slot := Held(k, true))) else None
    case Resolve(k) =>
      if m.slot.Held? && m.slot.key == k then Some(m.(slot := Free)) else None
  }

  /** The state of the machine after a history, or None if some event was not allowed. */
  ghost function Replay<K>(h: seq<Event<K>>): Option<Machine<K>> {
    if h == [] then Some(Machine(Free, {}))
    else
      var before := Replay(h[..|h| - 1]);
      if before.None? then None else Step(before.value, h[|h| - 1])
  }

  ghost predicate Disciplined<K>(h: seq<Event<K>>) {
    Replay(h).Some?
  }

  /** A journal's own history, seen as events of the discipline. */
  function Project<E, K>(log: seq<E>, view: E -> Event<K>): (out: seq<Event<K>>)
    ensures |out| == |log| && forall i :: 0 <= i < |log| ==> out[i] == view(log[i])
  {
    seq(|log|, i requires 0 <= i < |log| => view(log[i]))
  }

  lemma ProjectAppend<E, K>(log: seq<E>, e: E, view: E -> Event<K>)
    ensures Project(log + [e], view) == Project(log, view) + [view(e)]
  {
  }

  lemma ReplayAppend<K>(h: seq<Event<K>>, e: Event<K>)
    ensures Replay(h + [e]) == if Replay(h).None? then None else Step(Replay(h).value, e)
  {
    assert (h + [e])[..|h + [e]| - 1] == h;
  }

  lemma {:induction false} PrefixDisciplined<K>(h: seq<Event<K>>, n: nat)
    requires Disciplined(h) && n <= |h|
    ensures Disciplined(h[..n])
    decreases |h| - n
  {
    if n == |h| {
      assert h[..n] == h;
    } else {
      PrefixDisciplined(h, n + 1);
      assert h[..n + 1][..n] == h[..n];
    }
  }

  /** What a replayed state says about the events that led to it. */
  ghost predicate Explains<K>(m: Machine<K>, h: seq<Event<K>>) {
    && (forall i {:trigger h[i]} :: 0 <= i < |h| ==> h[i].key in m.used)
    && (forall k :: k in m.used ==> Intent(k) in h)
    && (m.slot.Held? ==> m.slot.key in m.used && (m.slot.sent <==> Effect(m.slot.key) in h))
  }

  lemma {:induction false} ReplayExplains<K>(h: seq<Event<K>>)
    requires Disciplined(h)
    ensures Explains(Replay(h).value, h)
  {
    if h != [] {
      var n := |h| - 1;
      assert h == h[..n] + [h[n]];
      ReplayExplains(h[..n]);
    }
  }

  /** The event right before an effect is its intent; the event right after is its resolution. */
  lemma EffectNeighbours<K>(h: seq<Event<K>>, i: nat)
    requires Disciplined(h) && i < |h| && h[i].Effect?
    ensures i > 0 && h[i - 1] == Intent(h[i].key)
    ensures i + 1 < |h| ==> h[i + 1] == Resolve(h[i].key)
  {
    PrefixDisciplined(h, i + 1);
    assert h[..i + 1][..i] == h[..i];
    assert Replay(h[..i]).value.slot == Held(h[i].key, false);
    assert h[..i][..i - 1] == h[..i - 1];
    if i + 1 < |h| {
      PrefixDisciplined(h, i + 2);
      assert h[..i + 2][..i + 1] == h[..i + 1];
    }
  }

  /** Main law: two effects never overlap. The first is resolved, and the second's intent is
      durable, before the second is sent; no key is ever sent twice. */
  lemma ResolvedBetweenEffects<K>(h: seq<Event<K>>, i: nat, j: nat)
    requires Disciplined(h) && i < j < |h| && h[i].Effect? && h[j].Effect?
    ensures h[i].key != h[j].key
    ensures i + 1 < j - 1 && h[i + 1] == Resolve(h[i].key) && h[j - 1] == Intent(h[j].key)
  {
    EffectNeighbours(h, i);
    EffectNeighbours(h, j);
    IntentsAreFresh(h, i - 1, j - 1);
  }

  lemma IntentsAreFresh<K>(h: seq<Event<K>>, i: nat, j: nat)
    requires Disciplined(h) && i < j < |h| && h[i].Intent? && h[j].Intent?
    ensures h[i].key != h[j].key
  {
    PrefixDisciplined(h, j + 1);
    assert h[..j + 1][..j] == h[..j];
    ReplayExplains(h[..j]);
    assert h[..j][i] == h[i];
  }

  /** Every effect follows its own durable intent, and is sent at most once. */
  lemma EffectAfterIntentOnce<K>(h: seq<Event<K>>, j: nat)
    requires Disciplined(h) && j < |h| && h[j].Effect?
    ensures Intent(h[j].key) in h[..j]
    ensures forall i {:trigger h[i]} :: 0 <= i < |h| && h[i] == h[j] ==> i == j
  {
    EffectNeighbours(h, j);
    assert h[..j][j - 1] == h[j - 1];
    forall i {:trigger h[i]} | 0 <= i < |h| && h[i] == h[j] ensures i == j {
      if i < j {
        ResolvedBetweenEffects(h, i, j);
        assert false;
      } else if j < i {
        ResolvedBetweenEffects(h, j, i);
        assert false;
      }
    }
  }

  // ----- one slot per key -----

  /** The part of a history that is about one key. */
  function OfKey<K(==)>(h: seq<Event<K>>, k: K): seq<Event<K>> {
    if h == [] then [] else OfKey(h[..|h| - 1], k) + if h[|h| - 1].key == k then [h[|h| - 1]] else []
  }

  /** Several keys may be unresolved at once, but the events of each follow the discipline. */
  ghost predicate Keywise<K(!new)>(h: seq<Event<K>>) {
    forall k {:trigger OfKey(h, k)} :: Disciplined(OfKey(h, k))
  }

  lemma OfKeyAppend<K>(h: seq<Event<K>>, e: Event<K>, k: K)
    ensures OfKey(h + [e], k) == OfKey(h, k) + if e.key == k then [e] else []
  {
    assert (h + [e])[..|h|] == h;
  }

  lemma {:induction false} OfKeyIs<K>(h: seq<Event<K>>, k: K)
    ensures forall e :: e in OfKey(h, k) <==> e in h && e.key == k
  {
    if h != [] {
      var n := |h| - 1;
      OfKeyIs(h[..n], k);
      assert h == h[..n] + [h[n]];
    }
  }

  lemma {:induction false} KeywisePrefix<K(!new)>(h: seq<Event<K>>, n: nat)
    requires Keywise(h) && n <= |h|
    ensures Keywise(h[..n])
    decreases |h| - n
  {
    if n == |h| {
      assert h[..n] == h;
    } else {
      KeywisePrefix(h, n + 1);
      var g := h[..n];
      assert h[..n + 1] == g + [h[n]];
      forall k ensures Disciplined(OfKey(g, k)) {
        OfKeyAppend(g, h[n], k);
        PrefixDisciplined(OfKey(g + [h[n]], k), |OfKey(g, k)|);
        assert OfKey(g + [h[n]], k)[..|OfKey(g, k)|] == OfKey(g, k);
      }
    }
  }

  /** Every effect follows its own durable intent, and is sent at most once. */
  lemma KeywiseEffectOnce<K(!new)>(h: seq<Event<K>>, j: nat)
    requires Keywise(h) && j < |h| && h[j].Effect?
    ensures Intent(h[j].key) in h[..j]
    ensures Effect(h[j].key) !in h[..j]
  {
    var k, g := h[j].key, h[..j];
    KeywisePrefix(h, j + 1);
    KeywisePrefix(h, j);
    assert h[..j + 1] == g + [h[j]];
    OfKeyAppend(g, h[j], k);
    ReplayAppend(OfKey(g, k), h[j]);
    ReplayExplains(OfKey(g, k));
    OfKeyIs(g, k);
  }

  /** A key that was never intended may be intended, and then sent once. */
  lemma KeywiseFresh<K(!new)>(h: seq<Event<K>>, key: K)
    requires Keywise(h) && Intent(key) !in h
    ensures Keywise(h + [Intent(key)]) && Keywise(h + [Intent(key)] + [Effect(key)])
  {
    forall k
      ensures Disciplined(OfKey(h + [Intent(key)], k)) && Disciplined(OfKey(h + [Intent(key)] + [Effect(key)], k))
    {
      OfKeyAppend(h, Intent(key), k);
      OfKeyAppend(h + [Intent(key)], Effect(key), k);
      if k == key {
        ReplayExplains(OfKey(h, k));
        OfKeyIs(h, k);
        ReplayAppend(OfKey(h, k), Intent(k));
        ReplayAppend(OfKey(h, k) + [Intent(k)], Effect(k));
      } else {
        assert OfKey(h, k) + [] == OfKey(h, k);
      }
    }
  }

  /** The single slot is the stricter law: every history that follows it follows this one. */
  lemma DisciplinedIsKeywise<K(!new)>(h: seq<Event<K>>)
    requires Disciplined(h)
    ensures Keywise(h)
  {
    forall k ensures Disciplined(OfKey(h, k)) { OwnPartFollows(h, k); }
  }

  lemma {:induction false} OwnPartFollows<K>(h: seq<Event<K>>, k: K)
    requires Disciplined(h)
    ensures Disciplined(OfKey(h, k))
    ensures
      var m, own := Replay(h).value, Replay(OfKey(h, k)).value;
      && own.used == (if k in m.used then {k} else {})
      && own.slot == if m.slot.Held? && m.slot.key == k then m.slot else Free
  {
    if h != [] {
      var n := |h| - 1;
      var g, e := h[..n], h[n];
      PrefixDisciplined(h, n);
      OwnPartFollows(g, k);
      OfKeyAppend(g, e, k);
      assert h == g + [e];
      ReplayAppend(g, e);
      if e.key == k { ReplayAppend(OfKey(g, k), e); } else { assert OfKey(g, k) + [] == OfKey(g, k); }
    }
  }
}
