/** Editing exported Helm values (ops/flux_ops.py): the credential filter, the deep merge and
    `edit_values`, on JSON values. */
module ValuesMerge {
  import opened Wrappers

  datatype Json =
    | Null
    | Bool(b: bool)
    | Num(n: real)
    | Str(s: string)
    | Arr(items: seq<Json>)
    | Obj(fields: map<string, Json>)

  type Fields = map<string, Json>

  // ----- merging -----

  /** What a key holding `a` holds once `b` is merged over it: objects merge key by key,
      anything else is replaced, and null is a value like any other. */
  function Merge(a: Json, b: Json): Json
    decreases b
  {
    if a.Obj? && b.Obj? then
      Obj(map k | k in a.fields.Keys + b.fields.Keys ::
            if k !in b.fields then a.fields[k]
            else if k in a.fields then Merge(a.fields[k], b.fields[k])
            else b.fields[k])
    else b
  }

  /** What one key of the patch stores, given what the key holds so far. */
  function Stored(oldValue: Option<Json>, v: Json): Json {
    if v.Obj? && oldValue.Some? && oldValue.value.Obj? then Merge(oldValue.value, v) else v
  }

  function At(a: Fields, k: string): Option<Json> {
    if k in a then Some(a[k]) else None
  }

  lemma MergedFields(a: Fields, b: Fields, r: Fields)
    requires r.Keys == a.Keys + b.Keys
    requires forall k :: k in r ==> r[k] == if k in b then Stored(At(a, k), b[k]) else a[k]
    ensures Obj(r) == Merge(Obj(a), Obj(b))
  {
    assert r == Merge(Obj(a), Obj(b)).fields;
  }

  /** The source's recursive loop over the patch's keys. */
  method MergeInto(a: Fields, b: Fields) returns (r: Fields)
    ensures Obj(r) == Merge(Obj(a), Obj(b))
    decreases Obj(b)
  {
    r := a;
    var todo := b.Keys;
    while todo != {}
      invariant todo <= b.Keys && r.Keys == a.Keys + (b.Keys - todo)
      invariant forall k :: k in r ==> r[k] == if k in b && k !in todo then Stored(At(a, k), b[k]) else a[k]
      decreases todo
    {
      var k :| k in todo;
      if b[k].Obj? && k in r && r[k].Obj? {
        var inner := MergeInto(r[k].fields, b[k].fields);
        r := r[k := Obj(inner)];
      } else {
        r := r[k := b[k]];
      }
      todo := todo - {k};
    }
    MergedFields(a, b, r);
  }

  datatype Step = Key(k: string) | Index(i: nat)

  function Lookup(v: Json, path: seq<Step>): Option<Json>
    decreases |path|
  {
    if path == [] then Some(v)
    else
      match path[0]
      case Key(k) => if v.Obj? && k in v.fields then Lookup(v.fields[k], path[1..]) else None
      case Index(i) => if v.Arr? && i < |v.items| then Lookup(v.items[i], path[1..]) else None
  }

  ghost predicate KeysOnly(path: seq<Step>) {
    forall i :: 0 <= i < |path| ==> path[i].Key?
  }

  /** Somewhere strictly above this path the patch holds a value that is not an object. */
  ghost predicate CutsOff(b: Json, path: seq<Step>) {
    exists i {:trigger path[..i]} :: 0 <= i < |path| && Lookup(b, path[..i]).Some? && !Lookup(b, path[..i]).value.Obj?
  }

  lemma CutsOffBelow(b: Json, path: seq<Step>)
    requires path != [] && path[0].Key? && b.Obj? && path[0].k in b.fields
    ensures CutsOff(b, path) <==> CutsOff(b.fields[path[0].k], path[1..])
  {
    var v, rest := b.fields[path[0].k], path[1..];
    forall i | 0 <= i < |rest| ensures Lookup(b, path[..i + 1]) == Lookup(v, rest[..i]) {
      assert path[..i + 1][1..] == rest[..i];
    }
    if CutsOff(v, rest) {
      var i :| 0 <= i < |rest| && Lookup(v, rest[..i]).Some? && !Lookup(v, rest[..i]).value.Obj?;
      assert Lookup(b, path[..i + 1]) == Lookup(v, rest[..i]);
    }
    if CutsOff(b, path) {
      var i :| 0 <= i < |path| && Lookup(b, path[..i]).Some? && !Lookup(b, path[..i]).value.Obj?;
      assert i != 0;
      assert Lookup(b, path[..(i - 1) + 1]) == Lookup(v, rest[..i - 1]);
    }
  }

  /** Both sides hold an object here. */
  predicate BothObjects(a: Option<Json>, b: Option<Json>) {
    a.Some? && b.Some? && a.value.Obj? && b.value.Obj?
  }

  /** The path-wise law: where both sides hold an object the result is an object with the keys of both;
      elsewhere the patch's value replaces whatever was there; the patch cuts off what lies below its
      leaves; and everything else is left alone. */
  lemma {:induction false} MergeLookup(a: Json, b: Json, path: seq<Step>)
    requires a.Obj? && b.Obj? && KeysOnly(path)
    ensures
      var old', new', r := Lookup(a, path), Lookup(b, path), Lookup(Merge(a, b), path);
      if BothObjects(old', new') then
        r.Some? && r.value.Obj? && r.value.fields.Keys == old'.value.fields.Keys + new'.value.fields.Keys
      else
        r == if new'.Some? then new' else if CutsOff(b, path) then None else old'
    decreases |path|
  {
    if path != [] {
      var k, rest := path[0].k, path[1..];
      if k in b.fields {
        CutsOffBelow(b, path);
        if k in a.fields && a.fields[k].Obj? && b.fields[k].Obj? {
          MergeLookup(a.fields[k], b.fields[k], rest);
        } else {
          ReplacedBelow(b.fields[k], rest);
        }
      } else {
      }
    }
  }

  lemma ReplacedBelow(v: Json, path: seq<Step>)
    ensures !v.Obj? && path != [] ==> CutsOff(v, path)
  {
    if path != [] { assert path[..0] == []; }
  }

  lemma {:induction false} MergeWithSelf(v: Json)
    ensures Merge(v, v) == v
    decreases v
  {
    if v.Obj? {
      forall k | k in v.fields ensures Merge(v.fields[k], v.fields[k]) == v.fields[k] {
        MergeWithSelf(v.fields[k]);
      }
      assert Merge(v, v).fields == v.fields;
    }
  }

  /** Applying a patch again changes nothing. */
  lemma {:induction false} MergeIdempotent(a: Json, b: Json)
    ensures Merge(Merge(a, b), b) == Merge(a, b)
    decreases b
  {
    if a.Obj? && b.Obj? {
      var m := Merge(a, b);
      forall k | k in b.fields ensures Merge(m.fields[k], b.fields[k]) == m.fields[k] {
        if k in a.fields {
          MergeIdempotent(a.fields[k], b.fields[k]);
        } else {
          MergeWithSelf(b.fields[k]);
        }
      }
      assert Merge(m, b).fields == m.fields;
    } else {
      MergeWithSelf(b);
    }
  }

  // ----- the credential filter -----

  const RPC_PASSWORD := "bitcoin.rpcPassword"
  const LOCAL_ONLY := "local-regtest-only"

  function StripLeft(s: string): string {
    if s != "" && s[0] == '.' then StripLeft(s[1..]) else s
  }

  function StripRight(s: string): string {
    if s != "" && s[|s| - 1] == '.' then StripRight(s[..|s| - 1]) else s
  }

  function Dotted(path: string, key: string): string {
    StripRight(StripLeft(path + "." + key))
  }

  predicate Truthy(v: Json) {
    match v
    case Null => false
    case Bool(b) => b
    case Num(n) => n != 0.0
    case Str(s) => s != ""
    case Arr(items) => items != []
    case Obj(fields) => fields != map[]
  }

  /** One key with its value; `secret` is the name test of the source's regular expression. */
  predicate Harmless(secret: string -> bool, key: string, at: string, v: Json) {
    secret(key) && Truthy(v) ==> at == RPC_PASSWORD && v == Str(LOCAL_ONLY)
  }

  /** `reject_secrets` returns without raising. */
  predicate SecretFree(secret: string -> bool, v: Json, path: string)
    decreases v
  {
    match v
    case Obj(fields) =>
      forall k :: k in fields ==>
        Harmless(secret, k, Dotted(path, k), fields[k]) && SecretFree(secret, fields[k], Dotted(path, k))
    case Arr(items) => forall i :: 0 <= i < |items| ==> SecretFree(secret, items[i], path)
    case _ => true
  }

  /** The dotted name of a path; list positions do not appear in it. */
  function Name(path: string, steps: seq<Step>): string
    decreases |steps|
  {
    if steps == [] then path
    else Name(if steps[0].Key? then Dotted(path, steps[0].k) else path, steps[1..])
  }

  /** The value at the end of a path is no credential: its key is not suspicious, or it is empty, or it is
      the one password that is allowed in its one place. */
  ghost predicate HarmlessAt(secret: string -> bool, v: Json, path: string, steps: seq<Step>) {
    steps != [] && steps[|steps| - 1].Key? && Lookup(v, steps).Some? && secret(steps[|steps| - 1].k) ==>
      || Lookup(v, steps).value in {Null, Bool(false), Num(0.0), Str(""), Arr([]), Obj(map[])}
      || (Name(path, steps) == "bitcoin.rpcPassword" && Lookup(v, steps).value == Str("local-regtest-only"))
  }

  /** Joining a path and a key puts a dot between them, and strips the dots around the whole. */
  lemma DottedStrips(path: string, key: string) returns (i: nat, j: nat)
    ensures
      var s := path + "." + key;
      && i <= j <= |s| && Dotted(path, key) == s[i..j]
      && (forall k :: 0 <= k < i || j <= k < |s| ==> s[k] == '.')
      && (i < j ==> s[i] != '.' && s[j - 1] != '.')
  {
    var s := path + "." + key;
    i := LeftStrips(s);
    var n := RightStrips(s[i..]);
    j := i + n;
    assert s[i..][..n] == s[i..j];
    forall k | j <= k < |s| ensures s[k] == '.' { assert s[i..][k - i] == s[k]; }
  }

  lemma {:induction false} LeftStrips(s: string) returns (i: nat)
    ensures i <= |s| && StripLeft(s) == s[i..] && forall k :: 0 <= k < i ==> s[k] == '.'
    ensures i < |s| ==> s[i] != '.'
  {
    i := 0;
    if s != "" && s[0] == '.' {
      var n := LeftStrips(s[1..]);
      assert forall k :: 0 < k < n + 1 ==> s[k] == s[1..][k - 1];
      i := n + 1;
    }
  }

  lemma {:induction false} RightStrips(s: string) returns (j: nat)
    ensures j <= |s| && StripRight(s) == s[..j] && forall k :: j <= k < |s| ==> s[k] == '.'
    ensures j > 0 ==> s[j - 1] != '.'
  {
    j := |s|;
    if s != "" && s[|s| - 1] == '.' {
      j := RightStrips(s[..|s| - 1]);
      assert s[..|s| - 1][..j] == s[..j];
    }
  }

  lemma OneKey(v: Json, path: string, k: string)
    requires v.Obj? && k in v.fields
    ensures Lookup(v, [Key(k)]) == Some(v.fields[k]) && Name(path, [Key(k)]) == Dotted(path, k)
  {
    assert [Key(k)][1..] == [];
  }

  lemma {:induction false} FilteredEverywhere(secret: string -> bool, v: Json, path: string, steps: seq<Step>)
    requires SecretFree(secret, v, path)
    ensures HarmlessAt(secret, v, path, steps)
    decreases |steps|
  {
    if steps != [] && Lookup(v, steps).Some? {
      var rest := steps[1..];
      match steps[0]
      case Key(k) =>
        assert rest == [] ==> steps == [Key(k)];
        if rest != [] {
          FilteredEverywhere(secret, v.fields[k], Dotted(path, k), rest);
        } else {
          OneKey(v, path, k);
        }
      case Index(i) =>
        if rest != [] { FilteredEverywhere(secret, v.items[i], path, rest); }
    }
  }

  lemma {:induction false} HarmlessEverywhere(secret: string -> bool, v: Json, path: string)
    requires forall steps :: HarmlessAt(secret, v, path, steps)
    ensures SecretFree(secret, v, path)
    decreases v
  {
    match v
    case Obj(fields) =>
      forall k | k in fields
        ensures Harmless(secret, k, Dotted(path, k), fields[k]) && SecretFree(secret, fields[k], Dotted(path, k))
      {
        OneKey(v, path, k);
        assert HarmlessAt(secret, v, path, [Key(k)]);
        forall steps ensures HarmlessAt(secret, fields[k], Dotted(path, k), steps) {
          assert HarmlessAt(secret, v, path, [Key(k)] + steps);
          assert ([Key(k)] + steps)[1..] == steps;
        }
        HarmlessEverywhere(secret, fields[k], Dotted(path, k));
      }
    case Arr(items) =>
      forall i | 0 <= i < |items| ensures SecretFree(secret, items[i], path) {
        forall steps ensures HarmlessAt(secret, items[i], path, steps) {
          assert HarmlessAt(secret, v, path, [Index(i)] + steps);
          assert ([Index(i)] + steps)[1..] == steps;
        }
        HarmlessEverywhere(secret, items[i], path);
      }
    case _ =>
  }

  /** The recursive filter passes exactly when no path, through objects and lists alike, ends in a
      credential. */
  lemma FilterIsExact(secret: string -> bool, v: Json)
    ensures SecretFree(secret, v, "") <==> forall steps :: HarmlessAt(secret, v, "", steps)
  {
    if SecretFree(secret, v, "") {
      forall steps ensures HarmlessAt(secret, v, "", steps) { FilteredEverywhere(secret, v, "", steps); }
    }
    if forall steps :: HarmlessAt(secret, v, "", steps) { HarmlessEverywhere(secret, v, ""); }
  }

  /** Merging two values that pass the filter gives one that passes it. */
  lemma {:induction false} MergeKeepsSecretFree(secret: string -> bool, a: Json, b: Json, path: string)
    requires SecretFree(secret, a, path) && SecretFree(secret, b, path)
    ensures SecretFree(secret, Merge(a, b), path)
    decreases b
  {
    if a.Obj? && b.Obj? {
      var m := Merge(a, b);
      forall k | k in m.fields
        ensures Harmless(secret, k, Dotted(path, k), m.fields[k]) && SecretFree(secret, m.fields[k], Dotted(path, k))
      {
        if k in a.fields && k in b.fields {
          MergeKeepsSecretFree(secret, a.fields[k], b.fields[k], Dotted(path, k));
        }
      }
    }
  }

  // ----- editing the exported release -----

  predicate Substring(needle: string, s: string) {
    |needle| <= |s| && (s[..|needle|] == needle || (s != "" && Substring(needle, s[1..])))
  }

  /** Python's `in` applied to whatever the patch holds under `lnd`; None is a TypeError. */
  function Contains(v: Json, key: string): Option<bool> {
    match v
    case Obj(fields) => Some(key in fields)
    case Arr(items) => Some(Str(key) in items)
    case Str(s) => Some(Substring(key, s))
    case _ => None
  }

  /** The guard on what a patch may touch passes without raising. */
  predicate Allowed(patch: Fields) {
    && "profile" !in patch && "bitcoin" !in patch
    && ("lnd" in patch ==>
          Contains(patch["lnd"], "nodes") == Some(false) && Contains(patch["lnd"], "storage") == Some(false))
  }

  ghost predicate Occurs(needle: string, s: string) {
    exists i {:trigger s[i..]} :: 0 <= i <= |s| - |needle| && s[i..][..|needle|] == needle
  }

  lemma {:induction false} SubstringIsOccurrence(needle: string, s: string)
    ensures Substring(needle, s) <==> Occurs(needle, s)
  {
    if |needle| <= |s| {
      assert s[0..] == s;
      if s[..|needle|] != needle && s != "" {
        var n := |needle|;
        SubstringIsOccurrence(needle, s[1..]);
        if Occurs(needle, s[1..]) {
          var i :| 0 <= i <= |s[1..]| - n && s[1..][i..][..n] == needle;
          assert s[i + 1..] == s[1..][i..];
        }
        if Occurs(needle, s) {
          var i :| 0 <= i <= |s| - n && s[i..][..n] == needle;
          assert i > 0 && s[1..][i - 1..] == s[i..];
        }
      }
    }
  }

  /** What a patch may put under `lnd` names neither the nodes nor the storage. */
  ghost predicate LeavesLndAlone(v: Json) {
    match v
    case Obj(fields) => "nodes" !in fields && "storage" !in fields
    case Arr(items) => Str("nodes") !in items && Str("storage") !in items
    case Str(s) => !Occurs("nodes", s) && !Occurs("storage", s)
    case _ => false
  }

  /** Exactly which patches are written. */
  lemma AcceptedIsExact(secret: string -> bool, patch: Json)
    ensures Accepted(secret, patch) <==>
              && patch.Obj? && |patch.fields| > 0
              && (forall steps :: HarmlessAt(secret, patch, "", steps))
              && "profile" !in patch.fields && "bitcoin" !in patch.fields
              && ("lnd" in patch.fields ==> LeavesLndAlone(patch.fields["lnd"]))
  {
    FilterIsExact(secret, patch);
    if patch.Obj? && "lnd" in patch.fields && patch.fields["lnd"].Str? {
      SubstringIsOccurrence("nodes", patch.fields["lnd"].s);
      SubstringIsOccurrence("storage", patch.fields["lnd"].s);
    }
  }

  predicate Accepted(secret: string -> bool, patch: Json) {
    patch.Obj? && patch.fields != map[] && SecretFree(secret, patch, "") && Allowed(patch.fields)
  }

  function Edited(secret: string -> bool, values: Fields, patch: Json): Fields {
    if Accepted(secret, patch) then Merge(Obj(values), patch).fields else values
  }

  /** The exported HelmRelease file. */
  class Release {
    var values: Fields

    /** A refused patch leaves the file as it was. */
    method EditValues(secret: string -> bool, patch: Json) returns (written: bool)
      modifies this
      ensures written <==> Accepted(secret, patch)
      ensures values == Edited(secret, old(values), patch)
    {
      written := Accepted(secret, patch);
      if written { values := MergeInto(values, patch.fields); }
    }
  }

  ghost predicate SameAt(values: Fields, next: Fields, path: seq<Step>) {
    Lookup(Obj(next), path) == Lookup(Obj(values), path)
  }

  ghost predicate ProtectedKept(values: Fields, next: Fields) {
    && SameAt(values, next, [Key("profile")]) && SameAt(values, next, [Key("bitcoin")])
    && SameAt(values, next, [Key("lnd"), Key("nodes")]) && SameAt(values, next, [Key("lnd"), Key("storage")])
  }

  predicate LndIsObject(patch: Fields) {
    "lnd" in patch ==> patch["lnd"].Obj?
  }

  predicate HasProtectedLnd(values: Fields) {
    "lnd" in values && values["lnd"].Obj? && ("nodes" in values["lnd"].fields || "storage" in values["lnd"].fields)
  }

  lemma TopLevel(v: Fields, key: string)
    ensures Lookup(Obj(v), [Key(key)]) == At(v, key)
  {
    assert [Key(key)][1..] == [];
  }

  lemma SecondLevel(v: Fields, key: string, sub: string)
    ensures Lookup(Obj(v), [Key(key), Key(sub)]) ==
            if key in v && v[key].Obj? then At(v[key].fields, sub) else None
  {
    assert [Key(key), Key(sub)][1..] == [Key(sub)];
    if key in v && v[key].Obj? { TopLevel(v[key].fields, sub); }
  }

  /** What an accepted patch does to a subkey of `lnd` that it does not name. */
  lemma LndAfterMerge(values: Fields, patch: Fields, sub: string)
    requires Allowed(patch) && sub in {"nodes", "storage"}
    ensures SameAt(values, Merge(Obj(values), Obj(patch)).fields, [Key("lnd"), Key(sub)])
            <==> LndIsObject(patch) || !("lnd" in values && values["lnd"].Obj? && sub in values["lnd"].fields)
  {
    var next := Merge(Obj(values), Obj(patch)).fields;
    SecondLevel(values, "lnd", sub);
    SecondLevel(next, "lnd", sub);
  }

  /** An accepted patch keeps profile, bitcoin, lnd.nodes and lnd.storage exactly when its `lnd`
      is absent or an object, or there were no such lnd settings to lose. */
  lemma EditKeepsProtected(secret: string -> bool, values: Fields, patch: Json)
    requires Accepted(secret, patch)
    ensures ProtectedKept(values, Edited(secret, values, patch))
            <==> LndIsObject(patch.fields) || !HasProtectedLnd(values)
  {
    var next := Edited(secret, values, patch);
    TopLevel(values, "profile");
    TopLevel(next, "profile");
    TopLevel(values, "bitcoin");
    TopLevel(next, "bitcoin");
    LndAfterMerge(values, patch.fields, "nodes");
    LndAfterMerge(values, patch.fields, "storage");
  }

  /** A patch whose `lnd` is a list passes the guard and wipes the node count. */
  lemma ListPatchDropsNodes(secret: string -> bool)
    requires !secret("lnd")
    ensures
      var values, patch := map["lnd" := Obj(map["nodes" := Num(3.0)])], Obj(map["lnd" := Arr([])]);
      Accepted(secret, patch) && !ProtectedKept(values, Edited(secret, values, patch))
  {
    var values, patch := map["lnd" := Obj(map["nodes" := Num(3.0)])], Obj(map["lnd" := Arr([])]);
    assert SecretFree(secret, Arr([]), Dotted("", "lnd"));
    assert "lnd" in patch.fields && "nodes" in values["lnd"].fields;
    EditKeepsProtected(secret, values, patch);
  }

  function EditAll(secret: string -> bool, values: Fields, patches: seq<Json>): Fields {
    if patches == [] then values
    else Edited(secret, EditAll(secret, values, patches[..|patches| - 1]), patches[|patches| - 1])
  }

  /** Any run of edits, refused ones included, keeps an exported file free of credentials, and keeps
      the protected settings when no patch replaces `lnd` by something that is not an object. */
  lemma {:induction false} EditsKeepFile(secret: string -> bool, values: Fields, patches: seq<Json>)
    requires SecretFree(secret, Obj(values), "")
    ensures SecretFree(secret, Obj(EditAll(secret, values, patches)), "")
    ensures (forall p :: p in patches && p.Obj? ==> LndIsObject(p.fields)) ==>
              ProtectedKept(values, EditAll(secret, values, patches))
  {
    if patches != [] {
      var n := |patches| - 1;
      var before := EditAll(secret, values, patches[..n]);
      EditsKeepFile(secret, values, patches[..n]);
      if Accepted(secret, patches[n]) {
        MergeKeepsSecretFree(secret, Obj(before), patches[n], "");
        EditKeepsProtected(secret, before, patches[n]);
      }
    }
  }
}
