/** Which secrets a schedule names: a walk over JSON trees, and the two lists made from it. */
module SecretRefs {
  import opened Options
  import opened Text

  datatype Json =
    | Null
    | Bool(b: bool)
    | Number(n: real)
    | Str(s: string)
    | Arr(items: seq<Json>)
    | Obj(fields: map<string, Json>)

  // ----- what it means to be named -----

  datatype Hop = Key(k: string) | Index(i: nat)

  /** The value at the end of a path. */
  function At(v: Json, path: seq<Hop>): Option<Json>
    decreases |path|
  {
    if path == [] then Some(v)
    else
      match (v, path[0])
      case (Obj(fs), Key(k)) => if k in fs then At(fs[k], path[1..]) else None
      case (Arr(xs), Index(i)) => if i < |xs| then At(xs[i], path[1..]) else None
      case _ => None
  }

  ghost predicate NamedAt(v: Json, s: string, path: seq<Hop>) {
    At(v, path + [Key("secret")]) == Some(Str(s))
  }

  /** A non-empty string under a `secret` key, at any depth. */
  ghost predicate Names(v: Json, s: string) {
    s != "" && exists path :: NamedAt(v, s, path)
  }

  // ----- the walk -----

  function Own(fs: map<string, Json>): set<string> {
    if "secret" in fs && fs["secret"].Str? && fs["secret"].s != "" then {fs["secret"].s} else {}
  }

  function Refs(v: Json): set<string> {
    match v
    case Obj(fs) => Own(fs) + set k, s | k in fs && s in Refs(fs[k]) :: s
    case Arr(xs) => set i, s | 0 <= i < |xs| && s in Refs(xs[i]) :: s
    case _ => {}
  }

  lemma FieldRefs(fs: map<string, Json>, s: string)
    ensures s in Refs(Obj(fs)) <==> s in Own(fs) || exists k :: k in fs && s in Refs(fs[k])
  {
  }

  lemma ItemRefs(xs: seq<Json>, s: string)
    ensures s in Refs(Arr(xs)) <==> exists i :: 0 <= i < |xs| && s in Refs(xs[i])
  {
  }

  /** walkSecretRefs: fields in whatever order the map gives them. */
  method Walk(v: Json, seen: set<string>) returns (out: set<string>)
    ensures out == seen + Refs(v)
    decreases v
  {
    out := seen;
    match v
    case Obj(fs) =>
      if "secret" in fs && fs["secret"].Str? && fs["secret"].s != "" {
        out := out + {fs["secret"].s};
      }
      var left := fs.Keys;
      while left != {}
        invariant left <= fs.Keys
        invariant forall s :: s in out <==>
                    s in seen || s in Own(fs) || exists k :: k in fs && k !in left && s in Refs(fs[k])
        decreases |left|
      {
        var k :| k in left;
        out := Walk(fs[k], out);
        left := left - {k};
      }
      forall s ensures s in Refs(v) <==> s in Own(fs) || exists k :: k in fs && s in Refs(fs[k]) { FieldRefs(fs, s); }
    case Arr(xs) =>
      for n := 0 to |xs|
        invariant forall s :: s in out <==> s in seen || exists i :: 0 <= i < n && s in Refs(xs[i])
      {
        out := Walk(xs[n], out);
      }
      forall s ensures s in Refs(v) <==> exists i :: 0 <= i < |xs| && s in Refs(xs[i]) { ItemRefs(xs, s); }
    case _ =>
      assert Refs(v) == {};
  }

  lemma {:induction false} RefIsNamed(v: Json, s: string)
    requires s in Refs(v)
    ensures Names(v, s)
    decreases v
  {
    match v
    case Obj(fs) =>
      if s in Own(fs) {
        assert [] + [Key("secret")] == [Key("secret")];
        assert At(v, [Key("secret")]) == At(fs["secret"], []);
        assert NamedAt(v, s, []);
      } else {
        var k :| k in fs && s in Refs(fs[k]);
        RefIsNamed(fs[k], s);
        var path :| NamedAt(fs[k], s, path);
        Descend(v, Key(k), fs[k], path, s);
      }
    case Arr(xs) =>
      var i: nat :| i < |xs| && s in Refs(xs[i]);
      RefIsNamed(xs[i], s);
      var path :| NamedAt(xs[i], s, path);
      Descend(v, Index(i), xs[i], path, s);
  }

  lemma Descend(v: Json, hop: Hop, child: Json, path: seq<Hop>, s: string)
    requires At(v, [hop]) == Some(child)
    ensures NamedAt(v, s, [hop] + path) <==> NamedAt(child, s, path)
  {
    var whole := [hop] + path + [Key("secret")];
    assert whole[0] == hop && whole[1..] == path + [Key("secret")];
    assert [hop][1..] == [];
  }

  lemma {:induction false} NamedIsRef(v: Json, s: string, path: seq<Hop>)
    requires s != "" && NamedAt(v, s, path)
    ensures s in Refs(v)
    decreases |path|
  {
    if path == [] {
      assert path + [Key("secret")] == [Key("secret")];
      assert v.Obj? && "secret" in v.fields;
      assert At(v, [Key("secret")]) == At(v.fields["secret"], []);
      assert s in Own(v.fields);
    } else {
      var hop, rest := path[0], path[1..];
      assert (path + [Key("secret")])[0] == hop && path == [hop] + rest;
      assert [hop][1..] == [];
      assert v.Obj? || v.Arr?;
      var child := if v.Obj? then v.fields[hop.k] else v.items[hop.i];
      Descend(v, hop, child, rest, s);
      NamedIsRef(child, s, rest);
    }
  }

  /** The walk collects exactly the names. */
  lemma RefsAreTheNames(v: Json, s: string)
    ensures s in Refs(v) <==> Names(v, s)
  {
    if s in Refs(v) { RefIsNamed(v, s); }
    if Names(v, s) {
      var path :| NamedAt(v, s, path);
      NamedIsRef(v, s, path);
    }
  }

  // ----- CollectSecretRefs -----

  /** A raw column: None where it is empty or does not parse. */
  function Scanned(raw: Option<Json>): set<string> {
    if raw.None? then {} else Refs(raw.value)
  }

  function ScannedAll(raws: seq<Option<Json>>): set<string> {
    set i, s | 0 <= i < |raws| && s in Scanned(raws[i]) :: s
  }

  function LlmRef(r: Option<string>): set<string> {
    if r.Some? && r.value != "" then {r.value} else {}
  }

  function Collected(dests: Option<Json>, env: Option<Json>, llm: Option<string>,
                     extra: seq<Option<Json>>): set<string> {
    Scanned(dests) + Scanned(env) + ScannedAll(extra) + LlmRef(llm)
  }

  method Scan(raw: Option<Json>, seen: set<string>) returns (out: set<string>)
    ensures out == seen + Scanned(raw)
  {
    if raw.None? { return seen; }
    out := Walk(raw.value, seen);
  }

  lemma ScannedMore(raws: seq<Option<Json>>, n: nat)
    requires n < |raws|
    ensures ScannedAll(raws[..n + 1]) == ScannedAll(raws[..n]) + Scanned(raws[n])
  {
    var more := raws[..n + 1];
    assert more[n] == raws[n] && forall i :: 0 <= i < n ==> more[i] == raws[..n][i];
  }

  method ScanAll(raws: seq<Option<Json>>, seen: set<string>) returns (out: set<string>)
    ensures out == seen + ScannedAll(raws)
  {
    out := seen;
    for n := 0 to |raws|
      invariant out == seen + ScannedAll(raws[..n])
    {
      ScannedMore(raws, n);
      out := Scan(raws[n], out);
    }
    assert raws[..|raws|] == raws;
  }

  /** Sorted, each name once; ListingIsUnique makes this one list, whatever the orders of the walks. */
  method CollectSecretRefs(dests: Option<Json>, env: Option<Json>, llm: Option<string>,
                           extra: seq<Option<Json>>) returns (names: seq<string>)
    ensures Lists(names, Collected(dests, env, llm, extra))
  {
    var seen := Scan(dests, {});
    seen := Scan(env, seen);
    seen := ScanAll(extra, seen);
    if llm.Some? && llm.value != "" {
      seen := seen + {llm.value};
    }
    assert seen == Collected(dests, env, llm, extra);
    names := ListNames(seen);
  }

  // ----- token scope and manifest -----

  /** The columns of a schedule row that name secrets. */
  datatype Columns = Columns(dests: Option<Json>, env: Option<Json>, llm: Option<string>, mcpEnv: Option<Json>)

  ghost predicate IsScope(names: seq<string>, c: Columns) {
    Lists(names, Collected(c.dests, c.env, c.llm, []))
  }

  ghost predicate IsManifest(names: seq<string>, c: Columns) {
    Lists(names, Collected(c.dests, c.env, c.llm, [c.mcpEnv]))
  }

  /** Named in a column that the token's scope is computed from. */
  ghost predicate NamedElsewhere(c: Columns, s: string) {
    || (c.dests.Some? && Names(c.dests.value, s))
    || (c.env.Some? && Names(c.env.value, s))
    || (c.llm == Some(s) && s != "")
  }

  lemma ElsewhereIsScope(c: Columns, s: string)
    ensures NamedElsewhere(c, s) <==> s in Collected(c.dests, c.env, c.llm, [])
  {
    if c.dests.Some? { RefsAreTheNames(c.dests.value, s); }
    if c.env.Some? { RefsAreTheNames(c.env.value, s); }
  }

  /**
   * The run is told of exactly the secrets its token may read, as lists, if and only if
   * `mcp_env` names no secret that the other columns do not.
   */
  lemma ManifestIsScopeIff(c: Columns, scope: seq<string>, manifest: seq<string>)
    requires IsScope(scope, c) && IsManifest(manifest, c)
    ensures manifest == scope <==> forall s :: c.mcpEnv.Some? && Names(c.mcpEnv.value, s) ==> NamedElsewhere(c, s)
    ensures forall s :: s in scope ==> s in manifest
  {
    var inner, outer := Collected(c.dests, c.env, c.llm, []), Collected(c.dests, c.env, c.llm, [c.mcpEnv]);
    assert ScannedAll([]) == {};
    assert ScannedAll([c.mcpEnv]) == Scanned(c.mcpEnv) by { assert [c.mcpEnv][0] == c.mcpEnv; }
    forall s ensures s in Scanned(c.mcpEnv) <==> c.mcpEnv.Some? && Names(c.mcpEnv.value, s) {
      if c.mcpEnv.Some? { RefsAreTheNames(c.mcpEnv.value, s); }
    }
    forall s ensures NamedElsewhere(c, s) <==> s in inner { ElsewhereIsScope(c, s); }
    if forall s :: c.mcpEnv.Some? && Names(c.mcpEnv.value, s) ==> NamedElsewhere(c, s) {
      assert inner == outer;
      ListingIsUnique(scope, manifest, inner);
    }
    if manifest == scope {
      assert forall s :: s in outer <==> s in inner;
    }
  }
}
