/**
 * Appending a schedule to a manifest, on the node tree: one list of one skill grows by one
 * normalised mapping and nothing else changes.
 */
module YamlEdit {
  import opened Options
  import opened Text

  datatype Kind = DocumentNode | MappingNode | SequenceNode | ScalarNode | AliasNode

  datatype Node = Node(kind: Kind, tag: string, value: string, content: seq<Node>)

  datatype Pair = Pair(key: string, val: Node)

  datatype Error =
    | NilSchedule | EmptySkillPath | ParseError | EmptyManifest | RootIsNoMapping
    | SkillsIsNoSequence | NoSkillsKey | SkillNotFound | DuplicateScheduleName | MarshalError

  datatype Result<T> = Ok(value: T) | Err(error: Error)

  /** A schedule: its name, and the document its marshalled form parses to. */
  datatype Schedule = Schedule(name: string, marshalled: Option<Node>)

  /** The key/value pairs of a mapping's content; an odd last node is not seen. */
  function PairsOf(c: seq<Node>): (ps: seq<Pair>)
    ensures |ps| == |c| / 2
  {
    seq(|c| / 2, p requires 0 <= p < |c| / 2 => Pair(c[2 * p].value, c[2 * p + 1]))
  }

  function KeyNode(name: string): Node { Node(ScalarNode, "!!str", name, []) }

  function Flatten(ps: seq<Pair>): seq<Node> {
    if ps == [] then [] else Flatten(ps[..|ps| - 1]) + [KeyNode(ps[|ps| - 1].key), ps[|ps| - 1].val]
  }

  lemma {:induction false} PairsOfFlatten(ps: seq<Pair>)
    ensures |Flatten(ps)| == 2 * |ps| && PairsOf(Flatten(ps)) == ps
    decreases |ps|
  {
    if ps != [] {
      var n := |ps| - 1;
      PairsOfFlatten(ps[..n]);
      var c, front := Flatten(ps), Flatten(ps[..n]);
      forall p | 0 <= p < |ps| ensures PairsOf(c)[p] == ps[p] {
        if p < n {
          assert PairsOf(front)[p] == ps[..n][p];
          assert c[2 * p] == front[2 * p] && c[2 * p + 1] == front[2 * p + 1];
        }
      }
    }
  }

  // ----- normalising: isEmptyScalar and reorderAndFilter -----

  function Canonical(): seq<string> {
    ["name", "cron", "timezone", "provider", "copilot_prefix", "model",
     "max_turns", "overlap_policy", "timeout_sec", "destinations", "writeback",
     "env", "mcp_env", "auto_pause"]
  }

  predicate IsEmpty(n: Node) {
    match n.kind
    case ScalarNode =>
      || n.tag == "!!null"
      || (n.tag == "!!str" && n.value == "")
      || (n.tag == "!!int" && n.value == "0")
      || (n.tag == "!!bool" && n.value == "false")
      || (n.tag == "!!float" && (n.value == "0" || n.value == "0.0"))
      || (n.tag == "" && n.value == "")
    case MappingNode => n.content == []
    case SequenceNode => n.content == []
    case _ => false
  }

  /** The pairs indexed by key; a repeated key keeps its last value. */
  function Last(ps: seq<Pair>): map<string, Node> {
    if ps == [] then map[] else Last(ps[..|ps| - 1])[ps[|ps| - 1].key := ps[|ps| - 1].val]
  }

  function Extras(ps: seq<Pair>): seq<string> {
    if ps == [] then []
    else
      var front, k := Extras(ps[..|ps| - 1]), ps[|ps| - 1].key;
      if k in Canonical() then front else front + [k]
  }

  /** The named pairs that are there and not empty, in the order of the names. */
  function Chosen(names: seq<string>, pairs: map<string, Node>): seq<Pair> {
    if names == [] then []
    else
      var front, k := Chosen(names[..|names| - 1], pairs), names[|names| - 1];
      if k in pairs && !IsEmpty(pairs[k]) then front + [Pair(k, pairs[k])] else front
  }

  /** `extras` is the sorted list of the keys of `ps` outside the canonical ones. */
  ghost predicate SortedExtras(ps: seq<Pair>, extras: seq<string>) {
    Ordered(extras) && multiset(extras) == multiset(Extras(ps))
  }

  ghost predicate Rebuilt(m: Node, r: Node) {
    if m.kind != MappingNode then r == m
    else exists extras ::
      SortedExtras(PairsOf(m.content), extras)
      && r == m.(content := Flatten(Chosen(Canonical() + extras, Last(PairsOf(m.content)))))
  }

  /** The first loop: pairs by key, and the keys outside the canonical ones. */
  method IndexPairs(c: seq<Node>) returns (pairs: map<string, Node>, extras: seq<string>)
    ensures pairs == Last(PairsOf(c)) && extras == Extras(PairsOf(c))
  {
    ghost var ps := PairsOf(c);
    pairs, extras := map[], [];
    var i := 0;
    while i < |c| - 1
      invariant 0 <= i <= |c| && i % 2 == 0
      invariant pairs == Last(ps[..i / 2]) && extras == Extras(ps[..i / 2])
    {
      var k, v := c[i], c[i + 1];
      assert ps[i / 2] == Pair(k.value, v);
      assert ps[..i / 2 + 1][..i / 2] == ps[..i / 2];
      pairs := pairs[k.value := v];
      if k.value !in Canonical() {
        extras := extras + [k.value];
      }
      i := i + 2;
    }
    assert ps[..i / 2] == ps;
  }

  /** What encoding/json would call a zero value. */
  method IsEmptyScalar(n: Node) returns (empty: bool)
    ensures empty == IsEmpty(n)
  {
    if n.kind == ScalarNode {
      if n.tag == "!!null" { return true; }
      if n.tag == "!!str" { return n.value == ""; }
      if n.tag == "!!int" { return n.value == "0"; }
      if n.tag == "!!bool" { return n.value == "false"; }
      if n.tag == "!!float" { return n.value == "0" || n.value == "0.0"; }
      return n.tag == "" && n.value == "";
    }
    return (n.kind == MappingNode || n.kind == SequenceNode) && |n.content| == 0;
  }

  /** The two emitting loops, one list of names after the other. */
  method Emit(names: seq<string>, pairs: map<string, Node>) returns (out: seq<Node>)
    ensures out == Flatten(Chosen(names, pairs))
  {
    out := [];
    for j := 0 to |names|
      invariant out == Flatten(Chosen(names[..j], pairs))
    {
      var k := names[j];
      EmittedNext(names, j, pairs);
      if k in pairs {
        var empty := IsEmptyScalar(pairs[k]);
        if !empty {
          out := out + [Node(ScalarNode, "!!str", k, []), pairs[k]];
        }
      }
    }
    assert names[..|names|] == names;
  }

  lemma EmittedNext(names: seq<string>, j: nat, pairs: map<string, Node>)
    requires j < |names|
    ensures var k, so := names[j], Flatten(Chosen(names[..j], pairs));
            Flatten(Chosen(names[..j + 1], pairs))
            == if k in pairs && !IsEmpty(pairs[k]) then so + [KeyNode(k), pairs[k]] else so
  {
    var k := names[j];
    assert names[..j + 1][..j] == names[..j];
    if k in pairs && !IsEmpty(pairs[k]) { FlattenGrows(Chosen(names[..j], pairs), Pair(k, pairs[k])); }
  }

  lemma FlattenGrows(ps: seq<Pair>, x: Pair)
    ensures Flatten(ps + [x]) == Flatten(ps) + [KeyNode(x.key), x.val]
  {
    assert (ps + [x])[..|ps|] == ps;
  }

  method ReorderAndFilter(m: Node) returns (r: Node)
    ensures Rebuilt(m, r)
  {
    if m.kind != MappingNode { return m; }
    var pairs, extras := IndexPairs(m.content);
    var sorted := new string[|extras|](j requires 0 <= j < |extras| => extras[j]);
    assert sorted[..] == extras;
    SortStrings(sorted);
    var canonical := ["name", "cron", "timezone", "provider", "copilot_prefix", "model",
                      "max_turns", "overlap_policy", "timeout_sec", "destinations", "writeback",
                      "env", "mcp_env", "auto_pause"];
    var out := Emit(canonical + sorted[..], pairs);
    assert SortedExtras(PairsOf(m.content), sorted[..]);
    r := m.(content := out);
  }

  // ----- what normalising keeps -----

  lemma {:induction false} LastIsThere(ps: seq<Pair>, k: string)
    ensures k in Last(ps) <==> exists p :: 0 <= p < |ps| && ps[p].key == k
    ensures k in Last(ps) ==> Pair(k, Last(ps)[k]) in ps
    decreases |ps|
  {
    if ps != [] {
      var n := |ps| - 1;
      LastIsThere(ps[..n], k);
      if k in Last(ps[..n]) {
        var p :| 0 <= p < n && ps[..n][p].key == k;
        assert ps[p].key == k;
      }
      if p :| 0 <= p < n && ps[p].key == k { assert ps[..n][p].key == k; }
    }
  }

  ghost predicate DistinctKeys(ps: seq<Pair>) {
    forall i, j :: 0 <= i < j < |ps| ==> ps[i].key != ps[j].key
  }

  lemma LastOfDistinct(ps: seq<Pair>, x: Pair)
    requires DistinctKeys(ps)
    ensures x in ps <==> x.key in Last(ps) && Last(ps)[x.key] == x.val
  {
    LastIsThere(ps, x.key);
    if x in ps {
      var p :| 0 <= p < |ps| && ps[p] == x;
      assert ps[p].key == x.key;
      var q :| 0 <= q < |ps| && ps[q] == Pair(x.key, Last(ps)[x.key]);
      assert p == q;
    }
  }

  lemma {:induction false} ExtrasAre(ps: seq<Pair>, k: string)
    ensures k in Extras(ps) <==> k !in Canonical() && exists p :: 0 <= p < |ps| && ps[p].key == k
    decreases |ps|
  {
    if ps != [] {
      var n := |ps| - 1;
      ExtrasAre(ps[..n], k);
      if k in Extras(ps[..n]) {
        var p :| 0 <= p < n && ps[..n][p].key == k;
        assert ps[p].key == k;
      }
      if p :| 0 <= p < n && ps[p].key == k { assert ps[..n][p].key == k; }
    }
  }

  lemma SameNames(ps: seq<Pair>, extras: seq<string>, k: string)
    requires SortedExtras(ps, extras)
    ensures k in Canonical() + extras || k !in Last(ps)
    ensures k in extras ==> k in Last(ps) && k !in Canonical()
  {
    assert k in extras <==> k in multiset(extras);
    assert k in Extras(ps) <==> k in multiset(Extras(ps));
    ExtrasAre(ps, k);
    LastIsThere(ps, k);
  }

  lemma {:induction false} ChosenAre(names: seq<string>, pairs: map<string, Node>, x: Pair)
    ensures x in Chosen(names, pairs) <==> x.key in names && x.key in pairs && pairs[x.key] == x.val && !IsEmpty(x.val)
    decreases |names|
  {
    if names != [] { ChosenAre(names[..|names| - 1], pairs, x); }
  }

  /** The kept pairs are exactly the given ones with a value that is not empty. */
  lemma NormalKeepsTheNonEmpty(m: Node, r: Node, x: Pair)
    requires m.kind == MappingNode && Rebuilt(m, r) && DistinctKeys(PairsOf(m.content))
    ensures x in PairsOf(r.content) <==> x in PairsOf(m.content) && !IsEmpty(x.val)
  {
    var ps := PairsOf(m.content);
    var extras :| SortedExtras(ps, extras) && r == m.(content := Flatten(Chosen(Canonical() + extras, Last(ps))));
    PairsOfFlatten(Chosen(Canonical() + extras, Last(ps)));
    ChosenAre(Canonical() + extras, Last(ps), x);
    LastOfDistinct(ps, x);
    SameNames(ps, extras, x.key);
  }

  /** Place in the canonical order; keys outside it come after all of it. */
  function Rank(k: string): nat { RankFrom(k, 0) }

  function RankFrom(k: string, i: nat): (r: nat)
    requires i <= |Canonical()|
    ensures i <= r <= |Canonical()|
    ensures r < |Canonical()| ==> Canonical()[r] == k
    ensures r == |Canonical()| ==> forall j :: i <= j < |Canonical()| ==> Canonical()[j] != k
    decreases |Canonical()| - i
  {
    if i == |Canonical()| || Canonical()[i] == k then i else RankFrom(k, i + 1)
  }

  /** Canonical keys by rank, then the others by byte order. */
  predicate Before(a: string, b: string) {
    Rank(a) < Rank(b) || (Rank(a) == Rank(b) == |Canonical()| && Leq(a, b) && a != b)
  }

  ghost predicate InOrder(names: seq<string>) {
    forall i, j :: 0 <= i < j < |names| ==> Before(names[i], names[j])
  }

  ghost predicate PairsInOrder(ps: seq<Pair>) {
    forall i, j :: 0 <= i < j < |ps| ==> Before(ps[i].key, ps[j].key)
  }

  lemma {:induction false} ChosenInOrder(names: seq<string>, pairs: map<string, Node>)
    requires InOrder(names)
    ensures PairsInOrder(Chosen(names, pairs))
    decreases |names|
  {
    if names != [] {
      var n := |names| - 1;
      ChosenInOrder(names[..n], pairs);
      var front := Chosen(names[..n], pairs);
      forall i | 0 <= i < |front| ensures Before(front[i].key, names[n]) { ChosenBefore(names, pairs, i); }
    }
  }

  lemma ChosenBefore(names: seq<string>, pairs: map<string, Node>, i: nat)
    requires InOrder(names) && names != []
    requires i < |Chosen(names[..|names| - 1], pairs)|
    ensures Before(Chosen(names[..|names| - 1], pairs)[i].key, names[|names| - 1])
  {
    var n := |names| - 1;
    var x := Chosen(names[..n], pairs)[i];
    ChosenAre(names[..n], pairs, x);
    var j :| 0 <= j < n && names[..n][j] == x.key;
    assert Before(names[j], names[n]);
  }

  lemma {:induction false} ExtrasDistinct(ps: seq<Pair>)
    requires DistinctKeys(ps)
    ensures Distinct(Extras(ps))
    decreases |ps|
  {
    if ps != [] {
      var n := |ps| - 1;
      ExtrasDistinct(ps[..n]);
      ExtrasAre(ps[..n], ps[n].key);
    }
  }

  lemma RankOfCanonical(i: nat)
    requires i < |Canonical()|
    ensures Rank(Canonical()[i]) == i
  {
    RankFromCanonical(i, 0);
  }

  lemma {:induction false} RankFromCanonical(i: nat, from: nat)
    requires from <= i < |Canonical()|
    ensures RankFrom(Canonical()[i], from) == i
    decreases i - from
  {
    CanonicalIsDistinct(from, i);
    if from < i { RankFromCanonical(i, from + 1); }
  }

  lemma CanonicalIsDistinct(i: nat, j: nat)
    requires i <= j < |Canonical()|
    ensures Canonical()[i] == Canonical()[j] ==> i == j
  {
    var lengths := [4, 4, 8, 8, 14, 5, 9, 14, 11, 12, 9, 3, 7, 10];
    assert |Canonical()| == |lengths|;
    assert forall k :: 0 <= k < |Canonical()| ==> |Canonical()[k]| == lengths[k];
    assert Canonical()[0][0] == 'n' && Canonical()[1][0] == 'c' && Canonical()[2][0] == 't' && Canonical()[3][0] == 'p';
    assert Canonical()[4][0] == 'c' && Canonical()[7][0] == 'o' && Canonical()[6][0] == 'm'
      && Canonical()[10][0] == 'w';
  }

  lemma NamesInOrder(ps: seq<Pair>, extras: seq<string>)
    requires SortedExtras(ps, extras) && DistinctKeys(ps)
    ensures InOrder(Canonical() + extras)
  {
    var names, c := Canonical() + extras, |Canonical()|;
    ExtrasDistinct(ps);
    SameElementsDistinct(Extras(ps), extras);
    forall i | 0 <= i < |names| ensures Rank(names[i]) == if i < c then i else c {
      if i < c { RankOfCanonical(i); } else { SameNames(ps, extras, names[i]); }
    }
  }

  /** The kept keys stand in canonical order, each once. */
  lemma NormalIsInOrder(m: Node, r: Node)
    requires m.kind == MappingNode && Rebuilt(m, r) && DistinctKeys(PairsOf(m.content))
    ensures |r.content| == 2 * |PairsOf(r.content)| && DistinctKeys(PairsOf(r.content))
    ensures PairsInOrder(PairsOf(r.content))
    ensures forall i :: 0 <= i < |PairsOf(r.content)| ==> r.content[2 * i] == KeyNode(PairsOf(r.content)[i].key)
  {
    var ps := PairsOf(m.content);
    var extras :| SortedExtras(ps, extras) && r == m.(content := Flatten(Chosen(Canonical() + extras, Last(ps))));
    var cs := Chosen(Canonical() + extras, Last(ps));
    PairsOfFlatten(cs);
    NamesInOrder(ps, extras);
    ChosenInOrder(Canonical() + extras, Last(ps));
    forall i | 0 <= i < |cs| ensures r.content[2 * i] == KeyNode(cs[i].key) { FlattenKeys(cs, i); }
  }

  lemma {:induction false} FlattenKeys(ps: seq<Pair>, i: nat)
    requires i < |ps|
    ensures |Flatten(ps)| == 2 * |ps| && Flatten(ps)[2 * i] == KeyNode(ps[i].key)
    decreases |ps|
  {
    PairsOfFlatten(ps);
    PairsOfFlatten(ps[..|ps| - 1]);
    if i < |ps| - 1 { FlattenKeys(ps[..|ps| - 1], i); }
  }

  // ----- normalising twice -----

  lemma {:induction false} ChosenConcat(a: seq<string>, b: seq<string>, pairs: map<string, Node>)
    ensures Chosen(a + b, pairs) == Chosen(a, pairs) + Chosen(b, pairs)
    decreases |b|
  {
    if b == [] {
      assert a + b == a;
    } else {
      var n := |b| - 1;
      assert (a + b)[..|a + b| - 1] == a + b[..n];
      ChosenConcat(a, b[..n], pairs);
    }
  }

  function Keys(ps: seq<Pair>): seq<string> {
    if ps == [] then [] else Keys(ps[..|ps| - 1]) + [ps[|ps| - 1].key]
  }

  /** Choosing again among what was chosen. */
  lemma {:induction false} ChosenAgain(names: seq<string>, pairs: map<string, Node>)
    ensures Chosen(Keys(Chosen(names, pairs)), pairs) == Chosen(names, pairs)
    decreases |names|
  {
    if names != [] {
      var n := |names| - 1;
      var front, k := Chosen(names[..n], pairs), names[n];
      ChosenAgain(names[..n], pairs);
      if k in pairs && !IsEmpty(pairs[k]) {
        var all := front + [Pair(k, pairs[k])];
        assert all[..|all| - 1] == front;
        assert Keys(all)[..|Keys(all)| - 1] == Keys(front);
      }
    }
  }

  /** Only what is not empty matters. */
  ghost predicate Agree(p: map<string, Node>, q: map<string, Node>) {
    forall k :: (k in p && !IsEmpty(p[k])) == (k in q && !IsEmpty(q[k])) && (k in p && !IsEmpty(p[k]) ==> p[k] == q[k])
  }

  lemma {:induction false} ChosenAgrees(names: seq<string>, p: map<string, Node>, q: map<string, Node>)
    requires Agree(p, q)
    ensures Chosen(names, p) == Chosen(names, q)
    decreases |names|
  {
    if names != [] { ChosenAgrees(names[..|names| - 1], p, q); }
  }

  lemma {:induction false} ExtrasOfConcat(a: seq<Pair>, b: seq<Pair>)
    ensures Extras(a + b) == Extras(a) + Extras(b)
    decreases |b|
  {
    if b == [] {
      assert a + b == a;
    } else {
      assert (a + b)[..|a + b| - 1] == a + b[..|b| - 1];
      ExtrasOfConcat(a, b[..|b| - 1]);
    }
  }

  lemma {:induction false} NoExtrasChosen(names: seq<string>, pairs: map<string, Node>)
    requires forall i :: 0 <= i < |names| ==> names[i] in Canonical()
    ensures Extras(Chosen(names, pairs)) == []
    decreases |names|
  {
    if names != [] {
      var n := |names| - 1;
      NoExtrasChosen(names[..n], pairs);
      var front, k := Chosen(names[..n], pairs), names[n];
      assert k in Canonical();
      if k in pairs && !IsEmpty(pairs[k]) { assert (front + [Pair(k, pairs[k])])[..|front|] == front; }
    }
  }

  lemma {:induction false} OnlyExtrasChosen(names: seq<string>, pairs: map<string, Node>)
    requires forall i :: 0 <= i < |names| ==> names[i] !in Canonical()
    ensures Extras(Chosen(names, pairs)) == Keys(Chosen(names, pairs))
    decreases |names|
  {
    if names != [] {
      var n := |names| - 1;
      OnlyExtrasChosen(names[..n], pairs);
      var front, k := Chosen(names[..n], pairs), names[n];
      assert k !in Canonical();
      if k in pairs && !IsEmpty(pairs[k]) { assert (front + [Pair(k, pairs[k])])[..|front|] == front; }
    }
  }

  lemma KeysGrow(ps: seq<Pair>, x: Pair)
    ensures Keys(ps + [x]) == Keys(ps) + [x.key]
  {
    assert (ps + [x])[..|ps|] == ps;
  }

  lemma OrderedGrows(keys: seq<string>, k: string)
    requires Ordered(keys) && forall i :: 0 <= i < |keys| ==> Leq(keys[i], k)
    ensures Ordered(keys + [k])
  {
  }

  lemma OrderedFront(front: seq<string>, last: string)
    requires Ordered(front + [last])
    ensures Ordered(front) && forall x :: x in front ==> Leq(x, last)
  {
    var all := front + [last];
    assert forall i :: 0 <= i < |front| ==> all[i] == front[i];
    assert all[|front|] == last;
  }

  /** Keys of an ordered choice are ordered. */
  lemma {:induction false} ChosenKeysOrdered(names: seq<string>, pairs: map<string, Node>)
    requires Ordered(names)
    ensures Ordered(Keys(Chosen(names, pairs)))
    ensures forall k :: k in Keys(Chosen(names, pairs)) ==> k in names
    decreases |names|
  {
    if names != [] {
      var n := |names| - 1;
      assert names == names[..n] + [names[n]];
      OrderedFront(names[..n], names[n]);
      ChosenKeysOrdered(names[..n], pairs);
      var front, k := Chosen(names[..n], pairs), names[n];
      if k in pairs && !IsEmpty(pairs[k]) {
        KeysGrow(front, Pair(k, pairs[k]));
        OrderedGrows(Keys(front), k);
      }
    }
  }

  lemma ChosenIndexed(ps: seq<Pair>, extras: seq<string>)
    requires SortedExtras(ps, extras)
    ensures Agree(Last(Chosen(Canonical() + extras, Last(ps))), Last(ps))
  {
    var cs := Chosen(Canonical() + extras, Last(ps));
    forall k ensures k in Last(cs) <==> k in Last(ps) && !IsEmpty(Last(ps)[k])
             ensures k in Last(cs) ==> k in Last(ps) && Last(cs)[k] == Last(ps)[k]
    {
      LastIsThere(cs, k);
      SameNames(ps, extras, k);
      if k in Last(cs) { ChosenAre(Canonical() + extras, Last(ps), Pair(k, Last(cs)[k])); }
      if k in Last(ps) && !IsEmpty(Last(ps)[k]) {
        ChosenAre(Canonical() + extras, Last(ps), Pair(k, Last(ps)[k]));
        var p :| 0 <= p < |cs| && cs[p] == Pair(k, Last(ps)[k]);
        assert cs[p].key == k;
      }
    }
  }

  /** Ordered lists of the same names are the same list. */
  lemma {:induction false} OrderedIsUnique(xs: seq<string>, ys: seq<string>)
    requires Ordered(xs) && Ordered(ys) && multiset(xs) == multiset(ys)
    ensures xs == ys
    decreases |xs|
  {
    assert |xs| == |multiset(xs)| == |multiset(ys)| == |ys|;
    if xs != [] {
      FirstsAgree(xs, ys);
      FirstsAgree(ys, xs);
      LeqAntisymmetric(xs[0], ys[0]);
      WithoutFirst(xs);
      WithoutFirst(ys);
      OrderedIsUnique(xs[1..], ys[1..]);
    }
  }

  lemma WithoutFirst(xs: seq<string>)
    requires xs != []
    ensures xs == [xs[0]] + xs[1..] && multiset(xs[1..]) == multiset(xs) - multiset{xs[0]}
  {
    assert xs == [xs[0]] + xs[1..];
  }

  lemma FirstsAgree(xs: seq<string>, ys: seq<string>)
    requires Ordered(xs) && xs != [] && ys != [] && multiset(xs) == multiset(ys)
    ensures Leq(xs[0], ys[0])
  {
    assert ys[0] in multiset(xs);
    LeqTotal(xs[0], xs[0]);
  }

  /** Normalising a normalised mapping changes nothing, repeated keys or not. */
  lemma NormalisingIsIdempotent(m: Node, r: Node, again: Node)
    requires Rebuilt(m, r) && Rebuilt(r, again)
    ensures again == r
  {
    if m.kind == MappingNode {
      var ps := PairsOf(m.content);
      var extras :| SortedExtras(ps, extras) && r == m.(content := Flatten(Chosen(Canonical() + extras, Last(ps))));
      var cs := Chosen(Canonical() + extras, Last(ps));
      PairsOfFlatten(cs);
      var extras2 :| SortedExtras(cs, extras2)
        && again == r.(content := Flatten(Chosen(Canonical() + extras2, Last(cs))));
      ChosenTwice(ps, extras, extras2);
    }
  }

  lemma ChosenTwice(ps: seq<Pair>, extras: seq<string>, extras2: seq<string>)
    requires SortedExtras(ps, extras) && SortedExtras(Chosen(Canonical() + extras, Last(ps)), extras2)
    ensures var cs := Chosen(Canonical() + extras, Last(ps)); Chosen(Canonical() + extras2, Last(cs)) == cs
  {
    var pairs := Last(ps);
    var cs := Chosen(Canonical() + extras, pairs);
    ChosenConcat(Canonical(), extras, pairs);
    ExtrasOfConcat(Chosen(Canonical(), pairs), Chosen(extras, pairs));
    NoExtrasChosen(Canonical(), pairs);
    forall i | 0 <= i < |extras| ensures extras[i] !in Canonical() { SameNames(ps, extras, extras[i]); }
    OnlyExtrasChosen(extras, pairs);
    ChosenKeysOrdered(extras, pairs);
    assert Extras(cs) == Keys(Chosen(extras, pairs));
    OrderedIsUnique(extras2, Extras(cs));
    ChosenIndexed(ps, extras);
    ChosenAgrees(Canonical() + extras2, Last(cs), pairs);
    ChosenConcat(Canonical(), extras2, pairs);
    ChosenAgain(extras, pairs);
  }
}
