/** Strings in byte order, and sorting them the way the runner does. */
module Text {

  predicate Leq(a: string, b: string) {
    a == "" || (b != "" && (a[0] < b[0] || (a[0] == b[0] && Leq(a[1..], b[1..]))))
  }

  /** The strings agree before `i` and `a` ends there, or has the smaller character. */
  predicate DiffersAt(a: string, b: string, i: nat) {
    && i <= |a| && i < |b| && a[..i] == b[..i] && (i == |a| || a[i] < b[i])
  }

  lemma AgreeAtFirst(a: string, b: string, i: nat)
    requires 0 < i <= |a| && i <= |b| && a[..i] == b[..i]
    ensures a[0] == b[0]
  {
    assert a[..i][0] == b[..i][0];
  }

  /** Byte order: the first place where two strings differ decides. */
  lemma {:induction false} LeqIsByteOrder(a: string, b: string)
    ensures Leq(a, b) <==> a == b || exists i: nat :: DiffersAt(a, b, i)
    decreases |a|
  {
    if a == "" {
      if b != "" { assert DiffersAt(a, b, 0); }
    } else if b != "" {
      if a[0] == b[0] {
        LeqIsByteOrder(a[1..], b[1..]);
        assert a == [a[0]] + a[1..] && b == [b[0]] + b[1..];
        if i: nat :| DiffersAt(a, b, i) {
          assert i > 0 && a[1..][..i - 1] == a[..i][1..] && b[1..][..i - 1] == b[..i][1..];
          assert DiffersAt(a[1..], b[1..], i - 1);
        }
        if i: nat :| DiffersAt(a[1..], b[1..], i) {
          assert a[..i + 1] == [a[0]] + a[1..][..i] && b[..i + 1] == [b[0]] + b[1..][..i];
          assert DiffersAt(a, b, i + 1);
        }
      } else {
        if i: nat :| DiffersAt(a, b, i) {
          if i > 0 { AgreeAtFirst(a, b, i); }
        }
        if a[0] < b[0] { assert DiffersAt(a, b, 0); }
      }
    }
  }

  lemma LeqTotal(a: string, b: string)
    ensures Leq(a, b) || Leq(b, a)
  {
    if a != "" && b != "" { LeqTotal(a[1..], b[1..]); }
  }

  lemma {:induction false} LeqAntisymmetric(a: string, b: string)
    requires Leq(a, b) && Leq(b, a)
    ensures a == b
  {
    if a != "" && b != "" {
      LeqAntisymmetric(a[1..], b[1..]);
      assert a == [a[0]] + a[1..] && b == [b[0]] + b[1..];
    }
  }

  lemma {:induction false} LeqTransitive(a: string, b: string, c: string)
    requires Leq(a, b) && Leq(b, c)
    ensures Leq(a, c)
  {
    if a != "" && b != "" && c != "" && a[0] == b[0] == c[0] {
      LeqTransitive(a[1..], b[1..], c[1..]);
    }
  }

  ghost predicate Ordered(ss: seq<string>) {
    forall i, j :: 0 <= i < j < |ss| ==> Leq(ss[i], ss[j])
  }

  ghost predicate Distinct(ss: seq<string>) {
    forall i, j :: 0 <= i < j < |ss| ==> ss[i] != ss[j]
  }

  /** The names of a set, each once, in order. */
  ghost predicate Lists(ss: seq<string>, names: set<string>) {
    Ordered(ss) && Distinct(ss) && (forall n :: n in names <==> n in ss)
  }

  lemma FirstIsLeast(ss: seq<string>, names: set<string>, n: string)
    requires Lists(ss, names) && n in names
    ensures ss != [] && Leq(ss[0], n)
  {
    LeqTotal(n, n);
  }

  lemma TailLists(ss: seq<string>, names: set<string>)
    requires Lists(ss, names) && ss != []
    ensures Lists(ss[1..], names - {ss[0]})
  {
    forall n ensures n in names - {ss[0]} <==> n in ss[1..] {
      if n in ss[1..] {
        var i :| 0 <= i < |ss[1..]| && ss[1..][i] == n;
        assert ss[i + 1] == n;
      }
      if n in names && n != ss[0] {
        var i :| 0 <= i < |ss| && ss[i] == n;
        assert ss[1..][i - 1] == n;
      }
    }
  }

  lemma EmptyListing(ss: seq<string>, names: set<string>)
    requires Lists(ss, names)
    ensures ss == [] <==> names == {}
  {
    if ss != [] { assert ss[0] in ss; }
    if names != {} { var n :| n in names; }
  }

  /** A set has one listing. */
  lemma {:induction false} ListingIsUnique(xs: seq<string>, ys: seq<string>, names: set<string>)
    requires Lists(xs, names) && Lists(ys, names)
    ensures xs == ys
    decreases |xs|
  {
    if xs == [] {
      EmptyListing(xs, names);
      EmptyListing(ys, names);
    } else {
      assert xs[0] in names;
      FirstIsLeast(ys, names, xs[0]);
      assert ys[0] in names;
      FirstIsLeast(xs, names, ys[0]);
      LeqAntisymmetric(xs[0], ys[0]);
      TailLists(xs, names);
      TailLists(ys, names);
      ListingIsUnique(xs[1..], ys[1..], names - {xs[0]});
      assert xs == [xs[0]] + xs[1..] && ys == [ys[0]] + ys[1..];
    }
  }

  /** `ss` without the order but for the element at `skip`. */
  ghost predicate OrderedBut(ss: seq<string>, n: nat, skip: nat)
    requires n <= |ss|
  {
    && (forall i, j :: 0 <= i < j < n && i != skip && j != skip ==> Leq(ss[i], ss[j]))
    && (forall j :: skip < j < n ==> Leq(ss[skip], ss[j]))
  }

  lemma SwapKeepsElements(before: seq<string>, after: seq<string>, j: nat)
    requires 0 < j < |before| && after == before[j - 1 := before[j]][j := before[j - 1]]
    ensures multiset(after) == multiset(before)
  {
  }

  lemma SwapMovesTheHole(before: seq<string>, after: seq<string>, n: nat, j: nat)
    requires 0 < j < n <= |before| && OrderedBut(before, n, j)
    requires after == before[j - 1 := before[j]][j := before[j - 1]]
    requires !Leq(before[j - 1], before[j])
    ensures OrderedBut(after, n, j - 1)
  {
    LeqTotal(before[j - 1], before[j]);
    forall i | j - 1 < i < n ensures Leq(after[j - 1], after[i]) {
      if i > j { assert Leq(before[j], before[i]); }
    }
  }

  lemma HoleIsFilled(ss: seq<string>, n: nat, j: nat)
    requires j < n <= |ss| && OrderedBut(ss, n, j)
    requires j > 0 ==> Leq(ss[j - 1], ss[j])
    ensures Ordered(ss[..n])
  {
    forall i, k | 0 <= i < k < n ensures Leq(ss[i], ss[k]) {
      if k == j && i < j - 1 { LeqTransitive(ss[i], ss[j - 1], ss[j]); }
    }
  }

  /** The inner loop: the element at `i` goes down by neighbour swaps. */
  method Insert(ss: array<string>, i: nat)
    requires i < ss.Length && Ordered(ss[..i])
    modifies ss
    ensures Ordered(ss[..i + 1])
    ensures multiset(ss[..]) == multiset(old(ss[..]))
  {
    var j := i;
    assert OrderedBut(ss[..], i + 1, i) by {
      assert forall k :: 0 <= k < i ==> ss[..][k] == ss[..i][k];
    }
    while j > 0 && !Leq(ss[j - 1], ss[j])
      invariant 0 <= j <= i
      invariant OrderedBut(ss[..], i + 1, j)
      invariant multiset(ss[..]) == multiset(old(ss[..]))
    {
      ghost var before := ss[..];
      ss[j - 1], ss[j] := ss[j], ss[j - 1];
      assert ss[..] == before[j - 1 := before[j]][j := before[j - 1]];
      SwapKeepsElements(before, ss[..], j);
      SwapMovesTheHole(before, ss[..], i + 1, j);
      j := j - 1;
    }
    HoleIsFilled(ss[..], i + 1, j);
    assert ss[..][..i + 1] == ss[..i + 1];
  }

  /** The runner's insertion sort, in place. */
  method SortStrings(ss: array<string>)
    modifies ss
    ensures Ordered(ss[..])
    ensures multiset(ss[..]) == multiset(old(ss[..]))
  {
    if ss.Length > 0 {
      for i := 1 to ss.Length
        invariant Ordered(ss[..i])
        invariant multiset(ss[..]) == multiset(old(ss[..]))
      {
        Insert(ss, i);
      }
      assert ss[..ss.Length] == ss[..];
    }
  }

  /** The keys of a map or set, taken in any order and sorted. */
  method ListNames(names: set<string>) returns (ss: seq<string>)
    ensures Lists(ss, names)
  {
    var out: seq<string> := [];
    var left := names;
    while left != {}
      invariant left <= names
      invariant forall n :: n in out <==> n in names - left
      invariant Distinct(out)
      decreases |left|
    {
      var n :| n in left;
      assert n !in out;
      out := out + [n];
      left := left - {n};
    }
    var a := new string[|out|](i requires 0 <= i < |out| => out[i]);
    assert a[..] == out;
    SortStrings(a);
    ss := a[..];
    SameElementsDistinct(out, ss);
  }

  lemma {:induction false} CountInDistinct(xs: seq<string>, x: string)
    requires Distinct(xs)
    ensures multiset(xs)[x] == if x in xs then 1 else 0
    decreases |xs|
  {
    if xs != [] {
      assert xs == [xs[0]] + xs[1..];
      CountInDistinct(xs[1..], x);
      assert xs[0] !in xs[1..];
    }
  }

  lemma SameElementsDistinct(xs: seq<string>, ys: seq<string>)
    requires Distinct(xs) && multiset(xs) == multiset(ys)
    ensures Distinct(ys) && forall n :: n in ys <==> n in xs
  {
    forall n ensures n in ys <==> n in xs {
      assert n in ys <==> n in multiset(ys);
      assert n in xs <==> n in multiset(xs);
    }
    forall i, j | 0 <= i < j < |ys| ensures ys[i] != ys[j] {
      CountInDistinct(xs, ys[i]);
      if ys[i] == ys[j] { TwiceCounted(ys, i, j); }
    }
  }

  lemma TwiceCounted(ys: seq<string>, i: nat, j: nat)
    requires i < j < |ys| && ys[i] == ys[j]
    ensures multiset(ys)[ys[i]] >= 2
  {
    var a, b := ys[..j], ys[j..];
    assert ys == a + b;
    assert a[i] in multiset(a) && b[0] in multiset(b);
  }
}
