/** Scrubbing secret values from text. */
module Redact {
  import opened Replacing

  function Placeholder(): string { "[REDACTED]" }

  /**
   * The value shares no edge with the placeholder: no end of it begins the placeholder,
   * no beginning of it ends it, and neither contains the other.
   */
  ghost predicate Apart(v: string) {
    && (forall k :: 0 <= k < |v| ==> !(v[k..] <= Placeholder()) && !(Placeholder() <= v[k..]))
    && (forall k :: 0 <= k < |Placeholder()| ==> !(v <= Placeholder()[k..]) && !(Placeholder()[k..] <= v))
  }

  /** A value without brackets that is no part of the word inside them is apart. */
  lemma BracketFreeIsApart(v: string)
    requires v != "" && '[' !in v && ']' !in v && !Contains("REDACTED", v)
    ensures Apart(v)
  {
    assert Placeholder()[0] == '[' && Placeholder()[|Placeholder()| - 1] == ']';
    assert Placeholder()[1..|Placeholder()| - 1] == "REDACTED";
    forall k | 0 <= k < |v| ensures !(v[k..] <= Placeholder()) && !(Placeholder() <= v[k..]) {
      assert v[k..][0] == v[k] && v[k] in v;
    }
    forall k | 0 <= k < |Placeholder()| ensures !(v <= Placeholder()[k..]) && !(Placeholder()[k..] <= v) {
      if v <= Placeholder()[k..] { InsideTheWord(Placeholder(), v, k); }
      NotEndingIn(v, Placeholder()[k..]);
    }
  }

  lemma NotEndingIn(v: string, tail: string)
    requires tail != "" && tail[|tail| - 1] !in v
    ensures !(tail <= v)
  {
    if |tail| <= |v| { assert v[|tail| - 1] in v; }
  }

  /** A value that begins inside a text and has neither of its end characters lies within them. */
  lemma InsideTheWord(p: string, v: string, k: nat)
    requires |p| >= 2 && v != "" && p[0] !in v && p[|p| - 1] !in v && k < |p| && v <= p[k..]
    ensures k >= 1 && OccursAt(p[1..|p| - 1], v, k - 1)
  {
    var n := |v|;
    assert v[0] == p[k] && v[0] in v;
    assert v[n - 1] == p[k + n - 1] && v[n - 1] in v;
    assert v == p[k..][..n] == p[k..k + n];
    SliceOfSlice(p, 1, |p| - 1, k - 1, k - 1 + n);
  }

  lemma SliceOfSlice(p: string, a: nat, b: nat, c: nat, d: nat)
    requires a <= b <= |p| && c <= d <= b - a
    ensures p[a..b][c..d] == p[a + c..a + d]
  {
    var x, y := p[a..b][c..d], p[a + c..a + d];
    assert |x| == |y| && forall i :: 0 <= i < |x| ==> x[i] == p[a..b][c + i] == y[i];
  }

  // ----- replacing one value -----

  /** What begins the result began the text, for any end `u` of a value apart from the placeholder. */
  lemma {:induction false} PrefixSurvives(s: string, value: string, v: string, k: nat)
    requires value != "" && Apart(v) && k <= |v| && v[k..] <= ReplaceAll(s, value, Placeholder())
    ensures v[k..] <= s
    decreases |s|
  {
    if k < |v| && s != "" {
      var u := v[k..];
      if value <= s {
        OneBeginsTheOther(u, Placeholder(), ReplaceAll(s[|value|..], value, Placeholder()));
      } else {
        var rest := ReplaceAll(s[1..], value, Placeholder());
        assert u[0] == s[0];
        assert v[k + 1..] == u[1..] == ([s[0]] + rest)[1..|u|] == rest[..|u| - 1];
        PrefixSurvives(s[1..], value, v, k + 1);
        assert u == [s[0]] + v[k + 1..];
      }
    }
  }

  lemma OneBeginsTheOther(u: string, a: string, b: string)
    requires u <= a + b
    ensures u <= a || a <= u
  {
    if |u| <= |a| {
      assert u == (a + b)[..|u|] == a[..|u|];
    } else {
      assert a == (a + b)[..|a|] == u[..|a|];
    }
  }

  lemma OccursInTail(s: string, v: string, n: nat, i: nat)
    requires n <= |s| && OccursAt(s[n..], v, i)
    ensures OccursAt(s, v, n + i)
  {
    assert s[n..][i..i + |v|] == s[n + i..n + i + |v|];
  }

  lemma TailOfConcat(a: string, b: string, v: string, i: nat)
    requires |a| <= i && OccursAt(a + b, v, i)
    ensures OccursAt(b, v, i - |a|)
  {
    assert (a + b)[i..i + |v|] == b[i - |a|..i - |a| + |v|];
  }

  /** An occurrence may not begin inside a placeholder. */
  lemma NotInside(rest: string, v: string, i: nat)
    requires Apart(v) && i < |Placeholder()|
    ensures !OccursAt(Placeholder() + rest, v, i)
  {
    var all := Placeholder() + rest;
    assert all[i..] == Placeholder()[i..] + rest;
    if OccursAt(all, v, i) {
      assert v == all[i..][..|v|];
      OneBeginsTheOther(v, Placeholder()[i..], rest);
    }
  }

  /** Replacing any value creates no new occurrence of another. */
  lemma {:induction false} NoNewOccurrence(s: string, value: string, v: string, i: nat)
    requires value != "" && v != "" && Apart(v) && OccursAt(ReplaceAll(s, value, Placeholder()), v, i)
    ensures Contains(s, v)
    decreases |s|
  {
    if s != "" {
      if value <= s {
        var rest := ReplaceAll(s[|value|..], value, Placeholder());
        if i < |Placeholder()| { NotInside(rest, v, i); }
        TailOfConcat(Placeholder(), rest, v, i);
        NoNewOccurrence(s[|value|..], value, v, i - |Placeholder()|);
        var j: nat :| OccursAt(s[|value|..], v, j);
        OccursInTail(s, v, |value|, j);
      } else if i == 0 {
        var all := ReplaceAll(s, value, Placeholder());
        assert v[0..] == v == all[..|v|];
        PrefixSurvives(s, value, v, 0);
        assert OccursAt(s, v, 0);
      } else {
        var rest := ReplaceAll(s[1..], value, Placeholder());
        TailOfConcat([s[0]], rest, v, i);
        NoNewOccurrence(s[1..], value, v, i - 1);
        var j: nat :| OccursAt(s[1..], v, j);
        OccursInTail(s, v, 1, j);
      }
    }
  }

  /** Replacing a value leaves no occurrence of it. */
  lemma {:induction false} ReplacedIsGone(s: string, v: string, i: nat)
    requires v != "" && Apart(v)
    ensures !OccursAt(ReplaceAll(s, v, Placeholder()), v, i)
    decreases |s|
  {
    if s != "" && OccursAt(ReplaceAll(s, v, Placeholder()), v, i) {
      if v <= s {
        var rest := ReplaceAll(s[|v|..], v, Placeholder());
        if i < |Placeholder()| { NotInside(rest, v, i); }
        TailOfConcat(Placeholder(), rest, v, i);
        ReplacedIsGone(s[|v|..], v, i - |Placeholder()|);
      } else if i == 0 {
        var all := ReplaceAll(s, v, Placeholder());
        assert v[0..] == v == all[..|v|];
        PrefixSurvives(s, v, v, 0);
      } else {
        TailOfConcat([s[0]], ReplaceAll(s[1..], v, Placeholder()), v, i);
        ReplacedIsGone(s[1..], v, i - 1);
      }
    }
  }

  /** Text without the value is left as it is. */
  lemma {:induction false} NothingToReplace(s: string, v: string, p: string)
    requires v != "" && !Contains(s, v)
    ensures ReplaceAll(s, v, p) == s
    decreases |s|
  {
    if s != "" {
      assert !OccursAt(s, v, 0);
      if i: nat :| OccursAt(s[1..], v, i) { OccursInTail(s, v, 1, i); }
      NothingToReplace(s[1..], v, p);
      assert s == [s[0]] + s[1..];
    }
  }

  // ----- New and Redact -----

  /** The loop over all values. */
  function RedactFrom(s: string, values: seq<string>): string
    requires forall i :: 0 <= i < |values| ==> values[i] != ""
    decreases |values|
  {
    if values == [] then s else RedactFrom(ReplaceAll(s, values[0], Placeholder()), values[1..])
  }

  lemma {:induction false} StaysAbsent(s: string, values: seq<string>, v: string)
    requires forall i :: 0 <= i < |values| ==> values[i] != ""
    requires v != "" && Apart(v) && !Contains(s, v)
    ensures !Contains(RedactFrom(s, values), v)
    decreases |values|
  {
    if values != [] {
      var s1 := ReplaceAll(s, values[0], Placeholder());
      if i: nat :| OccursAt(s1, v, i) { NoNewOccurrence(s, values[0], v, i); }
      StaysAbsent(s1, values[1..], v);
    }
  }

  /** No value of the list, however they overlap or nest, survives. */
  lemma {:induction false} NoneSurvives(s: string, values: seq<string>, k: nat)
    requires forall i :: 0 <= i < |values| ==> values[i] != "" && Apart(values[i])
    requires k < |values|
    ensures !Contains(RedactFrom(s, values), values[k])
    decreases |values|
  {
    var s1 := ReplaceAll(s, values[0], Placeholder());
    if k == 0 {
      forall i: nat ensures !OccursAt(s1, values[0], i) { ReplacedIsGone(s, values[0], i); }
      StaysAbsent(s1, values[1..], values[0]);
    } else {
      NoneSurvives(s1, values[1..], k - 1);
    }
  }

  lemma {:induction false} CleanIsUntouched(s: string, values: seq<string>)
    requires forall i :: 0 <= i < |values| ==> values[i] != "" && !Contains(s, values[i])
    ensures RedactFrom(s, values) == s
    decreases |values|
  {
    if values != [] {
      NothingToReplace(s, values[0], Placeholder());
      CleanIsUntouched(s, values[1..]);
    }
  }

  ghost predicate LongestFirst(values: seq<string>) {
    forall i, j :: 0 <= i < j < |values| ==> |values[i]| >= |values[j]|
  }

  ghost predicate NonEmpty(values: seq<string>) {
    forall i :: 0 <= i < |values| ==> values[i] != ""
  }

  ghost predicate AllApart(values: seq<string>) {
    forall i :: 0 <= i < |values| ==> Apart(values[i])
  }

  ghost predicate Clean(s: string, values: seq<string>) {
    forall i :: 0 <= i < |values| ==> !Contains(s, values[i])
  }

  // ----- what is kept -----

  lemma NotBefore(c: char, t: string, v: string, n: nat)
    requires forall i: nat :: i < n + 1 ==> !OccursAt([c] + t, v, i)
    ensures !(v <= [c] + t) && forall i: nat :: i < n ==> !OccursAt(t, v, i)
  {
    AtTheFront([c] + t, v);
    assert !OccursAt([c] + t, v, 0);
    forall i: nat | i < n ensures !OccursAt(t, v, i) { LaterInTail(c, t, v, i + 1); }
  }

  /** Where the value does not begin, the text is passed over. */
  lemma {:induction false} PassedOver(a: string, rest: string, v: string, put: string)
    requires v != "" && forall i: nat :: i < |a| ==> !OccursAt(a + rest, v, i)
    ensures ReplaceAll(a + rest, v, put) == a + ReplaceAll(rest, v, put)
    decreases |a|
  {
    var all := a + rest;
    if a == "" {
      assert all == rest;
    } else {
      assert all[1..] == a[1..] + rest && all == [a[0]] + (a[1..] + rest);
      NotBefore(a[0], a[1..] + rest, v, |a| - 1);
      PassedOver(a[1..], rest, v, put);
    }
  }

  lemma ReachesIn(p: string, rest: string, v: string)
    requires |v| > |p| && v <= p + Placeholder() + rest
    ensures v[|p|..] <= Placeholder() || Placeholder() <= v[|p|..]
  {
    var all := p + Placeholder() + rest;
    assert v == all[..|v|];
    assert v[|p|..] == all[|p|..|v|] == (Placeholder() + rest)[..|v| - |p|];
    OneBeginsTheOther(v[|p|..], Placeholder(), rest);
  }

  /** A value apart from the placeholder that begins before one ends before it. */
  lemma EndsBefore(p: string, rest: string, v: string)
    requires Apart(v) && v <= p + Placeholder() + rest && p != ""
    ensures v <= p
  {
    var all := p + Placeholder() + rest;
    if |v| > |p| { ReachesIn(p, rest, v); }
    assert v == all[..|v|] == p[..|v|];
  }

  lemma MatchesFirst(p: string, rest: string, v: string)
    requires Apart(v) && p != ""
    ensures v <= p + Placeholder() + rest <==> v <= p
  {
    var all := p + Placeholder() + rest;
    if v <= all { EndsBefore(p, rest, v); }
    assert forall i :: 0 <= i < |p| ==> all[i] == p[i];
  }

  /** The text before a placeholder, the placeholder and the text after it are dealt with apart. */
  lemma {:induction false} AroundAPlaceholder(p: string, rest: string, v: string)
    requires v != "" && Apart(v)
    ensures ReplaceAll(p + Placeholder() + rest, v, Placeholder())
         == ReplaceAll(p, v, Placeholder()) + Placeholder() + ReplaceAll(rest, v, Placeholder())
    decreases |p|
  {
    var all := p + Placeholder() + rest;
    if p == "" {
      assert all == Placeholder() + rest;
      forall i: nat | i < |Placeholder()| ensures !OccursAt(Placeholder() + rest, v, i) { NotInside(rest, v, i); }
      PassedOver(Placeholder(), rest, v, Placeholder());
    } else {
      MatchesFirst(p, rest, v);
      if v <= all {
        assert all[|v|..] == p[|v|..] + Placeholder() + rest;
        AroundAPlaceholder(p[|v|..], rest, v);
      } else {
        assert all[1..] == p[1..] + Placeholder() + rest && all[0] == p[0];
        AroundAPlaceholder(p[1..], rest, v);
      }
    }
  }

  /** A text is kept but for some of the values: `hidden` in their order, `pieces` around them. */
  ghost predicate Kept(s: string, out: string, pieces: seq<string>, hidden: seq<string>) {
    |pieces| == |hidden| + 1 && Weave(pieces, hidden) == s && Join(pieces, Placeholder()) == out
  }

  /** One more value is hidden, wherever it occurs in the pieces. */
  lemma {:induction false} OneMoreHidden(pieces: seq<string>, hidden: seq<string>, v: string)
    returns (more: seq<string>, gone: seq<string>)
    requires |pieces| == |hidden| + 1 && v != "" && Apart(v)
    ensures Kept(Weave(pieces, hidden), ReplaceAll(Join(pieces, Placeholder()), v, Placeholder()), more, gone)
    ensures forall h :: h in gone ==> h == v || h in hidden
    decreases |pieces|
  {
    var cut := ReplacedPiecewise(pieces[0], v, Placeholder());
    WeaveOfOne(cut, v);
    var same := seq(|cut| - 1, _ => v);
    if hidden == [] {
      more, gone := cut, same;
    } else {
      var q, c := OneMoreHidden(pieces[1..], hidden[1..], v);
      more, gone := cut + q, same + [hidden[0]] + c;
      WeaveOn(cut, same, hidden[0], q, c);
      JoinOn(cut, q, Placeholder());
      AroundAPlaceholder(pieces[0], Join(pieces[1..], Placeholder()), v);
    }
  }

  lemma {:induction false} AllHidden(pieces: seq<string>, hidden: seq<string>, values: seq<string>)
    returns (more: seq<string>, gone: seq<string>)
    requires |pieces| == |hidden| + 1 && NonEmpty(values) && AllApart(values)
    ensures Kept(Weave(pieces, hidden), RedactFrom(Join(pieces, Placeholder()), values), more, gone)
    ensures forall h :: h in gone ==> h in values || h in hidden
    decreases |values|
  {
    if values == [] {
      more, gone := pieces, hidden;
    } else {
      var p, h := OneMoreHidden(pieces, hidden, values[0]);
      more, gone := AllHidden(p, h, values[1..]);
    }
  }

  lemma {:induction false} PieceIsInJoin(pieces: seq<string>, sep: string, i: nat, v: string)
    requires i < |pieces| && Contains(pieces[i], v)
    ensures Contains(Join(pieces, sep), v)
    decreases |pieces|
  {
    var rest := if |pieces| == 1 then "" else sep + Join(pieces[1..], sep);
    assert Join(pieces, sep) == pieces[0] + rest;
    if i == 0 {
      var j: nat :| OccursAt(pieces[0], v, j);
      assert (pieces[0] + rest)[j..j + |v|] == pieces[0][j..j + |v|];
      assert OccursAt(pieces[0] + rest, v, j);
    } else {
      PieceIsInJoin(pieces[1..], sep, i - 1, v);
      var j: nat :| OccursAt(Join(pieces[1..], sep), v, j);
      OccursInConcat(pieces[0] + sep, Join(pieces[1..], sep), v, j);
      assert pieces[0] + rest == pieces[0] + sep + Join(pieces[1..], sep);
    }
  }

  /**
   * The text is pieces with some of the values between them, no piece holds a value, and the
   * output is the same pieces with placeholders between them.
   */
  ghost predicate LosesOnly(s: string, out: string, values: seq<string>) {
    exists pieces, hidden ::
      && Kept(s, out, pieces, hidden)
      && (forall h :: h in hidden ==> h in values)
      && (forall i :: 0 <= i < |pieces| ==> Clean(pieces[i], values))
  }

  /** Nothing but secrets is lost. */
  lemma RestIsKept(s: string, values: seq<string>)
    requires NonEmpty(values) && AllApart(values)
    ensures LosesOnly(s, RedactFrom(s, values), values)
  {
    var pieces, hidden := AllHidden([s], [], values);
    forall i | 0 <= i < |pieces| ensures Clean(pieces[i], values) {
      forall k | 0 <= k < |values| ensures !Contains(pieces[i], values[k]) {
        NoneSurvives(s, values, k);
        if Contains(pieces[i], values[k]) { PieceIsInJoin(pieces, Placeholder(), i, values[k]); }
      }
    }
  }

  /** Value by value, each replaced at its leftmost occurrences that do not overlap. */
  ghost predicate RedactedBy(s: string, values: seq<string>, out: string)
    decreases |values|
  {
    if values == [] then out == s
    else exists next :: Replaced(s, values[0], Placeholder(), next) && RedactedBy(next, values[1..], out)
  }

  lemma {:induction false} RedactFromRedacts(s: string, values: seq<string>)
    requires NonEmpty(values)
    ensures RedactedBy(s, values, RedactFrom(s, values))
    decreases |values|
  {
    if values != [] {
      var next := ReplaceAll(s, values[0], Placeholder());
      ReplaceAllReplaces(s, values[0], Placeholder(), next);
      RedactFromRedacts(next, values[1..]);
    }
  }

  class Redactor {
    const values: seq<string>

    ghost predicate Valid() {
      LongestFirst(values) && NonEmpty(values)
    }

    /** New: drops empty secrets and sorts the others longest first, each as often as given. */
    constructor (secrets: seq<string>)
      ensures Valid()
      ensures forall v :: v != "" ==> multiset(values)[v] == multiset(secrets)[v]
    {
      var sorted := [];
      for i := 0 to |secrets|
        invariant LongestFirst(sorted) && NonEmpty(sorted)
        invariant forall v :: v != "" ==> multiset(sorted)[v] == multiset(secrets[..i])[v]
      {
        assert secrets[..i + 1] == secrets[..i] + [secrets[i]];
        if secrets[i] != "" {
          sorted := InsertByLength(sorted, secrets[i]);
        }
      }
      assert secrets[..|secrets|] == secrets;
      values := sorted;
    }

    method Redact(s: string) returns (out: string)
      requires Valid()
      ensures out == RedactFrom(s, values) && RedactedBy(s, values, out)
      ensures AllApart(values) ==> Clean(out, values) && RedactFrom(out, values) == out
      ensures AllApart(values) ==> LosesOnly(s, out, values)
      ensures Clean(s, values) ==> out == s
    {
      out := s;
      for i := 0 to |values|
        invariant NonEmpty(values[i..])
        invariant RedactFrom(s, values) == RedactFrom(out, values[i..])
      {
        assert values[i..][0] == values[i] && values[i..][1..] == values[i + 1..];
        out := ReplaceAll(out, values[i], Placeholder());
      }
      assert values[|values|..] == [];
      RedactFromRedacts(s, values);
      if AllApart(values) {
        RestIsKept(s, values);
        forall k | 0 <= k < |values| ensures !Contains(out, values[k]) { NoneSurvives(s, values, k); }
        CleanIsUntouched(out, values);
      }
      if Clean(s, values) {
        CleanIsUntouched(s, values);
      }
    }
  }

  method InsertByLength(xs: seq<string>, x: string) returns (ys: seq<string>)
    requires LongestFirst(xs) && NonEmpty(xs) && x != ""
    ensures LongestFirst(ys) && NonEmpty(ys)
    ensures multiset(ys) == multiset(xs) + multiset{x}
  {
    var at := 0;
    while at < |xs| && |xs[at]| >= |x|
      invariant 0 <= at <= |xs|
      invariant forall j :: 0 <= j < at ==> |xs[j]| >= |x|
    {
      at := at + 1;
    }
    ys := xs[..at] + [x] + xs[at..];
    assert xs == xs[..at] + xs[at..];
    InsertedInOrder(xs, x, at);
  }

  lemma InsertedInOrder(xs: seq<string>, x: string, at: nat)
    requires LongestFirst(xs) && NonEmpty(xs) && x != "" && at <= |xs|
    requires forall j :: 0 <= j < at ==> |xs[j]| >= |x|
    requires at < |xs| ==> |xs[at]| < |x|
    ensures LongestFirst(xs[..at] + [x] + xs[at..]) && NonEmpty(xs[..at] + [x] + xs[at..])
  {
    var ys := xs[..at] + [x] + xs[at..];
    forall i, j | 0 <= i < j < |ys| ensures |ys[i]| >= |ys[j]| {
      var a, b := if i < at then i else i - 1, if j < at then j else j - 1;
      if i != at && j != at { assert ys[i] == xs[a] && ys[j] == xs[b]; }
    }
  }

  /**
   * The promise of the package: whatever the text and however the secrets overlap, if no
   * secret holds a bracket or is part of the word REDACTED, none is left in the output, and
   * all the rest of the text is.
   */
  lemma SecretsNeverLeak(s: string, values: seq<string>)
    requires forall i :: 0 <= i < |values| ==>
               values[i] != "" && '[' !in values[i] && ']' !in values[i] && !Contains("REDACTED", values[i])
    ensures forall k :: 0 <= k < |values| ==> !Contains(RedactFrom(s, values), values[k])
    ensures RedactFrom(RedactFrom(s, values), values) == RedactFrom(s, values)
    ensures LosesOnly(s, RedactFrom(s, values), values)
  {
    forall i | 0 <= i < |values| ensures Apart(values[i]) { BracketFreeIsApart(values[i]); }
    forall k | 0 <= k < |values| ensures !Contains(RedactFrom(s, values), values[k]) { NoneSurvives(s, values, k); }
    CleanIsUntouched(RedactFrom(s, values), values);
    RestIsKept(s, values);
  }

  // ----- the condition is exact -----

  lemma OccursInConcat(a: string, b: string, v: string, i: nat)
    requires OccursAt(b, v, i)
    ensures OccursAt(a + b, v, |a| + i)
  {
    assert (a + b)[|a| + i..|a| + i + |v|] == b[i..i + |v|];
  }

  /** Where a value is replaced, the placeholder is left. */
  lemma {:induction false} ReplacedShowsPlaceholder(s: string, v: string, i: nat)
    requires v != "" && OccursAt(s, v, i)
    ensures Contains(ReplaceAll(s, v, Placeholder()), Placeholder())
    decreases |s|
  {
    if v <= s {
      var rest := ReplaceAll(s[|v|..], v, Placeholder());
      assert (Placeholder() + rest)[0..|Placeholder()|] == Placeholder();
      assert OccursAt(Placeholder() + rest, Placeholder(), 0);
    } else {
      AtTheFront(s, v);
      assert s[1..][i - 1..i - 1 + |v|] == s[i..i + |v|];
      ReplacedShowsPlaceholder(s[1..], v, i - 1);
      var rest := ReplaceAll(s[1..], v, Placeholder());
      var j: nat :| OccursAt(rest, Placeholder(), j);
      OccursInConcat([s[0]], rest, Placeholder(), j);
    }
  }

  /** So a placeholder, once there, stays: it is left alone or replaced by a text that shows another. */
  lemma PlaceholderStays(s: string, v: string)
    requires v != "" && Contains(s, Placeholder())
    ensures Contains(ReplaceAll(s, v, Placeholder()), Placeholder())
  {
    if Contains(s, v) {
      var i: nat :| OccursAt(s, v, i);
      ReplacedShowsPlaceholder(s, v, i);
    } else {
      NothingToReplace(s, v, Placeholder());
    }
  }

  lemma {:induction false} PlaceholderStaysToTheEnd(s: string, values: seq<string>)
    requires NonEmpty(values) && Contains(s, Placeholder())
    ensures Contains(RedactFrom(s, values), Placeholder())
    decreases |values|
  {
    if values != [] {
      PlaceholderStays(s, values[0]);
      PlaceholderStaysToTheEnd(ReplaceAll(s, values[0], Placeholder()), values[1..]);
    }
  }

  /** A text that holds one of the values shows a placeholder in the end. */
  lemma {:induction false} RedactedShowsPlaceholder(s: string, values: seq<string>, k: nat)
    requires NonEmpty(values) && k < |values| && Contains(s, values[k])
    ensures Contains(RedactFrom(s, values), Placeholder())
    decreases |values|
  {
    if Contains(s, values[0]) {
      var i: nat :| OccursAt(s, values[0], i);
      ReplacedShowsPlaceholder(s, values[0], i);
      PlaceholderStaysToTheEnd(ReplaceAll(s, values[0], Placeholder()), values[1..]);
    } else {
      NothingToReplace(s, values[0], Placeholder());
      assert k > 0 && values[1..][k - 1] == values[k];
      RedactedShowsPlaceholder(s, values[1..], k - 1);
    }
  }

  lemma OccursWithin(s: string, t: string, v: string, i: nat, j: nat)
    requires OccursAt(s, t, i) && OccursAt(t, v, j)
    ensures OccursAt(s, v, i + j)
  {
    SliceOfSlice(s, i, i + |t|, j, j + |v|);
  }

  /** A secret that is part of the placeholder is not hidden from the text that is that secret. */
  lemma PartOfPlaceholderLeaks(values: seq<string>, k: nat)
    requires NonEmpty(values) && k < |values| && Contains(Placeholder(), values[k])
    ensures Contains(RedactFrom(values[k], values), values[k])
  {
    var v := values[k];
    assert OccursAt(v, v, 0);
    RedactedShowsPlaceholder(v, values, k);
    var i: nat :| OccursAt(RedactFrom(v, values), Placeholder(), i);
    var j: nat :| OccursAt(Placeholder(), v, j);
    OccursWithin(RedactFrom(v, values), Placeholder(), v, i, j);
  }

  lemma WordIsInside(v: string)
    requires Contains("REDACTED", v)
    ensures Contains(Placeholder(), v)
  {
    var i: nat :| OccursAt("REDACTED", v, i);
    assert Placeholder()[1..9] == "REDACTED";
    SliceOfSlice(Placeholder(), 1, 9, i, i + |v|);
    assert OccursAt(Placeholder(), v, 1 + i);
  }

  ghost predicate NeverLeaks(values: seq<string>)
    requires NonEmpty(values)
  {
    forall s, k :: 0 <= k < |values| ==> !Contains(RedactFrom(s, values), values[k])
  }

  /**
   * Among secrets without brackets, exactly those lists are safe for every text in which no
   * secret is part of the word REDACTED.
   */
  lemma NeverLeaksIff(values: seq<string>)
    requires NonEmpty(values)
    requires forall i :: 0 <= i < |values| ==> '[' !in values[i] && ']' !in values[i]
    ensures NeverLeaks(values) <==> forall i :: 0 <= i < |values| ==> !Contains("REDACTED", values[i])
  {
    if forall i :: 0 <= i < |values| ==> !Contains("REDACTED", values[i]) {
      forall s, k | 0 <= k < |values| ensures !Contains(RedactFrom(s, values), values[k]) {
        SecretsNeverLeak(s, values);
      }
    }
    if k :| 0 <= k < |values| && Contains("REDACTED", values[k]) {
      WordIsInside(values[k]);
      PartOfPlaceholderLeaks(values, k);
    }
  }

  /** For instance the secret RED. */
  lemma SecretInsideThePlaceholderLeaks()
    ensures !NeverLeaks(["RED"])
  {
    var values := ["RED"];
    assert "REDACTED"[0..3] == "RED";
    assert OccursAt("REDACTED", values[0], 0);
    NeverLeaksIff(values);
  }
}
