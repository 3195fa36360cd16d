/** strings.ReplaceAll, and what it does apart from how it goes about it. */
module Replacing {

  predicate OccursAt(s: string, v: string, i: nat) {
    i + |v| <= |s| && s[i..i + |v|] == v
  }

  ghost predicate Contains(s: string, v: string) {
    exists i: nat :: OccursAt(s, v, i)
  }

  /** strings.ReplaceAll for a non-empty `value`: leftmost matches, not overlapping. */
  function ReplaceAll(s: string, value: string, put: string): string
    requires value != ""
  {
    if s == "" then ""
    else if value <= s then put + ReplaceAll(s[|value|..], value, put)
    else [s[0]] + ReplaceAll(s[1..], value, put)
  }

  // ----- texts put together from pieces -----

  /** The pieces with one of `between` after each but the last. */
  function Weave(pieces: seq<string>, between: seq<string>): string
    requires |pieces| == |between| + 1
  {
    if between == [] then pieces[0] else pieces[0] + between[0] + Weave(pieces[1..], between[1..])
  }

  /** The pieces with the same text between any two. */
  function Join(pieces: seq<string>, sep: string): string
    requires pieces != []
  {
    if |pieces| == 1 then pieces[0] else pieces[0] + sep + Join(pieces[1..], sep)
  }

  lemma {:induction false} WeaveOfOne(pieces: seq<string>, sep: string)
    requires pieces != []
    ensures Weave(pieces, seq(|pieces| - 1, _ => sep)) == Join(pieces, sep)
    decreases |pieces|
  {
    var between := seq(|pieces| - 1, _ => sep);
    if |pieces| > 1 {
      assert between[1..] == seq(|pieces[1..]| - 1, _ => sep);
      WeaveOfOne(pieces[1..], sep);
    }
  }

  lemma {:induction false} WeaveOn(p: seq<string>, b: seq<string>, x: string, q: seq<string>, c: seq<string>)
    requires |p| == |b| + 1 && |q| == |c| + 1
    ensures Weave(p + q, b + [x] + c) == Weave(p, b) + x + Weave(q, c)
    decreases |p|
  {
    var all, between := p + q, b + [x] + c;
    if b == [] {
      assert all[1..] == q && between[1..] == c;
    } else {
      assert all[1..] == p[1..] + q && between[1..] == b[1..] + [x] + c;
      WeaveOn(p[1..], b[1..], x, q, c);
    }
  }

  lemma {:induction false} JoinOn(p: seq<string>, q: seq<string>, sep: string)
    requires p != [] && q != []
    ensures Join(p + q, sep) == Join(p, sep) + sep + Join(q, sep)
    decreases |p|
  {
    var all := p + q;
    if |p| == 1 {
      assert all[1..] == q;
    } else {
      assert all[1..] == p[1..] + q;
      JoinOn(p[1..], q, sep);
    }
  }

  // ----- the leftmost matches that do not overlap -----

  /** In the piece followed by the value, the value occurs at the end only. */
  ghost predicate FirstAtEnd(piece: string, v: string) {
    forall i: nat :: i < |piece| ==> !OccursAt(piece + v, v, i)
  }

  /** The text cut at the leftmost, not overlapping occurrences of the value. */
  ghost predicate IsSplit(s: string, v: string, pieces: seq<string>) {
    && pieces != [] && Join(pieces, v) == s
    && (forall i :: 0 <= i < |pieces| - 1 ==> FirstAtEnd(pieces[i], v))
    && !Contains(pieces[|pieces| - 1], v)
  }

  lemma NoneInPiece(piece: string, v: string)
    requires v != "" && FirstAtEnd(piece, v)
    ensures !Contains(piece, v)
  {
    if i: nat :| OccursAt(piece, v, i) {
      assert (piece + v)[i..i + |v|] == piece[i..i + |v|];
      assert OccursAt(piece + v, v, i);
    }
  }

  /** No piece holds the value. */
  lemma PiecesAreClean(s: string, v: string, pieces: seq<string>)
    requires v != "" && IsSplit(s, v, pieces)
    ensures forall i :: 0 <= i < |pieces| ==> !Contains(pieces[i], v)
  {
    forall i | 0 <= i < |pieces| ensures !Contains(pieces[i], v) {
      if i < |pieces| - 1 { NoneInPiece(pieces[i], v); }
    }
  }

  lemma AtTheFront(s: string, v: string)
    ensures OccursAt(s, v, 0) <==> v <= s
  {
    if |v| <= |s| { assert s[0..0 + |v|] == s[..|v|]; }
  }

  lemma LaterInTail(c: char, s: string, v: string, i: nat)
    requires i > 0
    ensures OccursAt([c] + s, v, i) <==> OccursAt(s, v, i - 1)
  {
    if i + |v| <= |s| + 1 { assert ([c] + s)[i..i + |v|] == s[i - 1..i - 1 + |v|]; }
  }

  /** One more character before a piece, where the value does not begin. */
  lemma PieceGrows(c: char, piece: string, v: string, whole: string)
    requires FirstAtEnd(piece, v) && [c] + piece + v <= whole && !(v <= whole)
    ensures FirstAtEnd([c] + piece, v)
  {
    assert [c] + piece + v == [c] + (piece + v);
    forall i: nat | i < |piece| + 1 ensures !OccursAt([c] + piece + v, v, i) {
      if i > 0 {
        LaterInTail(c, piece + v, v, i);
      } else {
        AtTheFront([c] + piece + v, v);
      }
    }
  }

  lemma LastGrows(c: char, piece: string, v: string)
    requires !Contains(piece, v) && !(v <= [c] + piece)
    ensures !Contains([c] + piece, v)
  {
    forall i: nat ensures !OccursAt([c] + piece, v, i) {
      if i > 0 { LaterInTail(c, piece, v, i); } else { AtTheFront([c] + piece, v); }
    }
  }

  lemma SplitGrows(s: string, v: string, rest: seq<string>)
    requires s != "" && v != "" && !(v <= s) && IsSplit(s[1..], v, rest)
    ensures IsSplit(s, v, [[s[0]] + rest[0]] + rest[1..])
  {
    var first := [s[0]] + rest[0];
    var pieces := [first] + rest[1..];
    JoinGrows(s[0], rest, v);
    assert s == [s[0]] + s[1..];
    if |rest| == 1 {
      LastGrows(s[0], rest[0], v);
    } else {
      assert s == first + v + Join(rest[1..], v);
      PieceGrows(s[0], rest[0], v, s);
      assert forall i :: 0 < i < |pieces| ==> pieces[i] == rest[i];
    }
  }

  lemma JoinInFront(rest: seq<string>, sep: string)
    requires rest != []
    ensures Join([""] + rest, sep) == sep + Join(rest, sep)
  {
    assert ([""] + rest)[1..] == rest;
  }

  lemma JoinGrows(c: char, rest: seq<string>, sep: string)
    requires rest != []
    ensures Join([[c] + rest[0]] + rest[1..], sep) == [c] + Join(rest, sep)
  {
    assert ([[c] + rest[0]] + rest[1..])[1..] == rest[1..];
  }

  lemma SplitInFront(s: string, v: string, rest: seq<string>)
    requires v <= s && IsSplit(s[|v|..], v, rest)
    ensures IsSplit(s, v, [""] + rest)
  {
    JoinInFront(rest, v);
    assert forall i :: 0 < i < |rest| + 1 ==> ([""] + rest)[i] == rest[i - 1];
  }

  /** What one replacement computes: the pieces stay, the value between them gives way. */
  lemma {:induction false} ReplacedPiecewise(s: string, v: string, put: string) returns (pieces: seq<string>)
    requires v != ""
    ensures IsSplit(s, v, pieces) && ReplaceAll(s, v, put) == Join(pieces, put)
    decreases |s|
  {
    if s == "" {
      pieces := [""];
    } else if v <= s {
      var rest := ReplacedPiecewise(s[|v|..], v, put);
      SplitInFront(s, v, rest);
      JoinInFront(rest, put);
      pieces := [""] + rest;
    } else {
      var rest := ReplacedPiecewise(s[1..], v, put);
      SplitGrows(s, v, rest);
      JoinGrows(s[0], rest, put);
      pieces := [[s[0]] + rest[0]] + rest[1..];
    }
  }

  lemma FirstMatch(s: string, v: string, a: string, ta: string, b: string, tb: string)
    requires s == a + v + ta && s == b + v + tb && FirstAtEnd(b, v)
    ensures |b| <= |a|
  {
    if |a| < |b| { MatchInside(s, v, a, ta, b, tb); }
  }

  lemma MatchInside(s: string, v: string, a: string, ta: string, b: string, tb: string)
    requires s == a + v + ta && s == b + v + tb && |a| < |b|
    ensures OccursAt(b + v, v, |a|)
  {
    assert (b + v)[|a|..|a| + |v|] == s[|a|..|a| + |v|] == v;
  }

  lemma MatchIsContained(a: string, v: string, t: string)
    ensures Contains(a + v + t, v)
  {
    assert (a + v + t)[|a|..|a| + |v|] == v;
    assert OccursAt(a + v + t, v, |a|);
  }

  /** There is one such cut, so the result of a replacement is determined by it. */
  lemma {:induction false} SplitIsUnique(s: string, v: string, a: seq<string>, b: seq<string>)
    requires v != "" && IsSplit(s, v, a) && IsSplit(s, v, b)
    ensures a == b
    decreases |a|
  {
    if |a| == 1 || |b| == 1 {
      if |b| > 1 { MatchIsContained(b[0], v, Join(b[1..], v)); }
      if |a| > 1 { MatchIsContained(a[0], v, Join(a[1..], v)); }
    } else {
      var ta, tb := Join(a[1..], v), Join(b[1..], v);
      FirstMatch(s, v, a[0], ta, b[0], tb);
      FirstMatch(s, v, b[0], tb, a[0], ta);
      assert a[0] == s[..|a[0]|] == b[0];
      assert ta == s[|a[0]| + |v|..] == tb;
      SplitIsUnique(ta, v, a[1..], b[1..]);
    }
  }

  /** `out` is `s` with every leftmost, not overlapping occurrence of `v` replaced. */
  ghost predicate Replaced(s: string, v: string, put: string, out: string) {
    exists pieces :: IsSplit(s, v, pieces) && out == Join(pieces, put)
  }

  lemma ReplaceAllReplaces(s: string, v: string, put: string, out: string)
    requires v != ""
    ensures Replaced(s, v, put, out) <==> out == ReplaceAll(s, v, put)
  {
    var pieces := ReplacedPiecewise(s, v, put);
    if Replaced(s, v, put, out) {
      var others :| IsSplit(s, v, others) && out == Join(others, put);
      SplitIsUnique(s, v, pieces, others);
    }
  }
}
