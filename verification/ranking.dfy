/** Finite sets listed by a rank that tells their elements apart. */
module Ranking {

  ghost predicate Rising(list: seq<nat>, rank: nat -> int) {
    forall i, j :: 0 <= i < j < |list| ==> rank(list[i]) < rank(list[j])
  }

  ghost predicate TellsApart(ids: set<nat>, rank: nat -> int) {
    forall a, b :: a in ids && b in ids && a != b ==> rank(a) != rank(b)
  }

  ghost predicate ListOf(list: seq<nat>, ids: set<nat>, rank: nat -> int) {
    Rising(list, rank) && |list| == |ids| && forall x :: x in list <==> x in ids
  }

  /** Where an element goes. */
  lemma Place(list: seq<nat>, x: nat, rank: nat -> int) returns (at: nat)
    requires Rising(list, rank) && forall i :: 0 <= i < |list| ==> rank(list[i]) != rank(x)
    ensures at <= |list|
    ensures forall i :: 0 <= i < at ==> rank(list[i]) < rank(x)
    ensures forall i :: at <= i < |list| ==> rank(x) < rank(list[i])
  {
    at := 0;
    while at < |list| && rank(list[at]) < rank(x)
      invariant at <= |list|
      invariant forall i :: 0 <= i < at ==> rank(list[i]) < rank(x)
    {
      at := at + 1;
    }
  }

  lemma InsertedRises(list: seq<nat>, x: nat, at: nat, rank: nat -> int)
    requires Rising(list, rank) && at <= |list|
    requires forall i :: 0 <= i < at ==> rank(list[i]) < rank(x)
    requires forall i :: at <= i < |list| ==> rank(x) < rank(list[i])
    ensures Rising(list[..at] + [x] + list[at..], rank)
    ensures forall y :: y in list[..at] + [x] + list[at..] <==> y in list || y == x
  {
    var more := list[..at] + [x] + list[at..];
    assert list == list[..at] + list[at..];
    forall i, j | 0 <= i < j < |more| ensures rank(more[i]) < rank(more[j]) {
      var a, b := if i < at then i else i - 1, if j < at then j else j - 1;
      if i != at && j != at { assert more[i] == list[a] && more[j] == list[b]; }
    }
  }

  /** Every finite set can be listed. */
  lemma {:induction false} Listed(ids: set<nat>, rank: nat -> int) returns (list: seq<nat>)
    requires TellsApart(ids, rank)
    ensures ListOf(list, ids, rank)
    decreases |ids|
  {
    list := [];
    if ids != {} {
      var x :| x in ids;
      var rest := Listed(ids - {x}, rank);
      forall i | 0 <= i < |rest| ensures rank(rest[i]) != rank(x) { assert rest[i] in rest; }
      var at := Place(rest, x, rank);
      InsertedRises(rest, x, at, rank);
      list := rest[..at] + [x] + rest[at..];
    }
  }
}
