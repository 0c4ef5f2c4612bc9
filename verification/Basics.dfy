/** Shared vocabulary: optional values and facts about duplicate-free sequences of task ids. */
module Basics {
  datatype Option<+T> = None | Some(value: T)

  /** No id occurs twice. */
  ghost predicate Distinct(q: seq<nat>) {
    forall i, j :: 0 <= i < j < |q| ==> q[i] != q[j]
  }

  /** Id `x` does not occur. */
  ghost predicate Absent(q: seq<nat>, x: nat) {
    forall i :: 0 <= i < |q| ==> q[i] != x
  }

  ghost predicate Bounded(q: seq<nat>, n: nat) {
    forall i :: 0 <= i < |q| ==> q[i] < n
  }

  /** The element at position `i`, or none past the end. */
  function Nth(q: seq<nat>, i: nat): Option<nat> {
    if i < |q| then Some(q[i]) else None
  }

  /** `q` with `x` put at position `i`. */
  function InsertAt(q: seq<nat>, i: nat, x: nat): (r: seq<nat>)
    requires i <= |q|
    ensures |r| == |q| + 1 && r[i] == x
    ensures forall j :: 0 <= j < i ==> r[j] == q[j]
    ensures forall j :: i < j < |r| ==> r[j] == q[j - 1]
  {
    q[..i] + [x] + q[i..]
  }

  lemma InsertAtKeeps(q: seq<nat>, i: nat, x: nat)
    requires i <= |q|
    ensures forall y :: y in InsertAt(q, i, x) <==> y == x || y in q
    ensures Distinct(q) && Absent(q, x) ==> Distinct(InsertAt(q, i, x))
  {
    assert q == q[..i] + q[i..];
  }

  /** `q` without the first occurrence of `x`. */
  function Without(q: seq<nat>, x: nat): (r: seq<nat>)
    ensures forall i :: 0 <= i < |r| ==> r[i] in q
  {
    if q == [] then []
    else if q[0] == x then q[1..]
    else [q[0]] + Without(q[1..], x)
  }

  lemma {:induction false} WithoutAbsent(q: seq<nat>, x: nat)
    requires Absent(q, x)
    ensures Without(q, x) == q
  {
    if q != [] {
      WithoutAbsent(q[1..], x);
    }
  }

  /** `q` without the element at position `i`. */
  function RemoveAt(q: seq<nat>, i: nat): (r: seq<nat>)
    requires i < |q|
    ensures |r| == |q| - 1
    ensures forall j :: 0 <= j < i ==> r[j] == q[j]
    ensures forall j :: i <= j < |r| ==> r[j] == q[j + 1]
  {
    q[..i] + q[i + 1..]
  }

  lemma {:induction false} WithoutAt(q: seq<nat>, i: nat)
    requires i < |q| && forall j :: 0 <= j < i ==> q[j] != q[i]
    ensures Without(q, q[i]) == RemoveAt(q, i)
  {
    if i > 0 {
      assert q[0] != q[i];
      WithoutAt(q[1..], i - 1);
      assert RemoveAt(q, i) == [q[0]] + RemoveAt(q[1..], i - 1);
    }
  }
}
