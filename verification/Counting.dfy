/** Counting the elements of sequences of different numbers. */
module Counting {

  ghost predicate Distinct(q: seq<nat>) {
    forall i, j :: 0 <= i < j < |q| ==> q[i] != q[j]
  }

  function Elems(q: seq<nat>): (e: set<nat>)
    ensures forall x :: x in e <==> x in q
  {
    if q == [] then {} else
      assert q == q[..|q| - 1] + [q[|q| - 1]];
      Elems(q[..|q| - 1]) + {q[|q| - 1]}
  }

  function Below(n: nat): (e: set<nat>)
    ensures forall x: nat :: x in e <==> x < n
    ensures |e| == n
  {
    if n == 0 then {} else Below(n - 1) + {n - 1}
  }

  lemma {:induction false} DistinctCount(q: seq<nat>)
    requires Distinct(q)
    ensures |Elems(q)| == |q|
  {
    if q != [] {
      DistinctCount(q[..|q| - 1]);
      assert q[|q| - 1] !in Elems(q[..|q| - 1]);
    }
  }

  /** n - 1 different numbers below n, and one that is not among them, are all there are. */
  lemma Pigeonhole(q: seq<nat>, n: nat, f: nat)
    requires |q| + 1 == n && Distinct(q) && f < n && f !in q && forall i :: 0 <= i < |q| ==> q[i] < n
    ensures forall g: nat :: g < n && g != f ==> g in q
  {
    hide Below, Distinct;
    assert |Elems(q)| == |q| by { DistinctCount(q); }
    var all := Elems(q) + {f};
    assert all <= Below(n) && |all| == n;
    SubsetOfSameSize(all, Below(n));
  }

  /** Fewer than n different numbers leave one below n out. */
  lemma SomeoneMissing(q: seq<nat>, n: nat) returns (g: nat)
    requires |q| < n && Distinct(q) && forall i :: 0 <= i < |q| ==> q[i] < n
    ensures g < n && g !in q
  {
    DistinctCount(q);
    assert Elems(q) <= Below(n);
    var rest := Below(n) - Elems(q);
    assert |rest| == n - |q|;
    g :| g in rest;
  }

  lemma SubsetOfSameSize(a: set<nat>, b: set<nat>)
    requires a <= b && |a| == |b|
    ensures a == b
  {
    assert |b - a| == |b| - |a|;
  }
}
