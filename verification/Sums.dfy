/** Sums and counts over sequences, with the facts the protocol invariants need. */
module Sums {

  function Sum(s: seq<nat>): nat {
    if s == [] then 0 else s[0] + Sum(s[1..])
  }

  lemma {:induction false} SumUpdate(s: seq<nat>, i: nat, v: nat)
    requires i < |s|
    ensures Sum(s[i := v]) == Sum(s) - s[i] + v
  {
    if i == 0 {
      assert s[0 := v][1..] == s[1..];
    } else {
      assert s[i := v][1..] == s[1..][i - 1 := v];
      SumUpdate(s[1..], i - 1, v);
    }
  }

  lemma {:induction false} SumAppend(s: seq<nat>, v: nat)
    ensures Sum(s + [v]) == Sum(s) + v
  {
    if s != [] {
      assert (s + [v])[1..] == s[1..] + [v];
      SumAppend(s[1..], v);
    }
  }

  ghost predicate Below(a: seq<nat>, b: seq<nat>) {
    |a| == |b| && forall i :: 0 <= i < |a| ==> a[i] <= b[i]
  }

  /** A pointwise bound on two sequences bounds their sums, and equal sums force equality. */
  lemma {:induction false} SumBelow(a: seq<nat>, b: seq<nat>)
    requires Below(a, b)
    ensures Sum(a) <= Sum(b)
    ensures Sum(a) == Sum(b) ==> a == b
  {
    if a != [] {
      SumBelow(a[1..], b[1..]);
      if Sum(a) == Sum(b) {
        assert a == [a[0]] + a[1..] && b == [b[0]] + b[1..];
      }
    }
  }

  ghost predicate AllZero(s: seq<nat>) {
    forall i :: 0 <= i < |s| ==> s[i] == 0
  }

  lemma {:induction false} SumZero(s: seq<nat>)
    ensures Sum(s) == 0 <==> AllZero(s)
  {
    if s != [] {
      SumZero(s[1..]);
      if AllZero(s) {
        forall i | 0 <= i < |s| - 1 ensures s[1..][i] == 0 { assert s[1..][i] == s[i + 1]; }
      }
      if Sum(s) == 0 {
        assert s == [s[0]] + s[1..];
      }
    }
  }

  function CountTrue(s: seq<bool>): nat {
    if s == [] then 0 else (if s[0] then 1 else 0) + CountTrue(s[1..])
  }

  lemma {:induction false} CountUpdate(s: seq<bool>, i: nat, v: bool)
    requires i < |s|
    ensures CountTrue(s[i := v]) == CountTrue(s) - (if s[i] then 1 else 0) + (if v then 1 else 0)
  {
    if i == 0 {
      assert s[0 := v][1..] == s[1..];
    } else {
      assert s[i := v][1..] == s[1..][i - 1 := v];
      CountUpdate(s[1..], i - 1, v);
    }
  }

  lemma {:induction false} CountBounds(s: seq<bool>)
    ensures CountTrue(s) <= |s|
    ensures CountTrue(s) == |s| <==> forall i :: 0 <= i < |s| ==> s[i]
    ensures CountTrue(s) == 0 <==> forall i :: 0 <= i < |s| ==> !s[i]
  {
    if s != [] {
      CountBounds(s[1..]);
      assert forall i :: 0 < i < |s| ==> s[i] == s[1..][i - 1];
      assert s[0] == [s[0]][0];
    }
  }

  lemma {:induction false} CountAppend(s: seq<bool>, v: bool)
    ensures CountTrue(s + [v]) == CountTrue(s) + (if v then 1 else 0)
  {
    if s == [] {
      assert s + [v] == [v];
    } else {
      assert (s + [v])[1..] == s[1..] + [v];
      CountAppend(s[1..], v);
    }
  }
}
