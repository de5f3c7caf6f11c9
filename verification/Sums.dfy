/** Sums of real vectors. */
module Sums {
  function Sum(s: seq<real>): real {
    if s == [] then 0.0 else s[0] + Sum(s[1..])
  }

  lemma {:induction false} SumConcat(a: seq<real>, b: seq<real>)
    ensures Sum(a + b) == Sum(a) + Sum(b)
  {
    if a == [] {
      assert a + b == b;
    } else {
      assert (a + b)[1..] == a[1..] + b;
      SumConcat(a[1..], b);
    }
  }

  ghost predicate NonNegative(s: seq<real>) {
    forall i :: 0 <= i < |s| ==> s[i] >= 0.0
  }

  lemma {:induction false} SumNonNegative(s: seq<real>)
    requires NonNegative(s)
    ensures Sum(s) >= 0.0
    ensures forall i :: 0 <= i < |s| ==> s[i] <= Sum(s)
  {
    if s != [] {
      SumNonNegative(s[1..]);
      forall i | 0 <= i < |s| ensures s[i] <= Sum(s) {
        if i > 0 { assert s[i] == s[1..][i - 1]; }
      }
    }
  }

  /** Dividing every entry by d divides the sum. */
  function Scaled(s: seq<real>, d: real): (r: seq<real>)
    requires d != 0.0
    ensures |r| == |s| && forall i :: 0 <= i < |s| ==> r[i] == s[i] / d
  {
    seq(|s|, i requires 0 <= i < |s| => s[i] / d)
  }

  lemma {:induction false} SumScaled(s: seq<real>, d: real)
    requires d != 0.0
    ensures Sum(Scaled(s, d)) == Sum(s) / d
  {
    if s != [] {
      assert Scaled(s, d)[1..] == Scaled(s[1..], d);
      SumScaled(s[1..], d);
      QuotientsAdd(s[0], Sum(s[1..]), d);
    }
  }

  lemma QuotientsAdd(a: real, b: real, d: real)
    requires d != 0.0
    ensures a / d + b / d == (a + b) / d
  {
  }

  /** A product under a name, so that proofs do not reason about it by accident. */
  function Times(a: real, b: real): real { a * b }

  /** Entrywise sum of two vectors of one length. */
  function Plus(a: seq<real>, b: seq<real>): (r: seq<real>)
    requires |a| == |b|
    ensures |r| == |a| && forall i :: 0 <= i < |a| ==> r[i] == a[i] + b[i]
  {
    seq(|a|, i requires 0 <= i < |a| => a[i] + b[i])
  }

  /** The entries of v at the given positions. */
  function SumAt(v: seq<real>, at: seq<nat>): real
    requires forall i :: 0 <= i < |at| ==> at[i] < |v|
  {
    if at == [] then 0.0 else v[at[0]] + SumAt(v, at[1..])
  }

  lemma {:induction false} SumAtPlus(a: seq<real>, b: seq<real>, at: seq<nat>)
    requires |a| == |b| && forall i :: 0 <= i < |at| ==> at[i] < |a|
    ensures SumAt(Plus(a, b), at) == SumAt(a, at) + SumAt(b, at)
  {
    if at != [] {
      SumAtPlus(a, b, at[1..]);
    }
  }

  lemma {:induction false} SumAtConcat(v: seq<real>, x: seq<nat>, y: seq<nat>)
    requires forall i :: 0 <= i < |x| ==> x[i] < |v|
    requires forall i :: 0 <= i < |y| ==> y[i] < |v|
    ensures SumAt(v, x + y) == SumAt(v, x) + SumAt(v, y)
  {
    if x == [] {
      assert x + y == y;
    } else {
      assert (x + y)[1..] == x[1..] + y;
      SumAtConcat(v, x[1..], y);
    }
  }

  /** The positions from k up. */
  function Upward(k: nat, n: nat): (r: seq<nat>)
    requires k <= n
    ensures |r| == n - k && forall i :: 0 <= i < |r| ==> r[i] == k + i
    decreases n - k
  {
    if k == n then [] else [k] + Upward(k + 1, n)
  }

  lemma {:induction false} SumAtUpward(v: seq<real>, k: nat)
    requires k <= |v|
    ensures SumAt(v, Upward(k, |v|)) == Sum(v[k..])
    decreases |v| - k
  {
    if k < |v| {
      SumAtUpward(v, k + 1);
      assert Upward(k, |v|)[1..] == Upward(k + 1, |v|);
      assert v[k..][1..] == v[k + 1..];
    }
  }

  lemma WithoutFirst<T>(a: seq<T>)
    requires a != []
    ensures multiset(a[1..]) == multiset(a) - multiset{a[0]}
  {
    assert a == [a[0]] + a[1..];
  }
}
