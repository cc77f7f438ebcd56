/** Sums of integer sequences and the few laws the power accounts need. */
module Sums {

  function Min(a: int, b: int): int { if a < b then a else b }

  /** What is left of `a` after taking away `b`, never below zero. */
  function Monus(a: int, b: int): (r: nat) { if a < b then 0 else a - b }

  /** The sum of the first `k` elements. */
  function SumTo(a: seq<int>, k: nat): int
    requires k <= |a|
  {
    if k == 0 then 0 else SumTo(a, k - 1) + a[k - 1]
  }

  function Sum(a: seq<int>): int { SumTo(a, |a|) }

  /** The sum of a sequence of naturals, known to be one. */
  function Total(a: seq<nat>): (r: nat)
    ensures r == Sum(a)
  {
    SumNat(a, |a|);
    Sum(a)
  }

  /** Pointwise sum of two sequences of the same length. */
  function Add(a: seq<nat>, b: seq<nat>): (r: seq<nat>)
    requires |a| == |b|
    ensures |r| == |a|
    ensures forall i {:trigger r[i]} :: 0 <= i < |a| ==> r[i] == a[i] + b[i]
  {
    seq(|a|, i requires 0 <= i < |a| => a[i] + b[i])
  }

  /** Pointwise difference; `b` is below `a` everywhere. */
  function Less(a: seq<nat>, b: seq<nat>): (r: seq<nat>)
    requires |a| == |b|
    requires forall i :: 0 <= i < |a| ==> b[i] <= a[i]
    ensures |r| == |a|
    ensures forall i {:trigger r[i]} :: 0 <= i < |a| ==> r[i] == a[i] - b[i]
  {
    seq(|a|, i requires 0 <= i < |a| => a[i] - b[i])
  }

  lemma {:induction false} SumNat(a: seq<nat>, k: nat)
    requires k <= |a|
    ensures SumTo(a, k) >= 0
  {
    if k > 0 { SumNat(a, k - 1); }
  }

  /** Prefix sums of naturals grow. */
  lemma {:induction false} SumGrows(a: seq<nat>, j: nat, k: nat)
    requires j <= k <= |a|
    ensures 0 <= SumTo(a, j) <= SumTo(a, k)
    ensures j < k ==> SumTo(a, j) + a[j] <= SumTo(a, k)
    decreases k
  {
    if j == k { SumNat(a, j); } else { SumGrows(a, j, k - 1); }
  }

  lemma {:induction false} SumSame(a: seq<int>, b: seq<int>, k: nat)
    requires k <= |a| && k <= |b|
    requires forall i :: 0 <= i < k ==> a[i] == b[i]
    ensures SumTo(a, k) == SumTo(b, k)
  {
    if k > 0 { SumSame(a, b, k - 1); }
  }

  lemma {:induction false} SumConst(a: seq<int>, v: int, k: nat)
    requires k <= |a|
    requires forall i :: 0 <= i < k ==> a[i] == v
    ensures SumTo(a, k) == v * k
  {
    if k > 0 {
      SumConst(a, v, k - 1);
      assert v * k == v * (k - 1) + v;
    }
  }

  lemma {:induction false} SumAddTo(a: seq<nat>, b: seq<nat>, k: nat)
    requires |a| == |b| && k <= |a|
    ensures SumTo(Add(a, b), k) == SumTo(a, k) + SumTo(b, k)
  {
    if k > 0 { SumAddTo(a, b, k - 1); }
  }

  lemma {:induction false} SumLessTo(a: seq<nat>, b: seq<nat>, k: nat)
    requires |a| == |b| && k <= |a|
    requires forall i :: 0 <= i < |a| ==> b[i] <= a[i]
    ensures SumTo(Less(a, b), k) == SumTo(a, k) - SumTo(b, k)
  {
    if k > 0 { SumLessTo(a, b, k - 1); }
  }

  lemma {:induction false} SumMonotone(a: seq<int>, b: seq<int>, k: nat)
    requires k <= |a| && k <= |b|
    requires forall i :: 0 <= i < k ==> a[i] <= b[i]
    ensures SumTo(a, k) <= SumTo(b, k)
  {
    if k > 0 { SumMonotone(a, b, k - 1); }
  }

  /** Changing one element changes the sum by the difference. */
  lemma {:induction false} SumUpdate(a: seq<int>, j: nat, v: int, k: nat)
    requires j < k <= |a|
    ensures SumTo(a[j := v], k) == SumTo(a, k) - a[j] + v
  {
    if j < k - 1 {
      SumUpdate(a, j, v, k - 1);
    } else {
      SumSame(a[j := v], a, j);
    }
  }

  /** Four accounts kept side by side. */
  lemma {:induction false} SumMixed(a: seq<int>, b: seq<int>, c: seq<int>, d: seq<int>, e: seq<int>, k: nat)
    requires |a| == |b| == |c| == |d| == |e| && k <= |a|
    requires forall i {:trigger a[i]} :: 0 <= i < |a| ==> a[i] + d[i] == b[i] + c[i] + e[i]
    ensures SumTo(a, k) + SumTo(d, k) == SumTo(b, k) + SumTo(c, k) + SumTo(e, k)
  {
    if k > 0 { SumMixed(a, b, c, d, e, k - 1); }
  }

  // ---- short sequences ---------------------------------------------------------------

  lemma SumOfTwo(a: seq<int>)
    requires |a| == 2
    ensures SumTo(a, 1) == a[0] && Sum(a) == a[0] + a[1]
  {
    assert SumTo(a, 1) == SumTo(a, 0) + a[0];
  }

  lemma SumOfThree(a: seq<int>)
    requires |a| == 3
    ensures SumTo(a, 1) == a[0] && SumTo(a, 2) == a[0] + a[1] && Sum(a) == a[0] + a[1] + a[2]
  {
    assert SumTo(a, 1) == SumTo(a, 0) + a[0];
    assert SumTo(a, 2) == SumTo(a, 1) + a[1];
  }
}
