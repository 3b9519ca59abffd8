/** Left-to-right sums, the reduction order of the accumulating loops in the source. */
module Sums {

  /** `s[0] + s[1] + ... + s[|s|-1]`, accumulated from the left. */
  function Sum(s: seq<real>): real
  {
    if |s| == 0 then 0.0 else Sum(s[..|s| - 1]) + s[|s| - 1]
  }

  /** A part of a positive whole, divided by the whole, lies between zero and one. */
  lemma FractionOfWhole(a: real, b: real)
    requires 0.0 <= a <= b && b > 0.0
    ensures 0.0 <= a / b <= 1.0
  {
    assert a / b * b == a;
  }

  /** Multiplying by an inverse is dividing. */
  lemma TimesInverse(a: real, d: real)
    requires d != 0.0
    ensures a * (1.0 / d) == a / d
  {
  }

  /** A sum of non-negative terms is non-negative. */
  lemma {:induction false} SumNonnegative(s: seq<real>)
    requires forall k :: 0 <= k < |s| ==> s[k] >= 0.0
    ensures Sum(s) >= 0.0
  {
    if |s| > 0 {
      SumNonnegative(s[..|s| - 1]);
    }
  }

  /** A sum of non-negative terms is at least each of its terms. */
  lemma {:induction false} SumAtLeastTerm(s: seq<real>, k: nat)
    requires forall j :: 0 <= j < |s| ==> s[j] >= 0.0
    requires k < |s|
    ensures Sum(s) >= s[k]
  {
    var n := |s| - 1;
    SumNonnegative(s[..n]);
    if k < n {
      SumAtLeastTerm(s[..n], k);
    }
  }

  /** Dividing every term by `d` divides the sum by `d`. */
  lemma {:induction false} SumScaled(s: seq<real>, d: real, t: seq<real>)
    requires d != 0.0
    requires |t| == |s| && forall k :: 0 <= k < |s| ==> t[k] == s[k] / d
    ensures Sum(t) == Sum(s) / d
  {
    if |s| > 0 {
      var n := |s| - 1;
      SumScaled(s[..n], d, t[..n]);
      assert Sum(t) == Sum(s[..n]) / d + s[n] / d;
    }
  }

  /** Trailing zeros do not change a sum. */
  lemma {:induction false} SumZeroTail(s: seq<real>, n: nat)
    requires n <= |s|
    requires forall k :: n <= k < |s| ==> s[k] == 0.0
    ensures Sum(s) == Sum(s[..n])
  {
    if |s| > n {
      var init := s[..|s| - 1];
      assert forall k :: n <= k < |init| ==> init[k] == s[k];
      SumZeroTail(init, n);
      assert init[..n] == s[..n];
      assert s[|s| - 1] == 0.0;
    } else {
      assert s[..n] == s;
    }
  }

  /** The largest element of a non-empty sequence (`torch.max` along one axis). */
  function Max(s: seq<real>): (r: real)
    requires |s| > 0
    ensures forall k :: 0 <= k < |s| ==> s[k] <= r
    ensures exists k :: 0 <= k < |s| && s[k] == r
  {
    if |s| == 1 then s[0]
    else
      var m := Max(s[..|s| - 1]);
      assert forall k :: 0 <= k < |s| - 1 ==> s[..|s| - 1][k] == s[k];
      if s[|s| - 1] > m then s[|s| - 1] else m
  }

  /** `Σ_{b<p} f(a, b)`: one row of a double loop, accumulated from the left. */
  function RowSum(f: (nat, nat) -> real, a: nat, p: nat): real
  {
    if p == 0 then 0.0 else RowSum(f, a, p - 1) + f(a, p - 1)
  }

  /** `Σ_{a<n} Σ_{b<p} f(a, b)`: a double loop with `a` outside, accumulated from the left. */
  function GridSum(f: (nat, nat) -> real, n: nat, p: nat): real
  {
    if n == 0 then 0.0 else GridSum(f, n - 1, p) + RowSum(f, n - 1, p)
  }

  /** Adding one more column to every row adds that column's sum. */
  lemma {:induction false} GridSumLastColumn(f: (nat, nat) -> real, n: nat, p: nat)
    ensures GridSum(f, n, p + 1) == GridSum(f, n, p) + ColumnSum(f, n, p)
  {
    if n > 0 {
      GridSumLastColumn(f, n - 1, p);
    }
  }

  /** `Σ_{a<n} f(a, b)`: one column. */
  function ColumnSum(f: (nat, nat) -> real, n: nat, b: nat): real
  {
    if n == 0 then 0.0 else ColumnSum(f, n - 1, b) + f(n - 1, b)
  }

  /** Summing a row of `f` is summing the matching column of its transpose `g`. */
  lemma {:induction false} RowIsTransposedColumn(f: (nat, nat) -> real, g: (nat, nat) -> real, a: nat, p: nat)
    requires forall b :: 0 <= b < p ==> g(b, a) == f(a, b)
    ensures RowSum(f, a, p) == ColumnSum(g, p, a)
  {
    if p > 0 {
      RowIsTransposedColumn(f, g, a, p - 1);
    }
  }

  /** The order of a finite double sum does not matter (exchange of summation). */
  lemma {:induction false} GridSumTranspose(f: (nat, nat) -> real, g: (nat, nat) -> real, n: nat, p: nat)
    requires forall a, b :: 0 <= a < n && 0 <= b < p ==> g(b, a) == f(a, b)
    ensures GridSum(f, n, p) == GridSum(g, p, n)
  {
    if n > 0 {
      GridSumTranspose(f, g, n - 1, p);
      RowIsTransposedColumn(f, g, n - 1, p);
      GridSumLastColumn(g, p, n - 1);
    } else {
      GridSumNoColumns(g, p);
    }
  }

  /** A double sum over an empty side is zero. */
  lemma {:induction false} GridSumNoColumns(f: (nat, nat) -> real, n: nat)
    ensures GridSum(f, n, 0) == 0.0
  {
    if n > 0 {
      GridSumNoColumns(f, n - 1);
    }
  }

  lemma {:induction false} GridSumNonnegative(f: (nat, nat) -> real, n: nat, p: nat)
    requires forall a, b :: 0 <= a < n && 0 <= b < p ==> f(a, b) >= 0.0
    ensures GridSum(f, n, p) >= 0.0
  {
    if n > 0 {
      GridSumNonnegative(f, n - 1, p);
      RowNonnegative(f, n - 1, p);
    }
  }

  lemma {:induction false} RowNonnegative(f: (nat, nat) -> real, a: nat, p: nat)
    requires forall b :: 0 <= b < p ==> f(a, b) >= 0.0
    ensures RowSum(f, a, p) >= 0.0
  {
    if p > 0 {
      RowNonnegative(f, a, p - 1);
    }
  }
}
