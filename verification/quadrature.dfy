/** Numerical Casimir–Polder integration over the 23 imaginary frequencies (`trapzd`). */
module Quadrature {
  import opened Tables

  /** The fixed quadrature weights, one per frequency sample. */
  const CasimirPolderWeights: seq<real> := [
    0.0499990000000000, 0.0999990000000000, 0.1500000000000000, 0.2000000000000000,
    0.2000000000000000, 0.2000000000000000, 0.2000000000000000, 0.2000000000000000,
    0.2000000000000000, 0.2000000000000000, 0.2000000000000000, 0.3000000000000000,
    0.4000000000000000, 0.4000000000000000, 0.4000000000000000, 0.4000000000000000,
    0.7000000000000000, 1.0000000000000000, 1.5000000000000000, 2.0000000000000000,
    3.5000000000000000, 5.0000000000000000, 2.5000000000000000
  ]

  /** One weight per frequency, and every weight is positive. */
  lemma WeightsPositive()
    ensures |CasimirPolderWeights| == Frequencies
    ensures forall w :: 0 <= w < Frequencies ==> CasimirPolderWeights[w] > 0.0
  {
  }

  /** `Σ_{w<n} weights[w] · a[w] · b[w]`, accumulated from the left. */
  function WeightedProducts(a: seq<real>, b: seq<real>, n: nat): real
    requires n <= Frequencies && n <= |a| && n <= |b|
  {
    if n == 0 then 0.0
    else WeightedProducts(a, b, n - 1) + CasimirPolderWeights[n - 1] * a[n - 1] * b[n - 1]
  }

  /** The Casimir–Polder integral of two polarisability samples: half the weighted sum of products. */
  function CasimirPolder(a: seq<real>, b: seq<real>): real
    requires |a| >= Frequencies && |b| >= Frequencies
  {
    0.5 * WeightedProducts(a, b, |CasimirPolderWeights|)
  }

  /** `trapzd`: the 23-step accumulation loop. */
  method Trapzd(a: seq<real>, b: seq<real>) returns (c6: real)
    requires |a| >= Frequencies && |b| >= Frequencies
    ensures c6 == CasimirPolder(a, b)
  {
    var sum := 0.0;
    for w := 0 to Frequencies
      invariant sum == WeightedProducts(a, b, w)
    {
      sum := sum + CasimirPolderWeights[w] * a[w] * b[w];
    }
    c6 := 0.5 * sum;
  }

  lemma {:induction false} WeightedProductsSymmetric(a: seq<real>, b: seq<real>, n: nat)
    requires n <= Frequencies && n <= |a| && n <= |b|
    ensures WeightedProducts(a, b, n) == WeightedProducts(b, a, n)
  {
    if n > 0 {
      WeightedProductsSymmetric(a, b, n - 1);
      assert a[n - 1] * b[n - 1] == b[n - 1] * a[n - 1];
    }
  }

  /** The integral does not depend on the order of its two arguments. */
  lemma CasimirPolderSymmetric(a: seq<real>, b: seq<real>)
    requires |a| >= Frequencies && |b| >= Frequencies
    ensures CasimirPolder(a, b) == CasimirPolder(b, a)
  {
    WeightedProductsSymmetric(a, b, Frequencies);
  }

  lemma {:induction false} WeightedProductsNonnegative(a: seq<real>, b: seq<real>, n: nat)
    requires n <= Frequencies && n <= |a| && n <= |b|
    requires forall w :: 0 <= w < n ==> a[w] >= 0.0 && b[w] >= 0.0
    ensures WeightedProducts(a, b, n) >= 0.0
  {
    if n > 0 {
      WeightedProductsNonnegative(a, b, n - 1);
      WeightsPositive();
      var x := CasimirPolderWeights[n - 1] * a[n - 1];
      assert x >= 0.0;
      assert x * b[n - 1] >= 0.0;
    }
  }

  /** Non-negative polarisabilities give a non-negative integral, since every weight is positive. */
  lemma CasimirPolderNonnegative(a: seq<real>, b: seq<real>)
    requires |a| >= Frequencies && |b| >= Frequencies
    requires forall w :: 0 <= w < Frequencies ==> a[w] >= 0.0 && b[w] >= 0.0
    ensures CasimirPolder(a, b) >= 0.0
  {
    WeightedProductsNonnegative(a, b, Frequencies);
  }
}
