/** The charge-scaling function `zeta` and its elementwise form `zeta2`. */
module ChargeScaling {
  import opened Outcome
  import opened Transcendental

  /**
   * `zeta(a, c, qref, qmod)`: the scaling of a polarisability from the reference charge `qref`
   * to the charge `qmod` (both effective charges); a non-positive `qmod` gives the ceiling `exp(a)`.
   */
  function Zeta(m: ExpPow, a: real, c: real, qref: real, qmod: real): real
  {
    if qmod <= 0.0 then m.exp(a)
    else m.exp(a * (1.0 - m.exp(c * (1.0 - qref / qmod))))
  }

  /** For a non-positive effective charge the result does not depend on the reference charge. */
  lemma ZetaIgnoresReferenceBelowZero(m: ExpPow, a: real, c: real, qref1: real, qref2: real, qmod: real)
    requires qmod <= 0.0
    ensures Zeta(m, a, c, qref1, qmod) == Zeta(m, a, c, qref2, qmod) == m.exp(a)
  {
  }

  /** At the reference charge the scaling is exactly one. */
  lemma ZetaAtReferenceCharge(m: ExpPow, a: real, c: real, q: real)
    requires Sound(m)
    requires q > 0.0
    ensures Zeta(m, a, c, q, q) == 1.0
  {
    var ratio := q / q;
    assert ratio == 1.0;
    var exponent := c * (1.0 - ratio);
    assert exponent == 0.0;
    var inner := m.exp(exponent);
    assert inner == 1.0;
    var outer := a * (1.0 - inner);
    assert outer == 0.0;
    assert Zeta(m, a, c, q, q) == m.exp(outer);
  }

  /** The scaling factor is always positive. */
  lemma ZetaPositive(m: ExpPow, a: real, c: real, qref: real, qmod: real)
    requires Sound(m)
    ensures Zeta(m, a, c, qref, qmod) > 0.0
  {
  }

  /**
   * `zeta2(scale, gam, qref, qmod)`: the same rule as a `torch.where` over a matrix of reference
   * charges (one row per atom), with `gam` and `qmod` broadcast along each row.
   */
  function Zeta2(m: ExpPow, scale: real, gam: seq<real>, qref: seq<seq<real>>, qmod: seq<real>): (z: seq<seq<real>>)
    requires |gam| == |qref| == |qmod|
    ensures |z| == |qref|
    ensures forall i :: 0 <= i < |z| ==> |z[i]| == |qref[i]|
    ensures forall i, r :: 0 <= i < |z| && 0 <= r < |z[i]| ==> z[i][r] == Zeta(m, scale, gam[i], qref[i][r], qmod[i])
  {
    seq(|qref|, i requires 0 <= i < |qref| => Zeta2Row(m, scale, gam[i], qref[i], qmod[i]))
  }

  /**
   * One element of the `torch.where` in `zeta2`: `exp(new_tensor(scale))` where `qmod <= 0.0`,
   * else `exp(scale * (1.0 - exp(gam * (1.0 - qref / qmod))))`.
   */
  function WhereEntry(m: ExpPow, scale: real, gam: real, qref: real, qmod: real): real
  {
    if qmod <= 0.0 then m.exp(scale) else m.exp(scale * (1.0 - m.exp(gam * (1.0 - qref / qmod))))
  }

  /** One atom's row of `zeta2`, which agrees with `zeta` at every reference charge. */
  function Zeta2Row(m: ExpPow, scale: real, gam: real, qref: seq<real>, qmod: real): (z: seq<real>)
    ensures |z| == |qref|
    ensures forall r :: 0 <= r < |z| ==> z[r] == Zeta(m, scale, gam, qref[r], qmod)
  {
    var z := seq(|qref|, r requires 0 <= r < |qref| => WhereEntry(m, scale, gam, qref[r], qmod));
    assert forall r :: 0 <= r < |z| ==> z[r] == WhereEntry(m, scale, gam, qref[r], qmod);
    z
  }

  /**
   * `zeta` as written: its first branch passes the Python float `a` to `torch.exp`, which accepts
   * only tensors and raises; the other branch computes on tensors.
   */
  function ZetaAsWritten(m: ExpPow, a: real, c: real, qref: real, qmod: real): (r: Result<real>)
  {
    if qmod <= 0.0 then Err(FloatExponent)
    else Ok(m.exp(a * (1.0 - m.exp(c * (1.0 - qref / qmod)))))
  }

  /**
   * The written `zeta` raises on the branch meant to return the ceiling `exp(a)`; a neutral
   * effective charge (`qmod = 0`) is enough to reach it.
   */
  lemma ZetaAsWrittenRaises(m: ExpPow, a: real, c: real, qref: real, qmod: real)
    requires qmod <= 0.0
    ensures ZetaAsWritten(m, a, c, qref, qmod) == Err(FloatExponent)
    ensures Zeta(m, a, c, qref, qmod) == m.exp(a)
  {
  }

  /** For a positive effective charge the written `zeta` computes `Zeta`. */
  lemma ZetaAsWrittenAgrees(m: ExpPow, a: real, c: real, qref: real, qmod: real)
    requires qmod > 0.0
    ensures ZetaAsWritten(m, a, c, qref, qmod) == Ok(Zeta(m, a, c, qref, qmod))
  {
  }
}
