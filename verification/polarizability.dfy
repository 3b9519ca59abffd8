/**
 * `D4Model._set_refalpha_eeq`: the dynamic polarisabilities of every reference state of every
 * atom at the 23 imaginary frequencies, with the contribution of the secondary element removed
 * and the result clipped at zero.
 */
module Polarizability {
  import opened Outcome
  import opened Transcendental
  import opened Tables
  import opened ChargeScaling
  import opened Vectorised

  /** Python's `max(0.0, x)`: the non-negative part of `x`. */
  function NonNegativePart(x: real): (r: real)
    ensures r >= 0.0 && r >= x
    ensures r == x || r == 0.0
  {
    if x > 0.0 then x else 0.0
  }

  /** The secondary element `refsys` of reference `r` of element `z`. */
  function Secondary(t: RefTables, z: nat, r: nat): (s: nat)
    requires ValidTables(t) && z < NumElements && r < t.refn[z]
    ensures s < NumElements
  {
    t.refsys[z][r] as nat
  }

  /**
   * `zeta(ga, gam[isys] * gc, zeff[isys], refsq)`: the charge scaling of the secondary element
   * from its effective nuclear charge to the reference's charge.
   */
  function SecondaryZeta(m: ExpPow, model: D4Model, t: RefTables, z: nat, r: nat): real
    requires ValidTables(t) && z < NumElements && r < t.refn[z]
  {
    var isys := Secondary(t, z, r);
    Zeta(m, model.ga, Hardness(model, t, isys), t.zeff[isys], t.refsq[z][r])
  }

  /** The written `zeta` of `SecondaryZeta`, which raises for a non-positive reference charge `refsq`. */
  function SecondaryZetaAsWritten(m: ExpPow, model: D4Model, t: RefTables, z: nat, r: nat): (s: Result<real>)
    requires ValidTables(t) && z < NumElements && r < t.refn[z]
    ensures s.Err? <==> t.refsq[z][r] <= 0.0
    ensures s.Err? ==> s.error == FloatExponent
    ensures s.Ok? ==> s.value == SecondaryZeta(m, model, t, z, r)
  {
    var isys := Secondary(t, z, r);
    if t.refsq[z][r] > 0.0 then
      ZetaAsWrittenAgrees(m, model.ga, Hardness(model, t, isys), t.zeff[isys], t.refsq[z][r]);
      ZetaAsWritten(m, model.ga, Hardness(model, t, isys), t.zeff[isys], t.refsq[z][r])
    else ZetaAsWritten(m, model.ga, Hardness(model, t, isys), t.zeff[isys], t.refsq[z][r])
  }

  /**
   * Whether `_set_refalpha_eeq` as written raises: its loops reach the written `zeta` with a
   * non-positive `refsq` for some reference of some atom.
   */
  predicate AlphaAsWrittenRaises(m: ExpPow, model: D4Model, t: RefTables, numbers: seq<nat>)
    requires ValidTables(t) && ValidNumbers(numbers)
  {
    exists i, r :: 0 <= i < |numbers| && 0 <= r < t.refn[numbers[i]] && SecondaryZetaAsWritten(m, model, t, numbers[i], r).Err?
  }

  /** `aiw`: the secondary element's scaled polarisability at frequency `k`. */
  function SecondaryAlpha(m: ExpPow, model: D4Model, t: RefTables, z: nat, r: nat, k: nat): real
    requires ValidTables(t) && z < NumElements && r < t.refn[z] && k < Frequencies
  {
    var isys := Secondary(t, z, r);
    t.secscale[isys] * t.secalpha[isys][k] * SecondaryZeta(m, model, t, z, r)
  }

  /** The polarisability of reference `r` of element `z` at frequency `k` before clipping. */
  function RawAlpha(m: ExpPow, model: D4Model, t: RefTables, z: nat, r: nat, k: nat): real
    requires ValidTables(t) && z < NumElements && r < t.refn[z] && k < Frequencies
  {
    t.refascale[z][r] * (t.refalpha[z][Frequencies * r + k] - t.refscount[z][r] * SecondaryAlpha(m, model, t, z, r, k))
  }

  /** The clipped polarisability of reference `r` of element `z` at frequency `k`: `max(0.0, ...)`. */
  function ReferenceAlpha(m: ExpPow, model: D4Model, t: RefTables, z: nat, r: nat, k: nat): (a: real)
    requires ValidTables(t) && z < NumElements && r < t.refn[z] && k < Frequencies
    ensures a >= 0.0 && a >= RawAlpha(m, model, t, z, r, k)
    ensures RawAlpha(m, model, t, z, r, k) >= 0.0 ==> a == RawAlpha(m, model, t, z, r, k)
    ensures a == RawAlpha(m, model, t, z, r, k) || a == 0.0
  {
    NonNegativePart(RawAlpha(m, model, t, z, r, k))
  }

  /**
   * Column `c = 23 * iref + k` of an atom's row of `alpha` for an atom of element `z`: the clipped
   * polarisability of reference `iref` at frequency `k`, or the initial zero past the element's
   * references.
   */
  function AlphaEntry(m: ExpPow, model: D4Model, t: RefTables, z: nat, c: nat): (a: real)
    requires ValidTables(t) && z < NumElements
    ensures a >= 0.0
    ensures c / Frequencies >= t.refn[z] ==> a == 0.0
  {
    if c / Frequencies < t.refn[z] then ReferenceAlpha(m, model, t, z, c / Frequencies, c % Frequencies)
    else 0.0
  }

  /** Column `23 * r + k` lies in the block of reference `r`, at offset `k`. */
  lemma ColumnOfReference(r: nat, k: nat)
    requires k < Frequencies
    ensures (Frequencies * r + k) / Frequencies == r
    ensures (Frequencies * r + k) % Frequencies == k
  {
  }

  /** Columns from `23 * n` on belong to references from `n` on. */
  lemma ColumnsPast(n: nat, c: nat)
    requires c >= Frequencies * n
    ensures c / Frequencies >= n
  {
  }

  /** The entry `(i, c)` of `alpha` has been written: atom `i` is finished, or it is the current atom below column `col`. */
  predicate Before(i: nat, c: nat, atom: nat, col: nat)
  {
    i < atom || (i == atom && c < col)
  }

  /** `alpha` (atoms x `23 * mref`) holds the final entries already written and zeros elsewhere. */
  ghost predicate AlphaWritten(alpha: array2<real>, m: ExpPow, model: D4Model, t: RefTables, numbers: seq<nat>, atom: nat, col: nat)
    reads alpha
    requires ValidTables(t) && ValidNumbers(numbers)
  {
    && alpha.Length0 == |numbers| && alpha.Length1 == Frequencies * MaxRefOf(t, numbers)
    && forall i, c :: 0 <= i < alpha.Length0 && 0 <= c < alpha.Length1 ==>
         alpha[i, c] == if Before(i, c, atom, col) then AlphaEntry(m, model, t, numbers[i], c) else 0.0
  }

  /** `alpha` of the whole molecule: row `i` holds the entries of atom `i`'s element. */
  ghost predicate AlphaFilled(alpha: array2<real>, m: ExpPow, model: D4Model, t: RefTables, numbers: seq<nat>)
    reads alpha
    requires ValidTables(t) && ValidNumbers(numbers)
  {
    && alpha.Length0 == |numbers| && alpha.Length1 == Frequencies * MaxRefOf(t, numbers)
    && forall i, c :: 0 <= i < alpha.Length0 && 0 <= c < alpha.Length1 ==> alpha[i, c] == AlphaEntry(m, model, t, numbers[i], c)
  }

  /** One round of the innermost loop: `alpha[iat, 23 * iref + k] = max(0.0, ...)`. */
  method WriteAlpha(alpha: array2<real>, m: ExpPow, model: D4Model, t: RefTables, numbers: seq<nat>, iat: nat, iref: nat, k: nat)
    requires ValidTables(t) && ValidNumbers(numbers)
    requires iat < |numbers| && iref < t.refn[numbers[iat]] && k < Frequencies
    requires AlphaWritten(alpha, m, model, t, numbers, iat, Frequencies * iref + k)
    modifies alpha
    ensures AlphaWritten(alpha, m, model, t, numbers, iat, Frequencies * iref + k + 1)
  {
    var izp := numbers[iat];
    var isys := Secondary(t, izp, iref);
    var iz := t.zeff[isys];
    var ig := Hardness(model, t, isys);
    var aiw := t.secscale[isys] * t.secalpha[isys][k] * Zeta(m, model.ga, ig, iz, t.refsq[izp][iref]);
    var value := NonNegativePart(t.refascale[izp][iref] * (t.refalpha[izp][Frequencies * iref + k] - t.refscount[izp][iref] * aiw));
    assert value == ReferenceAlpha(m, model, t, izp, iref, k);
    AlphaEntryOfReference(m, model, t, izp, iref, k);
    ghost var mref := MaxRefOf(t, numbers);
    assert iref < mref;
    alpha[iat, Frequencies * iref + k] := value;
  }

  /** The loops over the references of atom `iat` and over the frequencies. */
  method FillAlphaAtom(alpha: array2<real>, m: ExpPow, model: D4Model, t: RefTables, numbers: seq<nat>, iat: nat)
    requires ValidTables(t) && ValidNumbers(numbers) && iat < |numbers|
    requires AlphaWritten(alpha, m, model, t, numbers, iat, 0)
    modifies alpha
    ensures AlphaWritten(alpha, m, model, t, numbers, iat + 1, 0)
  {
    var izp := numbers[iat];
    for iref := 0 to t.refn[izp]
      invariant AlphaWritten(alpha, m, model, t, numbers, iat, Frequencies * iref)
    {
      for k := 0 to Frequencies
        invariant AlphaWritten(alpha, m, model, t, numbers, iat, Frequencies * iref + k)
      {
        WriteAlpha(alpha, m, model, t, numbers, iat, iref, k);
      }
    }
    forall c | Frequencies * t.refn[izp] <= c
      ensures AlphaEntry(m, model, t, izp, c) == 0.0
    {
      ColumnsPast(t.refn[izp], c);
    }
  }

  /**
   * `_set_refalpha_eeq(numbers)`: the `torch.max` over the reference counts raises for a molecule
   * without atoms; otherwise `alpha` holds, for every atom, the clipped polarisabilities of its
   * element's references and zeros past them.
   */
  method SetRefAlpha(m: ExpPow, model: D4Model, t: RefTables, numbers: seq<nat>) returns (err: Option<Error>, alpha: array2<real>)
    requires ValidTables(t) && ValidNumbers(numbers)
    ensures fresh(alpha)
    ensures err == if |numbers| == 0 then Some(EmptyMolecule) else None
    ensures err.None? ==> AlphaFilled(alpha, m, model, t, numbers)
    ensures err.None? ==> forall i, c :: 0 <= i < alpha.Length0 && 0 <= c < alpha.Length1 ==> alpha[i, c] >= 0.0
  {
    if |numbers| == 0 {
      return Some(EmptyMolecule), new real[0, 0];
    }
    var mref := MaxRefOf(t, numbers);
    alpha := new real[|numbers|, Frequencies * mref]((i, c) => 0.0);
    for iat := 0 to |numbers|
      invariant AlphaWritten(alpha, m, model, t, numbers, iat, 0)
    {
      FillAlphaAtom(alpha, m, model, t, numbers, iat);
    }
    return None, alpha;
  }

  /** Column `23 * r + k` of a row of `alpha` holds the clipped polarisability of reference `r` at frequency `k`. */
  lemma AlphaEntryOfReference(m: ExpPow, model: D4Model, t: RefTables, z: nat, r: nat, k: nat)
    requires ValidTables(t) && z < NumElements && r < t.refn[z] && k < Frequencies
    ensures AlphaEntry(m, model, t, z, Frequencies * r + k) == ReferenceAlpha(m, model, t, z, r, k)
  {
    ColumnOfReference(r, k);
  }

  /**
   * A reference whose charge is its secondary element's effective nuclear charge subtracts the
   * secondary polarisability unscaled: the charge scaling is one there.
   */
  lemma SecondaryAtOwnCharge(m: ExpPow, model: D4Model, t: RefTables, z: nat, r: nat, k: nat)
    requires Sound(m) && ValidTables(t) && z < NumElements && r < t.refn[z] && k < Frequencies
    requires t.refsq[z][r] == t.zeff[Secondary(t, z, r)] > 0.0
    ensures SecondaryAlpha(m, model, t, z, r, k) == t.secscale[Secondary(t, z, r)] * t.secalpha[Secondary(t, z, r)][k]
  {
    var isys := Secondary(t, z, r);
    var q := t.zeff[isys];
    var ig := Hardness(model, t, isys);
    ZetaAtReferenceCharge(m, model.ga, ig, q);
    assert SecondaryZeta(m, model, t, z, r) == 1.0;
  }
}
