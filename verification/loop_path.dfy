/**
 * The per-atom loops of `D4Model.weight_references`, which run after the vectorised weights are
 * computed and fill `gwks` (atoms by references) and `gwvec` (references by atoms). Their tables
 * are discarded, but an exception they raise is raised by the whole call.
 */
module LoopPath {
  import opened Outcome
  import opened Sums
  import opened Transcendental
  import opened Tables
  import opened ChargeScaling
  import opened Vectorised

  /** `weight_cn(wf, cn, cnref)`: the Gaussian of the CN difference with exponent factor `wf`. */
  function WeightCn(m: ExpPow, wf: real, cn: real, cnref: real): real
  {
    var dcn := cn - cnref;
    m.exp(-wf * dcn * dcn)
  }

  /** `weight_cn` with factor `wf` is the `wf`-th power of the plain Gaussian. */
  lemma WeightCnIsPower(m: ExpPow, wf: real, cn: real, cnref: real)
    requires Sound(m)
    ensures WeightCn(m, wf, cn, cnref) == m.pow(Gaussian(m, cn, cnref), wf)
  {
    var dcn := cn - cnref;
    assert m.pow(m.exp(-dcn * dcn), wf) == m.exp(wf * (-dcn * dcn));
    assert wf * (-dcn * dcn) == -wf * dcn * dcn;
  }

  /** The number of Gaussians `range(refc)` iterates over: none for a code that is not positive. */
  function Count(code: int): (k: nat)
    ensures code > 0 ==> k == code
    ensures code <= 0 ==> k == 0
  {
    if code > 0 then code else 0
  }

  /** The `expw` loop of one reference after `k` rounds: the sum of `weight_cn((igw + 1) * wf, ...)`. */
  function ExpwSeries(m: ExpPow, wf: real, k: nat, cn: real, cnref: real): real
  {
    if k == 0 then 0.0 else ExpwSeries(m, wf, k - 1, cn, cnref) + WeightCn(m, (k as real) * wf, cn, cnref)
  }

  /** The `norm` loop of one reference after `k` rounds: the sum of `pow(tmp, (igw + 1) * wf)`. */
  function NormSeries(m: ExpPow, wf: real, k: nat, tmp: real): real
  {
    if k == 0 then 0.0 else NormSeries(m, wf, k - 1, tmp) + m.pow(tmp, (k as real) * wf)
  }

  /** Both inner loops add up the same terms, so a reference contributes to the norm what it weighs. */
  lemma {:induction false} ExpwIsNormSeries(m: ExpPow, wf: real, k: nat, cn: real, cnref: real)
    requires Sound(m)
    ensures ExpwSeries(m, wf, k, cn, cnref) == NormSeries(m, wf, k, Gaussian(m, cn, cnref))
  {
    if k > 0 {
      ExpwIsNormSeries(m, wf, k - 1, cn, cnref);
      WeightCnIsPower(m, (k as real) * wf, cn, cnref);
    }
  }

  /** Every term is positive, so a series with at least one term is positive. */
  lemma {:induction false} NormSeriesPositive(m: ExpPow, wf: real, k: nat, tmp: real)
    requires Sound(m) && tmp > 0.0
    ensures k == 0 ==> NormSeries(m, wf, k, tmp) == 0.0
    ensures k > 0 ==> NormSeries(m, wf, k, tmp) > 0.0
  {
    if k > 0 {
      NormSeriesPositive(m, wf, k - 1, tmp);
    }
  }

  /** The accumulated `norm` of an atom of element `z` after its first `n` references. */
  function LoopNorm(m: ExpPow, wf: real, t: RefTables, z: nat, cn: real, n: nat): real
    requires ValidTables(t) && z < NumElements && n <= MaxRef
  {
    if n == 0 then 0.0
    else LoopNorm(m, wf, t, z, cn, n - 1) + NormSeries(m, wf, Count(t.refc[z][n - 1]), Gaussian(m, cn, t.refcn[z][n - 1]))
  }

  /**
   * Whether the innermost loop of the norm runs at all. If it does not, `norm` is still the Python
   * float `0.0` and `1.0 / norm` raises; otherwise it is a tensor and a zero gives infinity.
   */
  predicate Touches(t: RefTables, z: nat)
    requires ValidTables(t) && z < NumElements
  {
    exists r :: 0 <= r < t.refn[z] && t.refc[z][r] > 0
  }

  /** With well-formed tables the norm loop runs exactly for the elements that have references. */
  lemma TouchesIffReferences(t: RefTables, z: nat)
    requires ValidTables(t) && z < NumElements
    ensures Touches(t, z) <==> t.refn[z] > 0
  {
    if t.refn[z] > 0 {
      assert t.refc[z][0] > 0;
    }
  }

  /** The loop fallback: 1.0 for a reference at the element's largest reference CN, up to `refn`. */
  function LoopFallback(t: RefTables, z: nat): (g: seq<real>)
    requires ValidTables(t) && z < NumElements
    ensures |g| == MaxRef
    ensures forall r :: 0 <= r < MaxRef ==>
      g[r] == if r < t.refn[z] && t.refcn[z][r] == Max(t.refcn[z]) then 1.0 else 0.0
  {
    seq(MaxRef, r requires 0 <= r < MaxRef => if r < t.refn[z] && t.refcn[z][r] == Max(t.refcn[z]) then 1.0 else 0.0)
  }

  /** The loop weights `expw * norm` with `norm` already inverted, up to `refn`. */
  function LoopScaledSeries(m: ExpPow, wf: real, t: RefTables, z: nat, cn: real, inv: real): (g: seq<real>)
    requires ValidTables(t) && z < NumElements
    ensures |g| == MaxRef
    ensures forall r :: 0 <= r < MaxRef ==>
      g[r] == if r < t.refn[z] then ExpwSeries(m, wf, Count(t.refc[z][r]), cn, t.refcn[z][r]) * inv else 0.0
  {
    seq(MaxRef, r requires 0 <= r < MaxRef =>
      if r < t.refn[z] then ExpwSeries(m, wf, Count(t.refc[z][r]), cn, t.refcn[z][r]) * inv else 0.0)
  }

  /**
   * Row `gwks[iat]` of one atom of element `z` in a molecule of `atoms` atoms, or the exception the
   * loop raises for it: division of the float `0.0` when no Gaussian is summed, and the ambiguous
   * truth value of `refcn == maxcn` (a tensor with one entry per atom) when the NaN test fires in a
   * molecule of more than one atom. `exceptional` marks an atom whose norm is NaN; the NaN test then
   * fires for every one of its references, as it does when the norm is zero.
   */
  function LoopAtomWeights(m: ExpPow, wf: real, t: RefTables, z: nat, cn: real, exceptional: bool, atoms: nat): (g: Result<seq<real>>)
    requires ValidTables(t) && z < NumElements
    ensures g.Ok? ==> |g.value| == MaxRef
    ensures g.Ok? ==> forall r :: t.refn[z] <= r < MaxRef ==> g.value[r] == 0.0
    ensures g == Err(ZeroDivision) <==> !Touches(t, z)
    ensures g == Err(AmbiguousTruthValue) ==> atoms > 1
    ensures g.Err? ==> g.error == ZeroDivision || g.error == AmbiguousTruthValue
  {
    if !Touches(t, z) then Err(ZeroDivision)
    else
      var norm := LoopNorm(m, wf, t, z, cn, t.refn[z]);
      if exceptional || norm == 0.0 then
        if atoms > 1 then Err(AmbiguousTruthValue) else Ok(LoopFallback(t, z))
      else Ok(LoopScaledSeries(m, wf, t, z, cn, 1.0 / norm))
  }

  /** Whether atom `i` raises in the loop, and with what. */
  function AtomLoopError(m: ExpPow, wf: real, t: RefTables, numbers: seq<nat>, cn: seq<real>, exceptional: seq<bool>, i: nat): (e: Option<Error>)
    requires ValidTables(t) && ValidNumbers(numbers) && |cn| == |numbers| && |exceptional| == |numbers|
    requires i < |numbers|
  {
    match LoopAtomWeights(m, wf, t, numbers[i], cn[i], exceptional[i], |numbers|)
    case Err(x) => Some(x)
    case Ok(_) => None
  }

  /** The outcome of the loop's round for each of the first `k` atoms. */
  function LoopErrors(m: ExpPow, wf: real, t: RefTables, numbers: seq<nat>, cn: seq<real>, exceptional: seq<bool>, k: nat): (errs: seq<Option<Error>>)
    requires ValidTables(t) && ValidNumbers(numbers) && |cn| == |numbers| && |exceptional| == |numbers|
    requires k <= |numbers|
    ensures |errs| == k
    ensures forall i {:trigger AtomLoopError(m, wf, t, numbers, cn, exceptional, i)} :: 0 <= i < k ==>
      errs[i] == AtomLoopError(m, wf, t, numbers, cn, exceptional, i)
  {
    if k == 0 then [] else LoopErrors(m, wf, t, numbers, cn, exceptional, k - 1) + [AtomLoopError(m, wf, t, numbers, cn, exceptional, k - 1)]
  }

  /** With sound exponentials, the norm of an element's first `n >= 1` references is positive. */
  lemma {:induction false} LoopNormPositive(m: ExpPow, wf: real, t: RefTables, z: nat, cn: real, n: nat)
    requires Sound(m) && ValidTables(t) && z < NumElements
    requires 1 <= n <= t.refn[z]
    ensures LoopNorm(m, wf, t, z, cn, n) > 0.0
  {
    var tmp := Gaussian(m, cn, t.refcn[z][n - 1]);
    NormSeriesPositive(m, wf, Count(t.refc[z][n - 1]), tmp);
    if n > 1 {
      LoopNormPositive(m, wf, t, z, cn, n - 1);
    }
  }

  /**
   * With sound exponentials the loop raises for an atom exactly when its element has no reference
   * (division by the float zero) or, in a molecule of several atoms, when its norm is exceptional.
   */
  lemma AtomLoopErrorCases(m: ExpPow, wf: real, t: RefTables, numbers: seq<nat>, cn: seq<real>, exceptional: seq<bool>, i: nat)
    requires Sound(m) && ValidTables(t) && ValidNumbers(numbers) && |cn| == |numbers| && |exceptional| == |numbers|
    requires i < |numbers|
    ensures AtomLoopError(m, wf, t, numbers, cn, exceptional, i) ==
      if t.refn[numbers[i]] == 0 then Some(ZeroDivision)
      else if exceptional[i] && |numbers| > 1 then Some(AmbiguousTruthValue)
      else None
  {
    var z := numbers[i];
    TouchesIffReferences(t, z);
    if t.refn[z] > 0 {
      LoopNormPositive(m, wf, t, z, cn[i], t.refn[z]);
    }
  }

  /** The codes for which the two formulations of `weight_references` weigh a reference alike. */
  predicate AgreeingCode(code: int)
  {
    code <= 0 || code == 1 || code == 3
  }

  /**
   * For padding and for the codes 1 and 3, the vectorised `torch.where` adds up the same powers as
   * the loop's `for igw in range(refc)`.
   */
  lemma CodedAgreesWithSeries(m: ExpPow, wf: real, code: int, cn: real, cnref: real)
    requires Sound(m) && AgreeingCode(code)
    ensures CodedWeight(m, wf, code, Gaussian(m, cn, cnref)) == ExpwSeries(m, wf, Count(code), cn, cnref)
  {
    var tmp := Gaussian(m, cn, cnref);
    ExpwIsNormSeries(m, wf, Count(code), cn, cnref);
    if code == 1 {
      NormSeriesOne(m, wf, tmp);
    } else if code == 3 {
      NormSeriesThree(m, wf, tmp);
    }
  }

  /** One round of the `norm` loop adds the single power of the code-1 formula. */
  lemma NormSeriesOne(m: ExpPow, wf: real, tmp: real)
    ensures NormSeries(m, wf, 1, tmp) == m.pow(tmp, wf)
  {
    assert (1 as real) * wf == wf;
  }

  /** Three rounds of the `norm` loop add the three powers of the code-3 formula. */
  lemma NormSeriesThree(m: ExpPow, wf: real, tmp: real)
    ensures NormSeries(m, wf, 3, tmp) == m.pow(tmp, wf) + m.pow(tmp, 2.0 * wf) + m.pow(tmp, 3.0 * wf)
  {
    NormSeriesOne(m, wf, tmp);
    assert (2 as real) * wf == 2.0 * wf;
    assert NormSeries(m, wf, 2, tmp) == m.pow(tmp, wf) + m.pow(tmp, 2.0 * wf);
    assert (3 as real) * wf == 3.0 * wf;
  }

  /** At a reference's own CN every Gaussian of the loop is one, so `k` of them add up to `k`. */
  lemma {:induction false} ExpwSeriesAtReference(m: ExpPow, wf: real, k: nat, cn: real)
    requires Sound(m)
    ensures ExpwSeries(m, wf, k, cn, cn) == k as real
  {
    if k > 0 {
      ExpwSeriesAtReference(m, wf, k - 1, cn);
      var dcn := cn - cn;
      assert -((k as real) * wf) * dcn * dcn == 0.0;
    }
  }

  /**
   * For code 2 and for the codes above 3 the two formulations part: at the reference's
   * own CN the vectorised weight is the raw Gaussian, one, while the loop sums `code` Gaussians.
   */
  lemma CodedDisagreesAtReference(m: ExpPow, wf: real, code: int, cn: real)
    requires Sound(m) && code >= 2 && code != 3
    ensures CodedWeight(m, wf, code, Gaussian(m, cn, cn)) == 1.0
    ensures ExpwSeries(m, wf, Count(code), cn, cn) == code as real
    ensures CodedWeight(m, wf, code, Gaussian(m, cn, cn)) != ExpwSeries(m, wf, Count(code), cn, cn)
  {
    var dcn := cn - cn;
    assert -dcn * dcn == 0.0;
    ExpwSeriesAtReference(m, wf, Count(code), cn);
  }

  /** With agreeing codes the loop's norm is the vectorised norm over the first `n` references. */
  lemma {:induction false} LoopNormIsSum(m: ExpPow, wf: real, t: RefTables, z: nat, cn: real, n: nat)
    requires Sound(m) && ValidTables(t) && z < NumElements && n <= MaxRef
    requires forall r :: 0 <= r < n ==> AgreeingCode(t.refc[z][r])
    ensures LoopNorm(m, wf, t, z, cn, n) == Sum(ReferenceWeights(m, wf, t, z, cn)[..n])
  {
    var expw := ReferenceWeights(m, wf, t, z, cn);
    if n > 0 {
      LoopNormIsSum(m, wf, t, z, cn, n - 1);
      var code := t.refc[z][n - 1];
      var cnref := t.refcn[z][n - 1];
      CodedAgreesWithSeries(m, wf, code, cn, cnref);
      ExpwIsNormSeries(m, wf, Count(code), cn, cnref);
      var prefix := expw[..n];
      assert prefix[..n - 1] == expw[..n - 1];
      assert Sum(prefix) == Sum(expw[..n - 1]) + expw[n - 1];
    }
  }

  /** With agreeing codes the loop's norm over all references is the vectorised `norm`. */
  lemma LoopNormAgrees(m: ExpPow, wf: real, t: RefTables, z: nat, cn: real)
    requires Sound(m) && ValidTables(t) && z < NumElements
    requires forall r :: 0 <= r < MaxRef ==> AgreeingCode(t.refc[z][r])
    ensures LoopNorm(m, wf, t, z, cn, t.refn[z]) == Sum(ReferenceWeights(m, wf, t, z, cn))
  {
    var expw := ReferenceWeights(m, wf, t, z, cn);
    LoopNormIsSum(m, wf, t, z, cn, t.refn[z]);
    SumZeroTail(expw, t.refn[z]);
  }

  /** One loop weight `expw * (1 / norm)` is the vectorised `expw / norm` when the code agrees. */
  lemma LoopEntryAgrees(m: ExpPow, wf: real, t: RefTables, z: nat, cn: real, norm: real, inv: real, r: nat)
    requires Sound(m) && ValidTables(t) && z < NumElements && r < MaxRef
    requires norm != 0.0 && inv == 1.0 / norm
    requires AgreeingCode(t.refc[z][r])
    ensures LoopScaledSeries(m, wf, t, z, cn, inv)[r] == ReferenceWeights(m, wf, t, z, cn)[r] / norm
  {
    var e := ReferenceWeights(m, wf, t, z, cn)[r];
    CodedAgreesWithSeries(m, wf, t.refc[z][r], cn, t.refcn[z][r]);
    if r < t.refn[z] {
      ScaledSeriesEntry(m, wf, t, z, cn, inv, r, e);
      TimesInverse(e, norm);
    }
  }

  /**
   * Where every code of an element is 0, 1 or 3 and the norm needs no fallback, the loop computes
   * the same weights as the vectorised path (`expw * (1 / norm)` against `expw / norm`).
   */
  lemma LoopAgreesWithVectorised(m: ExpPow, wf: real, t: RefTables, z: nat, cn: real, atoms: nat)
    requires Sound(m) && ValidTables(t) && z < NumElements
    requires t.refn[z] > 0
    requires forall r :: 0 <= r < MaxRef ==> AgreeingCode(t.refc[z][r])
    ensures AtomWeights(m, wf, t, z, cn, false).Some?
    ensures LoopAtomWeights(m, wf, t, z, cn, false, atoms) == Ok(AtomWeights(m, wf, t, z, cn, false).value)
  {
    AtomWeightsDefined(m, wf, t, z, cn, false);
    TouchesIffReferences(t, z);
    LoopNormAgrees(m, wf, t, z, cn);
    var expw := ReferenceWeights(m, wf, t, z, cn);
    var norm := Sum(expw);
    var inv := 1.0 / norm;
    var loop := LoopScaledSeries(m, wf, t, z, cn, inv);
    var vec := Normalised(expw, norm);
    forall r | 0 <= r < MaxRef
      ensures loop[r] == vec[r]
    {
      LoopEntryAgrees(m, wf, t, z, cn, norm, inv, r);
    }
    assert loop == vec;
  }

  /** Row `gwks[i]` once the loops are done (unused when they raise). */
  function LoopRow(m: ExpPow, wf: real, t: RefTables, numbers: seq<nat>, cn: seq<real>, exceptional: seq<bool>, i: nat): (row: seq<real>)
    requires ValidTables(t) && ValidNumbers(numbers) && |cn| == |numbers| && |exceptional| == |numbers|
    requires i < |numbers|
    ensures |row| == MaxRef
  {
    var g := LoopAtomWeights(m, wf, t, numbers[i], cn[i], exceptional[i], |numbers|);
    if g.Ok? then g.value else seq(MaxRef, r => 0.0)
  }

  /** Column `gwvec[.., i]` once the loops are done: each weight times the atom's `zeta` for that reference. */
  function LoopScaledRow(m: ExpPow, model: D4Model, t: RefTables, numbers: seq<nat>, cn: seq<real>, q: seq<real>, exceptional: seq<bool>, i: nat): (row: seq<real>)
    requires ValidTables(t) && ValidNumbers(numbers)
    requires |cn| == |numbers| && |q| == |numbers| && |exceptional| == |numbers|
    requires i < |numbers|
    ensures |row| == MaxRef
  {
    ScaledEntries(m, model, t, numbers[i], q[i], LoopRow(m, model.wf, t, numbers, cn, exceptional, i), MaxRef)
  }

  /** The first `k` weights `w` of an atom of element `z` and charge `qi`, each times the charge scaling of its reference. */
  function ScaledEntries(m: ExpPow, model: D4Model, t: RefTables, z: nat, qi: real, w: seq<real>, k: nat): (row: seq<real>)
    requires ValidTables(t) && z < NumElements && k <= |w| && k <= MaxRef
    ensures |row| == k
    ensures forall r {:trigger ReferenceZeta(m, model, t, z, qi, r)} :: 0 <= r < k ==> row[r] == ChargeScaled(ReferenceZeta(m, model, t, z, qi, r), w[r])
  {
    if k == 0 then [] else ScaledEntries(m, model, t, z, qi, w, k - 1) + [ChargeScaled(ReferenceZeta(m, model, t, z, qi, k - 1), w[k - 1])]
  }

  /** `ReferenceZeta` from the hardness `gi` and effective charge `zi` the loop computes once per atom. */
  lemma ReferenceZetaOfAtom(m: ExpPow, model: D4Model, t: RefTables, z: nat, qi: real, r: nat, gi: real, zi: real)
    requires ValidTables(t) && z < NumElements && r < MaxRef
    requires gi == Hardness(model, t, z) && zi == t.zeff[z]
    ensures ReferenceZeta(m, model, t, z, qi, r) == Zeta(m, model.ga, gi, t.refq[z][r] + zi, qi + zi)
  {
  }

  /** The loop rows of the first `k` atoms. */
  function LoopRows(m: ExpPow, wf: real, t: RefTables, numbers: seq<nat>, cn: seq<real>, exceptional: seq<bool>, k: nat): (w: seq<seq<real>>)
    requires ValidTables(t) && ValidNumbers(numbers) && |cn| == |numbers| && |exceptional| == |numbers|
    requires k <= |numbers|
    ensures |w| == k && forall i :: 0 <= i < k ==> |w[i]| == MaxRef
    ensures forall i {:trigger LoopRow(m, wf, t, numbers, cn, exceptional, i)} :: 0 <= i < k ==>
      w[i] == LoopRow(m, wf, t, numbers, cn, exceptional, i)
  {
    if k == 0 then [] else LoopRows(m, wf, t, numbers, cn, exceptional, k - 1) + [LoopRow(m, wf, t, numbers, cn, exceptional, k - 1)]
  }

  /** The scaled loop rows of the first `k` atoms. */
  function LoopScaledRows(m: ExpPow, model: D4Model, t: RefTables, numbers: seq<nat>, cn: seq<real>, q: seq<real>, exceptional: seq<bool>, k: nat): (v: seq<seq<real>>)
    requires ValidTables(t) && ValidNumbers(numbers)
    requires |cn| == |numbers| && |q| == |numbers| && |exceptional| == |numbers|
    requires k <= |numbers|
    ensures |v| == k
    ensures forall i {:trigger LoopScaledRow(m, model, t, numbers, cn, q, exceptional, i)} :: 0 <= i < k ==>
      v[i] == LoopScaledRow(m, model, t, numbers, cn, q, exceptional, i)
  {
    if k == 0 then [] else LoopScaledRows(m, model, t, numbers, cn, q, exceptional, k - 1) + [LoopScaledRow(m, model, t, numbers, cn, q, exceptional, k - 1)]
  }

  /** One entry of the normalised loop weights. */
  lemma ScaledSeriesEntry(m: ExpPow, wf: real, t: RefTables, z: nat, cn: real, inv: real, r: nat, expw: real)
    requires ValidTables(t) && z < NumElements && r < t.refn[z]
    requires expw == ExpwSeries(m, wf, Count(t.refc[z][r]), cn, t.refcn[z][r])
    ensures LoopScaledSeries(m, wf, t, z, cn, inv)[r] == expw * inv
  {
  }

  /** One entry of a `gwvec` column: the `gwks` entry times the atom's `zeta` for the reference. */
  lemma ScaledRowEntry(m: ExpPow, model: D4Model, t: RefTables, numbers: seq<nat>, cn: seq<real>, q: seq<real>, exceptional: seq<bool>,
                       i: nat, r: nat, zeta: real, weight: real)
    requires ValidTables(t) && ValidNumbers(numbers)
    requires |cn| == |numbers| && |q| == |numbers| && |exceptional| == |numbers|
    requires i < |numbers| && r < MaxRef
    requires zeta == ReferenceZeta(m, model, t, numbers[i], q[i], r)
    requires weight == LoopRow(m, model.wf, t, numbers, cn, exceptional, i)[r]
    ensures LoopScaledRow(m, model, t, numbers, cn, q, exceptional, i)[r] == ChargeScaled(zeta, weight)
  {
  }

  /** Both tables are zero past the references of the atom's element. */
  lemma LoopRowPadding(m: ExpPow, model: D4Model, t: RefTables, numbers: seq<nat>, cn: seq<real>, q: seq<real>, exceptional: seq<bool>, i: nat)
    requires ValidTables(t) && ValidNumbers(numbers)
    requires |cn| == |numbers| && |q| == |numbers| && |exceptional| == |numbers|
    requires i < |numbers|
    ensures forall r :: t.refn[numbers[i]] <= r < MaxRef ==>
      LoopRow(m, model.wf, t, numbers, cn, exceptional, i)[r] == 0.0 && LoopScaledRow(m, model, t, numbers, cn, q, exceptional, i)[r] == 0.0
  {
    var w := LoopRow(m, model.wf, t, numbers, cn, exceptional, i);
    forall r | t.refn[numbers[i]] <= r < MaxRef
      ensures w[r] == 0.0 && LoopScaledRow(m, model, t, numbers, cn, q, exceptional, i)[r] == 0.0
    {
      assert LoopScaledRow(m, model, t, numbers, cn, q, exceptional, i)[r] == ChargeScaled(ReferenceZeta(m, model, t, numbers[i], q[i], r), w[r]);
    }
  }

  /** Entry `(i, r)` has been written once atom `i` is finished, or it is the current atom below `ref`. */
  predicate Done(i: nat, r: nat, atom: nat, ref: nat)
  {
    i < atom || (i == atom && r < ref)
  }

  /**
   * The two tables hold the final values `w` (for `gwks`) and `v` (for `gwvec`, transposed) at the
   * entries already written and zeros elsewhere.
   */
  ghost predicate Written(gwks: array2<real>, gwvec: array2<real>, w: seq<seq<real>>, v: seq<seq<real>>, atom: nat, ref: nat)
    reads gwks, gwvec
  {
    && gwks.Length0 == |w| == |v| == gwvec.Length1 && gwks.Length1 == MaxRef && gwvec.Length0 <= MaxRef
    && (forall i :: 0 <= i < |w| ==> |w[i]| == MaxRef && |v[i]| == MaxRef)
    && (forall i, r :: 0 <= i < gwks.Length0 && 0 <= r < MaxRef ==>
          gwks[i, r] == if Done(i, r, atom, ref) then w[i][r] else 0.0)
    && (forall r, i :: 0 <= r < gwvec.Length0 && 0 <= i < gwvec.Length1 ==>
          gwvec[r, i] == if Done(i, r, atom, ref) then v[i][r] else 0.0)
  }

  /** `gwks[iat, iref] = a` and `gwvec[iref, iat] = b`, the next two entries of the tables. */
  method WriteEntry(gwks: array2<real>, gwvec: array2<real>, ghost w: seq<seq<real>>, ghost v: seq<seq<real>>,
                    iat: nat, iref: nat, a: real, b: real)
    requires Written(gwks, gwvec, w, v, iat, iref) && gwks != gwvec
    requires iat < gwks.Length0 && iref < gwvec.Length0
    requires a == w[iat][iref] && b == v[iat][iref]
    modifies gwks, gwvec
    ensures Written(gwks, gwvec, w, v, iat, iref + 1)
  {
    gwks[iat, iref] := a;
    gwvec[iref, iat] := b;
  }

  /** Entries of an atom past its references are final as zeros, so the atom is finished. */
  lemma FinishAtom(gwks: array2<real>, gwvec: array2<real>, w: seq<seq<real>>, v: seq<seq<real>>, iat: nat, k: nat)
    requires Written(gwks, gwvec, w, v, iat, k) && iat < gwks.Length0
    requires forall r :: k <= r < MaxRef ==> w[iat][r] == 0.0 && v[iat][r] == 0.0
    ensures Written(gwks, gwvec, w, v, iat + 1, 0)
  {
  }

  /** The first `for iref` loop of an atom: whether a Gaussian was summed, and the sum. */
  method AtomNorm(m: ExpPow, wf: real, t: RefTables, z: nat, cn: real) returns (touched: bool, norm: real)
    requires ValidTables(t) && z < NumElements
    ensures touched == Touches(t, z)
    ensures norm == LoopNorm(m, wf, t, z, cn, t.refn[z])
  {
    touched := false;
    norm := 0.0;
    for iref := 0 to t.refn[z]
      invariant touched <==> exists r :: 0 <= r < iref && t.refc[z][r] > 0
      invariant norm == LoopNorm(m, wf, t, z, cn, iref)
    {
      var tmp := Gaussian(m, cn, t.refcn[z][iref]);
      var base := norm;
      for igw := 0 to Count(t.refc[z][iref])
        invariant touched <==> (exists r :: 0 <= r < iref && t.refc[z][r] > 0) || igw > 0
        invariant norm == base + NormSeries(m, wf, igw, tmp)
      {
        var twf := ((igw + 1) as real) * wf;
        norm := norm + m.pow(tmp, twf);
        touched := true;
      }
    }
  }

  /** The `for igw` loop that accumulates `expw` of one reference. */
  method ReferenceExpw(m: ExpPow, wf: real, code: int, cn: real, cnref: real) returns (expw: real)
    ensures expw == ExpwSeries(m, wf, Count(code), cn, cnref)
  {
    expw := 0.0;
    for igw := 0 to Count(code)
      invariant expw == ExpwSeries(m, wf, igw, cn, cnref)
    {
      var twf := ((igw + 1) as real) * wf;
      expw := expw + WeightCn(m, twf, cn, cnref);
    }
  }

  /**
   * One round of the second `for iref` loop of atom `iat` (element `izp`, with `zi` and `gi` its
   * effective charge and scaled hardness): the NaN test, then the weight of the reference and its
   * charge-scaled value written to the tables. `nan` says whether the test fires (for every reference
   * of the atom alike) and `inv` is the inverted norm used otherwise.
   */
  method FillReference(m: ExpPow, model: D4Model, t: RefTables, numbers: seq<nat>, cn: seq<real>, q: seq<real>, exceptional: seq<bool>,
                       gwks: array2<real>, gwvec: array2<real>, ghost w: seq<seq<real>>, ghost v: seq<seq<real>>,
                       iat: nat, iref: nat, izp: nat, zi: real, gi: real, nan: bool, inv: real)
    returns (err: Option<Error>)
    requires ValidTables(t) && ValidNumbers(numbers)
    requires |cn| == |numbers| && |q| == |numbers| && |exceptional| == |numbers|
    requires iat < |numbers| && izp == numbers[iat] && iref < t.refn[izp] && gwks != gwvec
    requires zi == t.zeff[izp] && gi == Hardness(model, t, izp)
    requires |w| == |v| == |numbers| && gwvec.Length0 == MaxRefOf(t, numbers)
    requires w[iat] == LoopRow(m, model.wf, t, numbers, cn, exceptional, iat)
    requires v[iat] == LoopScaledRow(m, model, t, numbers, cn, q, exceptional, iat)
    requires nan && |numbers| <= 1 ==> w[iat] == LoopFallback(t, izp)
    requires !nan ==> w[iat] == LoopScaledSeries(m, model.wf, t, izp, cn[iat], inv)
    requires Written(gwks, gwvec, w, v, iat, iref)
    modifies gwks, gwvec
    ensures err == if nan && |numbers| > 1 then Some(AmbiguousTruthValue) else None
    ensures err.None? ==> Written(gwks, gwvec, w, v, iat, iref + 1)
  {
    var expw := ReferenceExpw(m, model.wf, t.refc[izp][iref], cn[iat], t.refcn[izp][iref]);
    var gwk;
    if nan {
      if |numbers| > 1 {
        return Some(AmbiguousTruthValue);
      }
      gwk := if t.refcn[izp][iref] == Max(t.refcn[izp]) then 1.0 else 0.0;
    } else {
      gwk := expw * inv;
      ScaledSeriesEntry(m, model.wf, t, izp, cn[iat], inv, iref, expw);
    }
    var z := Zeta(m, model.ga, gi, t.refq[izp][iref] + zi, q[iat] + zi);
    ReferenceZetaOfAtom(m, model, t, izp, q[iat], iref, gi, zi);
    ScaledRowEntry(m, model, t, numbers, cn, q, exceptional, iat, iref, z, gwk);
    WriteEntry(gwks, gwvec, w, v, iat, iref, gwk, ChargeScaled(z, gwk));
    return None;
  }

  /**
   * One round of the loop over atoms: atom `iat` either raises, or its row of `gwks` and its column
   * of `gwvec` are filled in with `w[iat]` and `v[iat]`.
   */
  method FillAtom(m: ExpPow, model: D4Model, t: RefTables, numbers: seq<nat>, cn: seq<real>, q: seq<real>, exceptional: seq<bool>,
                  gwks: array2<real>, gwvec: array2<real>, ghost w: seq<seq<real>>, ghost v: seq<seq<real>>, iat: nat)
    returns (err: Option<Error>)
    requires ValidTables(t) && ValidNumbers(numbers)
    requires |cn| == |numbers| && |q| == |numbers| && |exceptional| == |numbers|
    requires iat < |numbers| && gwks != gwvec
    requires |w| == |v| == |numbers|
    requires w[iat] == LoopRow(m, model.wf, t, numbers, cn, exceptional, iat)
    requires v[iat] == LoopScaledRow(m, model, t, numbers, cn, q, exceptional, iat)
    requires gwvec.Length0 == MaxRefOf(t, numbers)
    requires Written(gwks, gwvec, w, v, iat, 0)
    modifies gwks, gwvec
    ensures err == AtomLoopError(m, model.wf, t, numbers, cn, exceptional, iat)
    ensures err.None? ==> Written(gwks, gwvec, w, v, iat + 1, 0)
  {
    var n := |numbers|;
    var izp := numbers[iat];
    var zi := t.zeff[izp];
    var gi := Hardness(model, t, izp);
    var touched, norm := AtomNorm(m, model.wf, t, izp, cn[iat]);
    if !touched {
      return Some(ZeroDivision);
    }
    var nan := exceptional[iat] || norm == 0.0;
    var inv := if nan then 0.0 else 1.0 / norm;
    ghost var row := LoopAtomWeights(m, model.wf, t, izp, cn[iat], exceptional[iat], n);
    assert nan && n > 1 ==> row == Err(AmbiguousTruthValue);
    assert nan && n <= 1 ==> row == Ok(LoopFallback(t, izp));
    assert !nan ==> row == Ok(LoopScaledSeries(m, model.wf, t, izp, cn[iat], inv));
    TouchesIffReferences(t, izp);
    for iref := 0 to t.refn[izp]
      invariant iref > 0 ==> !(nan && n > 1)
      invariant Written(gwks, gwvec, w, v, iat, iref)
    {
      err := FillReference(m, model, t, numbers, cn, q, exceptional, gwks, gwvec, w, v, iat, iref, izp, zi, gi, nan, inv);
      if err.Some? {
        return;
      }
    }
    LoopRowPadding(m, model, t, numbers, cn, q, exceptional, iat);
    FinishAtom(gwks, gwvec, w, v, iat, t.refn[izp]);
    return None;
  }

  /** The tables after a loop that did not raise: `gwks` holds the loop rows, `gwvec` the scaled rows transposed. */
  ghost predicate Filled(gwks: array2<real>, gwvec: array2<real>, m: ExpPow, model: D4Model, t: RefTables, numbers: seq<nat>,
                         cn: seq<real>, q: seq<real>, exceptional: seq<bool>)
    reads gwks, gwvec
    requires ValidTables(t) && ValidNumbers(numbers)
    requires |cn| == |numbers| && |q| == |numbers| && |exceptional| == |numbers|
  {
    && gwks.Length0 == |numbers| && gwks.Length1 == MaxRef
    && gwvec.Length0 == MaxRefOf(t, numbers) && gwvec.Length1 == |numbers|
    && (forall i, r :: 0 <= i < |numbers| && 0 <= r < MaxRef ==>
          gwks[i, r] == LoopRow(m, model.wf, t, numbers, cn, exceptional, i)[r])
    && (forall r, i :: 0 <= r < gwvec.Length0 && 0 <= i < |numbers| ==>
          gwvec[r, i] == LoopScaledRow(m, model, t, numbers, cn, q, exceptional, i)[r])
  }

  /** Once every atom is written, the tables are filled with the loop rows. */
  lemma WrittenFilled(gwks: array2<real>, gwvec: array2<real>, w: seq<seq<real>>, v: seq<seq<real>>, m: ExpPow, model: D4Model,
                      t: RefTables, numbers: seq<nat>, cn: seq<real>, q: seq<real>, exceptional: seq<bool>)
    requires ValidTables(t) && ValidNumbers(numbers)
    requires |cn| == |numbers| && |q| == |numbers| && |exceptional| == |numbers|
    requires |w| == |numbers| && forall i :: 0 <= i < |numbers| ==> w[i] == LoopRow(m, model.wf, t, numbers, cn, exceptional, i)
    requires |v| == |numbers| && forall i :: 0 <= i < |numbers| ==> v[i] == LoopScaledRow(m, model, t, numbers, cn, q, exceptional, i)
    requires gwvec.Length0 == MaxRefOf(t, numbers)
    requires Written(gwks, gwvec, w, v, |numbers|, 0)
    ensures Filled(gwks, gwvec, m, model, t, numbers, cn, q, exceptional)
  {
  }

  /** Fresh `gwks` (atoms x `MaxRef`) and `gwvec` (`refs` x atoms) tables of zeros. */
  method ZeroTables(ghost w: seq<seq<real>>, ghost v: seq<seq<real>>, n: nat, refs: nat) returns (gwks: array2<real>, gwvec: array2<real>)
    requires |w| == |v| == n && refs <= MaxRef
    requires forall i :: 0 <= i < |w| ==> |w[i]| == MaxRef && |v[i]| == MaxRef
    ensures fresh(gwks) && fresh(gwvec) && gwks != gwvec
    ensures gwvec.Length0 == refs
    ensures Written(gwks, gwvec, w, v, 0, 0)
  {
    gwvec := new real[refs, n]((r, i) => 0.0);
    gwks := new real[n, MaxRef]((i, r) => 0.0);
  }

  /** The loop over atoms on the tables `gwks` and `gwvec`, stopped by the first atom that raises. */
  method FillAtoms(m: ExpPow, model: D4Model, t: RefTables, numbers: seq<nat>, cn: seq<real>, q: seq<real>, exceptional: seq<bool>,
                   gwks: array2<real>, gwvec: array2<real>, ghost w: seq<seq<real>>, ghost v: seq<seq<real>>,
                   ghost errs: seq<Option<Error>>)
    returns (err: Option<Error>)
    requires ValidTables(t) && ValidNumbers(numbers)
    requires |cn| == |numbers| && |q| == |numbers| && |exceptional| == |numbers|
    requires |w| == |v| == |errs| == |numbers|
    requires forall i :: 0 <= i < |numbers| ==> w[i] == LoopRow(m, model.wf, t, numbers, cn, exceptional, i)
    requires forall i :: 0 <= i < |numbers| ==> v[i] == LoopScaledRow(m, model, t, numbers, cn, q, exceptional, i)
    requires forall i :: 0 <= i < |numbers| ==> errs[i] == AtomLoopError(m, model.wf, t, numbers, cn, exceptional, i)
    requires gwks != gwvec && gwvec.Length0 == MaxRefOf(t, numbers)
    requires Written(gwks, gwvec, w, v, 0, 0)
    modifies gwks, gwvec
    ensures err == FirstError(errs, |numbers|)
    ensures err.None? ==> Written(gwks, gwvec, w, v, |numbers|, 0)
  {
    var n := |numbers|;
    err := None;
    for iat := 0 to n
      invariant err == None == FirstError(errs, iat)
      invariant Written(gwks, gwvec, w, v, iat, 0)
    {
      err := FillAtom(m, model, t, numbers, cn, q, exceptional, gwks, gwvec, w, v, iat);
      assert errs[iat] == err;
      FirstErrorStep(errs, iat);
      if err.Some? {
        FirstErrorSticks(errs, iat + 1, n);
        return;
      }
    }
  }

  /**
   * The loop over atoms: on success `gwks` and `gwvec` hold the loop rows and the scaled loop rows;
   * otherwise the exception of the first atom that raises.
   */
  method WeightReferencesLoop(m: ExpPow, model: D4Model, t: RefTables, numbers: seq<nat>, cn: seq<real>, q: seq<real>, exceptional: seq<bool>)
    returns (err: Option<Error>, gwks: array2<real>, gwvec: array2<real>)
    requires ValidTables(t) && ValidNumbers(numbers)
    requires |cn| == |numbers| && |q| == |numbers| && |exceptional| == |numbers|
    ensures fresh(gwks) && fresh(gwvec)
    ensures err == FirstError(LoopErrors(m, model.wf, t, numbers, cn, exceptional, |numbers|), |numbers|)
    ensures err.None? ==> Filled(gwks, gwvec, m, model, t, numbers, cn, q, exceptional)
  {
    ghost var w := LoopRows(m, model.wf, t, numbers, cn, exceptional, |numbers|);
    ghost var v := LoopScaledRows(m, model, t, numbers, cn, q, exceptional, |numbers|);
    forall i | 0 <= i < |numbers|
      ensures |v[i]| == MaxRef
    {
      assert v[i] == LoopScaledRow(m, model, t, numbers, cn, q, exceptional, i);
    }
    gwks, gwvec := ZeroTables(w, v, |numbers|, MaxRefOf(t, numbers));
    ghost var errs := LoopErrors(m, model.wf, t, numbers, cn, exceptional, |numbers|);
    err := FillAtoms(m, model, t, numbers, cn, q, exceptional, gwks, gwvec, w, v, errs);
    if err.None? {
      WrittenFilled(gwks, gwvec, w, v, m, model, t, numbers, cn, q, exceptional);
    }
  }
}
