/**
 * The vectorised weighting of `D4Model.weight_references`: Gaussian weights of the reference
 * states selected by their multiplicity codes, normalised per atom, with the max-CN fallback,
 * and scaled by `zeta2`.
 */
module Vectorised {
  import opened Outcome
  import opened Sums
  import opened Transcendental
  import opened Tables
  import opened ChargeScaling

  /** `torch.exp(-dcn * dcn)` with `dcn = cn - refcn`: the Gaussian in coordination-number space. */
  function Gaussian(m: ExpPow, cn: real, refcn: real): real
  {
    var dcn := cn - refcn;
    m.exp(-dcn * dcn)
  }

  /** The nested `torch.where` for one reference: zero for padding, three powers for code 3, one for code 1, else the raw Gaussian. */
  function CodedWeight(m: ExpPow, wf: real, code: int, tmp: real): real
  {
    if code > 0 then
      if code == 3 then m.pow(tmp, wf) + m.pow(tmp, 2.0 * wf) + m.pow(tmp, 3.0 * wf)
      else if code == 1 then m.pow(tmp, wf)
      else tmp
    else 0.0
  }

  /** A reference that is not padding has a positive unnormalised weight. */
  lemma CodedWeightPositive(m: ExpPow, wf: real, code: int, cn: real, refcn: real)
    requires Sound(m) && code > 0
    ensures CodedWeight(m, wf, code, Gaussian(m, cn, refcn)) > 0.0
  {
  }

  /** `expw` for one atom of element `z` at coordination number `cn`. */
  function ReferenceWeights(m: ExpPow, wf: real, t: RefTables, z: nat, cn: real): (expw: seq<real>)
    requires ValidTables(t) && z < NumElements
    ensures |expw| == MaxRef
    ensures forall r :: 0 <= r < MaxRef ==> expw[r] == CodedWeight(m, wf, t.refc[z][r], Gaussian(m, cn, t.refcn[z][r]))
  {
    seq(MaxRef, r requires 0 <= r < MaxRef => CodedWeight(m, wf, t.refc[z][r], Gaussian(m, cn, t.refcn[z][r])))
  }

  /** `expw / norm` for one atom. */
  function Normalised(expw: seq<real>, norm: real): (w: seq<real>)
    requires norm != 0.0
    ensures |w| == |expw|
    ensures forall r :: 0 <= r < |w| ==> w[r] == expw[r] / norm
  {
    seq(|expw|, r requires 0 <= r < |expw| => expw[r] / norm)
  }

  /** The fallback: 1.0 for every reference whose CN equals the element's largest reference CN, else 0.0. */
  function MaxCnIndicator(t: RefTables, z: nat): (f: seq<real>)
    requires ValidTables(t) && z < NumElements
    ensures |f| == MaxRef
    ensures forall r :: 0 <= r < MaxRef ==> f[r] == (if t.refcn[z][r] == Max(t.refcn[z]) then 1.0 else 0.0)
  {
    var maxcn := Max(t.refcn[z]);
    seq(MaxRef, r requires 0 <= r < MaxRef => if t.refcn[z][r] == maxcn then 1.0 else 0.0)
  }

  /**
   * `f` for one atom: the normalised weights, or the fallback indicator when the norm is exceptional
   * (NaN or beyond the largest float, given as `exceptional`). None stands for the row of NaN that
   * `0 / 0` gives when the norm is zero, which the exceptional test does not catch.
   */
  function AtomWeights(m: ExpPow, wf: real, t: RefTables, z: nat, cn: real, exceptional: bool): (f: Option<seq<real>>)
    requires ValidTables(t) && z < NumElements
    ensures f.Some? ==> |f.value| == MaxRef
    ensures f.None? <==> !exceptional && Sum(ReferenceWeights(m, wf, t, z, cn)) == 0.0
  {
    var expw := ReferenceWeights(m, wf, t, z, cn);
    var norm := Sum(expw);
    if exceptional then Some(MaxCnIndicator(t, z))
    else if norm == 0.0 then None
    else Some(Normalised(expw, norm))
  }

  /** Outside the fallback, an atom's weights sum to one. */
  lemma AtomWeightsSumToOne(m: ExpPow, wf: real, t: RefTables, z: nat, cn: real)
    requires ValidTables(t) && z < NumElements
    requires AtomWeights(m, wf, t, z, cn, false).Some?
    ensures Sum(AtomWeights(m, wf, t, z, cn, false).value) == 1.0
  {
    var expw := ReferenceWeights(m, wf, t, z, cn);
    var norm := Sum(expw);
    SumScaled(expw, norm, Normalised(expw, norm));
  }

  /** Outside the fallback, padding references get exactly zero weight. */
  lemma AtomWeightsPadding(m: ExpPow, wf: real, t: RefTables, z: nat, cn: real, r: nat)
    requires ValidTables(t) && z < NumElements
    requires AtomWeights(m, wf, t, z, cn, false).Some?
    requires t.refn[z] <= r < MaxRef
    ensures AtomWeights(m, wf, t, z, cn, false).value[r] == 0.0
  {
  }

  /** Outside the fallback, every weight lies between zero and one. */
  lemma AtomWeightsBounded(m: ExpPow, wf: real, t: RefTables, z: nat, cn: real, r: nat)
    requires Sound(m) && ValidTables(t) && z < NumElements
    requires AtomWeights(m, wf, t, z, cn, false).Some?
    requires r < MaxRef
    ensures 0.0 <= AtomWeights(m, wf, t, z, cn, false).value[r] <= 1.0
  {
    var expw := ReferenceWeights(m, wf, t, z, cn);
    forall k | 0 <= k < MaxRef
      ensures expw[k] >= 0.0
    {
      if t.refc[z][k] > 0 {
        CodedWeightPositive(m, wf, t.refc[z][k], cn, t.refcn[z][k]);
      }
    }
    SumAtLeastTerm(expw, r);
    var norm := Sum(expw);
    FractionOfWhole(expw[r], norm);
  }

  /** For an element with at least one reference, the norm is positive, so the weights are defined. */
  lemma AtomWeightsDefined(m: ExpPow, wf: real, t: RefTables, z: nat, cn: real, exceptional: bool)
    requires Sound(m) && ValidTables(t) && z < NumElements
    requires t.refn[z] > 0
    ensures AtomWeights(m, wf, t, z, cn, exceptional).Some?
    ensures Sum(ReferenceWeights(m, wf, t, z, cn)) > 0.0
  {
    var expw := ReferenceWeights(m, wf, t, z, cn);
    forall k | 0 <= k < MaxRef
      ensures expw[k] >= 0.0
    {
      if t.refc[z][k] > 0 {
        CodedWeightPositive(m, wf, t.refc[z][k], cn, t.refcn[z][k]);
      }
    }
    CodedWeightPositive(m, wf, t.refc[z][0], cn, t.refcn[z][0]);
    SumAtLeastTerm(expw, 0);
  }

  /**
   * In the fallback every weight is 0 or 1, exactly the references at the largest reference CN
   * (ties included, padding not excluded) get 1, at least one does, and nothing is renormalised.
   */
  lemma FallbackSelectsMaxCn(m: ExpPow, wf: real, t: RefTables, z: nat, cn: real)
    requires ValidTables(t) && z < NumElements
    ensures AtomWeights(m, wf, t, z, cn, true).Some?
    ensures forall r :: 0 <= r < MaxRef ==>
      var f := AtomWeights(m, wf, t, z, cn, true).value;
      (f[r] == 1.0 <==> t.refcn[z][r] == Max(t.refcn[z])) && (f[r] == 0.0 || f[r] == 1.0)
    ensures exists r :: 0 <= r < MaxRef && AtomWeights(m, wf, t, z, cn, true).value[r] == 1.0
    ensures Sum(AtomWeights(m, wf, t, z, cn, true).value) >= 1.0
  {
    var f := AtomWeights(m, wf, t, z, cn, true).value;
    assert f == MaxCnIndicator(t, z);
    var k :| 0 <= k < MaxRef && t.refcn[z][k] == Max(t.refcn[z]);
    assert f[k] == 1.0;
    SumAtLeastTerm(f, k);
  }

  /** The effective reference charges `refq + zeff` of one atom. */
  function ReferenceCharges(t: RefTables, z: nat): (qref: seq<real>)
    requires ValidTables(t) && z < NumElements
    ensures |qref| == MaxRef
    ensures forall r :: 0 <= r < MaxRef ==> qref[r] == t.refq[z][r] + t.zeff[z]
  {
    seq(MaxRef, r requires 0 <= r < MaxRef => t.refq[z][r] + t.zeff[z])
  }

  /** A weight of a reference times its charge scaling. */
  function ChargeScaled(zeta: real, weight: real): real
  {
    zeta * weight
  }

  /** The charge scaling of reference `r` of element `z` for an atom of charge `qi`. */
  function ReferenceZeta(m: ExpPow, model: D4Model, t: RefTables, z: nat, qi: real, r: nat): real
    requires ValidTables(t) && z < NumElements && r < MaxRef
  {
    Zeta(m, model.ga, Hardness(model, t, z), t.refq[z][r] + t.zeff[z], qi + t.zeff[z])
  }

  /** `gam[z] * gc`: the chemical hardness of element `z` scaled by the model's steepness. */
  function Hardness(model: D4Model, t: RefTables, z: nat): real
    requires ValidTables(t) && z < NumElements
  {
    t.gam[z] * model.gc
  }

  /** The charge-scaling matrix `z = zeta2(ga, gam * gc, refq + zeff, q + zeff)`, one row per atom. */
  function ChargeScalingMatrix(m: ExpPow, model: D4Model, t: RefTables, numbers: seq<nat>, q: seq<real>): (zm: seq<seq<real>>)
    requires ValidTables(t) && ValidNumbers(numbers) && |q| == |numbers|
    ensures |zm| == |numbers|
    ensures forall i :: 0 <= i < |numbers| ==> |zm[i]| == MaxRef
  {
    var n := |numbers|;
    var gam := seq(n, i requires 0 <= i < n => Hardness(model, t, numbers[i]));
    var qref := seq(n, i requires 0 <= i < n => ReferenceCharges(t, numbers[i]));
    var qmod := seq(n, i requires 0 <= i < n => q[i] + t.zeff[numbers[i]]);
    Zeta2(m, model.ga, gam, qref, qmod)
  }

  /**
   * Entry `(i, r)` of the charge-scaling matrix scales from the reference's effective charge to the
   * atom's, with the steepness of the atom's element.
   */
  lemma ChargeScalingEntry(m: ExpPow, model: D4Model, t: RefTables, numbers: seq<nat>, q: seq<real>, i: nat, r: nat)
    requires ValidTables(t) && ValidNumbers(numbers) && |q| == |numbers|
    requires i < |numbers| && r < MaxRef
    ensures ChargeScalingMatrix(m, model, t, numbers, q)[i][r] == ReferenceZeta(m, model, t, numbers[i], q[i], r)
  {
    var n := |numbers|;
    var gam := seq(n, i requires 0 <= i < n => Hardness(model, t, numbers[i]));
    var qref := seq(n, i requires 0 <= i < n => ReferenceCharges(t, numbers[i]));
    var qmod := seq(n, i requires 0 <= i < n => q[i] + t.zeff[numbers[i]]);
    var zm := Zeta2(m, model.ga, gam, qref, qmod);
    assert ChargeScalingMatrix(m, model, t, numbers, q) == zm;
    assert qref[i] == ReferenceCharges(t, numbers[i]);
    assert qref[i][r] == t.refq[numbers[i]][r] + t.zeff[numbers[i]];
    assert gam[i] == Hardness(model, t, numbers[i]);
    assert qmod[i] == q[i] + t.zeff[numbers[i]];
    assert zm[i][r] == Zeta(m, model.ga, gam[i], qref[i][r], qmod[i]);
  }

  /** `f` of every atom, or None when some atom's row is 0/0. */
  function AllAtomWeights(m: ExpPow, wf: real, t: RefTables, numbers: seq<nat>, cn: seq<real>, exceptional: seq<bool>): (f: Option<seq<seq<real>>>)
    requires ValidTables(t) && ValidNumbers(numbers) && |cn| == |numbers| && |exceptional| == |numbers|
    ensures f.Some? <==> forall i :: 0 <= i < |numbers| ==> AtomWeights(m, wf, t, numbers[i], cn[i], exceptional[i]).Some?
    ensures f.Some? ==> |f.value| == |numbers| && forall i :: 0 <= i < |numbers| ==>
      f.value[i] == AtomWeights(m, wf, t, numbers[i], cn[i], exceptional[i]).value
  {
    var rows := seq(|numbers|, i requires 0 <= i < |numbers| => AtomWeights(m, wf, t, numbers[i], cn[i], exceptional[i]));
    assert forall i :: 0 <= i < |numbers| ==> rows[i] == AtomWeights(m, wf, t, numbers[i], cn[i], exceptional[i]);
    if forall i :: 0 <= i < |numbers| ==> rows[i].Some? then
      Some(seq(|numbers|, i requires 0 <= i < |numbers| => rows[i].value))
    else None
  }

  /** `(f * z).mT`: the returned weights, one row per reference and one column per atom. */
  function ScaledTransposed(f: seq<seq<real>>, zm: seq<seq<real>>): (w: seq<seq<real>>)
    requires |f| == |zm|
    requires forall i :: 0 <= i < |f| ==> |f[i]| == MaxRef && |zm[i]| == MaxRef
    ensures |w| == MaxRef
    ensures forall r :: 0 <= r < MaxRef ==> |w[r]| == |f|
    ensures forall r, i :: 0 <= r < MaxRef && 0 <= i < |f| ==> w[r][i] == ChargeScaled(zm[i][r], f[i][r])
  {
    seq(MaxRef, r requires 0 <= r < MaxRef => seq(|f|, i requires 0 <= i < |f| => ChargeScaled(zm[i][r], f[i][r])))
  }

  /** The vectorised result, or None when it would hold the NaN of a zero norm. */
  function VectorisedWeights(m: ExpPow, model: D4Model, t: RefTables, numbers: seq<nat>, cn: seq<real>, q: seq<real>, exceptional: seq<bool>): (w: Option<seq<seq<real>>>)
    requires ValidTables(t) && ValidNumbers(numbers)
    requires |cn| == |numbers| && |q| == |numbers| && |exceptional| == |numbers|
    ensures w.Some? <==> AllAtomWeights(m, model.wf, t, numbers, cn, exceptional).Some?
    ensures w.Some? ==> |w.value| == MaxRef && forall r :: 0 <= r < MaxRef ==> |w.value[r]| == |numbers|
    ensures w.Some? ==> forall r, i :: 0 <= r < MaxRef && 0 <= i < |numbers| ==>
      w.value[r][i] == ChargeScaled(ChargeScalingMatrix(m, model, t, numbers, q)[i][r], AllAtomWeights(m, model.wf, t, numbers, cn, exceptional).value[i][r])
  {
    var f := AllAtomWeights(m, model.wf, t, numbers, cn, exceptional);
    if f.None? then None
    else Some(ScaledTransposed(f.value, ChargeScalingMatrix(m, model, t, numbers, q)))
  }

  /**
   * Each returned entry is the atom's weight for that reference (row `i` of `AllAtomWeights`, which
   * is the row `AtomWeights` gives for the atom) times its charge scaling.
   */
  lemma VectorisedEntry(m: ExpPow, model: D4Model, t: RefTables, numbers: seq<nat>, cn: seq<real>, q: seq<real>, exceptional: seq<bool>, r: nat, i: nat)
    requires ValidTables(t) && ValidNumbers(numbers)
    requires |cn| == |numbers| && |q| == |numbers| && |exceptional| == |numbers|
    requires VectorisedWeights(m, model, t, numbers, cn, q, exceptional).Some?
    requires r < MaxRef && i < |numbers|
    ensures AllAtomWeights(m, model.wf, t, numbers, cn, exceptional).Some?
    ensures VectorisedWeights(m, model, t, numbers, cn, q, exceptional).value[r][i] ==
      ChargeScaled(ReferenceZeta(m, model, t, numbers[i], q[i], r), AllAtomWeights(m, model.wf, t, numbers, cn, exceptional).value[i][r])
  {
    ChargeScalingEntry(m, model, t, numbers, q, i, r);
  }
}
