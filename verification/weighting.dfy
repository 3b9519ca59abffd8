/**
 * `D4Model.weight_references` as a whole: the defaults for `cn` and `q`, the exception for an
 * empty molecule, the exceptions the discarded loop raises, and the vectorised weights returned.
 */
module Weighting {
  import opened Outcome
  import opened Sums
  import opened Transcendental
  import opened Tables
  import opened ChargeScaling
  import opened Vectorised
  import opened LoopPath

  /** An optional per-atom argument, or `torch.zeros_like(numbers)` when it is not given. */
  function Defaulted(x: Option<seq<real>>, n: nat): (v: seq<real>)
    requires x.Some? ==> |x.value| == n
    ensures |v| == n
    ensures x.Some? ==> v == x.value
    ensures x.None? ==> forall i :: 0 <= i < n ==> v[i] == 0.0
  {
    if x.Some? then x.value else seq(n, i => 0.0)
  }

  /** The arguments of `weight_references` fit the molecule. */
  ghost predicate ValidArguments(t: RefTables, numbers: seq<nat>, cn: Option<seq<real>>, q: Option<seq<real>>, exceptional: seq<bool>)
  {
    && ValidTables(t) && ValidNumbers(numbers) && |exceptional| == |numbers|
    && (cn.Some? ==> |cn.value| == |numbers|)
    && (q.Some? ==> |q.value| == |numbers|)
  }

  /**
   * The outcome of `weight_references(numbers, cn, q)`: `torch.max` over no atoms raises first,
   * then the loop over atoms raises its first exception, and otherwise the vectorised weights
   * (one row per reference, one column per atom) are returned, unless a zero norm made them NaN.
   */
  function Weights(m: ExpPow, model: D4Model, t: RefTables, numbers: seq<nat>, cn: Option<seq<real>>, q: Option<seq<real>>,
                   exceptional: seq<bool>): (r: Result<seq<seq<real>>>)
    requires ValidArguments(t, numbers, cn, q, exceptional)
    ensures r.Ok? ==> |r.value| == MaxRef && forall k :: 0 <= k < MaxRef ==> |r.value[k]| == |numbers|
  {
    var n := |numbers|;
    var c := Defaulted(cn, n);
    var charges := Defaulted(q, n);
    if n == 0 then Err(EmptyMolecule)
    else match FirstError(LoopErrors(m, model.wf, t, numbers, c, exceptional, n), n)
      case Some(e) => Err(e)
      case None =>
        match VectorisedWeights(m, model, t, numbers, c, charges, exceptional)
        case None => Err(NonFiniteWeights)
        case Some(w) => Ok(w)
  }

  /**
   * `weight_references`: the vectorised weights, then the loop over atoms, whose tables are
   * discarded but whose exception propagates.
   */
  method WeightReferences(m: ExpPow, model: D4Model, t: RefTables, numbers: seq<nat>, cn: Option<seq<real>>, q: Option<seq<real>>,
                          exceptional: seq<bool>) returns (r: Result<seq<seq<real>>>)
    requires ValidArguments(t, numbers, cn, q, exceptional)
    ensures r == Weights(m, model, t, numbers, cn, q, exceptional)
  {
    var n := |numbers|;
    var c := if cn.None? then seq(n, i => 0.0) else cn.value;
    var charges := if q.None? then seq(n, i => 0.0) else q.value;
    if n == 0 {
      return Err(EmptyMolecule);
    }
    var f := VectorisedWeights(m, model, t, numbers, c, charges, exceptional);
    var err, gwks, gwvec := WeightReferencesLoop(m, model, t, numbers, c, charges, exceptional);
    if err.Some? {
      return Err(err.value);
    }
    if f.None? {
      return Err(NonFiniteWeights);
    }
    return Ok(f.value);
  }

  /** The loop raises nothing exactly when no atom raises in it. */
  lemma NoLoopError(m: ExpPow, wf: real, t: RefTables, numbers: seq<nat>, cn: seq<real>, exceptional: seq<bool>)
    requires ValidTables(t) && ValidNumbers(numbers) && |cn| == |numbers| && |exceptional| == |numbers|
    ensures FirstError(LoopErrors(m, wf, t, numbers, cn, exceptional, |numbers|), |numbers|).None? <==>
      forall i :: 0 <= i < |numbers| ==> AtomLoopError(m, wf, t, numbers, cn, exceptional, i).None?
  {
    var errs := LoopErrors(m, wf, t, numbers, cn, exceptional, |numbers|);
    FirstErrorMeaning(errs, |numbers|);
    forall i | 0 <= i < |numbers|
      ensures errs[i] == AtomLoopError(m, wf, t, numbers, cn, exceptional, i)
    {
    }
  }

  /** A loop that raises nothing has seen a reference for every atom. */
  lemma NoLoopErrorHasReferences(m: ExpPow, wf: real, t: RefTables, numbers: seq<nat>, cn: seq<real>, exceptional: seq<bool>)
    requires ValidTables(t) && ValidNumbers(numbers) && |cn| == |numbers| && |exceptional| == |numbers|
    requires FirstError(LoopErrors(m, wf, t, numbers, cn, exceptional, |numbers|), |numbers|).None?
    ensures forall i :: 0 <= i < |numbers| ==> t.refn[numbers[i]] > 0
  {
    NoLoopError(m, wf, t, numbers, cn, exceptional);
    forall i | 0 <= i < |numbers|
      ensures t.refn[numbers[i]] > 0
    {
      assert AtomLoopError(m, wf, t, numbers, cn, exceptional, i).None?;
      TouchesIffReferences(t, numbers[i]);
    }
  }

  /** The loop raises only a division by zero or an ambiguous truth value. */
  lemma LoopErrorKinds(m: ExpPow, wf: real, t: RefTables, numbers: seq<nat>, cn: seq<real>, exceptional: seq<bool>)
    requires ValidTables(t) && ValidNumbers(numbers) && |cn| == |numbers| && |exceptional| == |numbers|
    ensures var e := FirstError(LoopErrors(m, wf, t, numbers, cn, exceptional, |numbers|), |numbers|);
      e.Some? ==> e.value == ZeroDivision || e.value == AmbiguousTruthValue
  {
    var errs := LoopErrors(m, wf, t, numbers, cn, exceptional, |numbers|);
    FirstErrorMeaning(errs, |numbers|);
    forall i | 0 <= i < |numbers|
      ensures errs[i] == AtomLoopError(m, wf, t, numbers, cn, exceptional, i)
    {
    }
  }

  /** `weight_references` raises the empty-molecule error exactly for a molecule without atoms. */
  lemma WeightsEmptyMolecule(m: ExpPow, model: D4Model, t: RefTables, numbers: seq<nat>, cn: Option<seq<real>>, q: Option<seq<real>>,
                             exceptional: seq<bool>)
    requires ValidArguments(t, numbers, cn, q, exceptional)
    ensures Weights(m, model, t, numbers, cn, q, exceptional) == Err(EmptyMolecule) <==> |numbers| == 0
  {
    var n := |numbers|;
    LoopErrorKinds(m, model.wf, t, numbers, Defaulted(cn, n), exceptional);
  }

  /**
   * With sound exponentials the loop raises nothing exactly when every atom's element has a
   * reference and, in a molecule of several atoms, no atom's norm is exceptional.
   */
  lemma LoopSucceeds(m: ExpPow, wf: real, t: RefTables, numbers: seq<nat>, cn: seq<real>, exceptional: seq<bool>)
    requires Sound(m) && ValidTables(t) && ValidNumbers(numbers) && |cn| == |numbers| && |exceptional| == |numbers|
    ensures FirstError(LoopErrors(m, wf, t, numbers, cn, exceptional, |numbers|), |numbers|).None? <==>
      (forall i :: 0 <= i < |numbers| ==> t.refn[numbers[i]] > 0) &&
      (|numbers| <= 1 || forall i :: 0 <= i < |numbers| ==> !exceptional[i])
  {
    NoLoopError(m, wf, t, numbers, cn, exceptional);
    forall i | 0 <= i < |numbers| {
      AtomLoopErrorCases(m, wf, t, numbers, cn, exceptional, i);
    }
  }

  /** With sound exponentials every atom with a reference has defined weights. */
  lemma AllAtomWeightsDefined(m: ExpPow, wf: real, t: RefTables, numbers: seq<nat>, cn: seq<real>, exceptional: seq<bool>)
    requires Sound(m) && ValidTables(t) && ValidNumbers(numbers) && |cn| == |numbers| && |exceptional| == |numbers|
    requires forall i :: 0 <= i < |numbers| ==> t.refn[numbers[i]] > 0
    ensures AllAtomWeights(m, wf, t, numbers, cn, exceptional).Some?
  {
    forall i | 0 <= i < |numbers|
      ensures AtomWeights(m, wf, t, numbers[i], cn[i], exceptional[i]).Some?
    {
      AtomWeightsDefined(m, wf, t, numbers[i], cn[i], exceptional[i]);
    }
  }

  /**
   * With sound exponentials `weight_references` returns weights exactly when the molecule has
   * atoms, each of whose elements has a reference, and no atom's norm is exceptional unless it is
   * the only atom; in exact arithmetic the norm of an element with a reference is positive, so the
   * NaN of a zero norm never reaches the result (with floats the Gaussians can underflow to 0).
   */
  lemma WeightsSucceed(m: ExpPow, model: D4Model, t: RefTables, numbers: seq<nat>, cn: Option<seq<real>>, q: Option<seq<real>>,
                       exceptional: seq<bool>)
    requires Sound(m) && ValidArguments(t, numbers, cn, q, exceptional)
    ensures Weights(m, model, t, numbers, cn, q, exceptional).Ok? <==>
      && |numbers| > 0
      && (forall i :: 0 <= i < |numbers| ==> t.refn[numbers[i]] > 0)
      && (|numbers| == 1 || forall i :: 0 <= i < |numbers| ==> !exceptional[i])
    ensures Weights(m, model, t, numbers, cn, q, exceptional) != Err(NonFiniteWeights)
  {
    var n := |numbers|;
    var c := Defaulted(cn, n);
    LoopSucceeds(m, model.wf, t, numbers, c, exceptional);
    LoopErrorKinds(m, model.wf, t, numbers, c, exceptional);
    if FirstError(LoopErrors(m, model.wf, t, numbers, c, exceptional, n), n).None? {
      AllAtomWeightsDefined(m, model.wf, t, numbers, c, exceptional);
    }
  }

  /**
   * Without exceptional norms, `weight_references` fails exactly when some atom's element has no
   * reference, and then with the division by zero.
   */
  lemma WeightsZeroDivision(m: ExpPow, model: D4Model, t: RefTables, numbers: seq<nat>, cn: Option<seq<real>>, q: Option<seq<real>>,
                            exceptional: seq<bool>)
    requires Sound(m) && ValidArguments(t, numbers, cn, q, exceptional)
    requires |numbers| > 0 && forall i :: 0 <= i < |numbers| ==> !exceptional[i]
    ensures Weights(m, model, t, numbers, cn, q, exceptional).Err? <==> exists i :: 0 <= i < |numbers| && t.refn[numbers[i]] == 0
    ensures Weights(m, model, t, numbers, cn, q, exceptional).Err? ==> Weights(m, model, t, numbers, cn, q, exceptional).error == ZeroDivision
  {
    var n := |numbers|;
    var c := Defaulted(cn, n);
    var errs := LoopErrors(m, model.wf, t, numbers, c, exceptional, n);
    WeightsSucceed(m, model, t, numbers, cn, q, exceptional);
    FirstErrorMeaning(errs, n);
    forall i | 0 <= i < n
      ensures errs[i] == if t.refn[numbers[i]] == 0 then Some(ZeroDivision) else None
    {
      AtomLoopErrorCases(m, model.wf, t, numbers, c, exceptional, i);
    }
  }

  /** With the model's own reference counts, the failing element is the dummy element 0. */
  lemma StandardWeightsZeroDivision(m: ExpPow, model: D4Model, t: RefTables, numbers: seq<nat>, cn: Option<seq<real>>, q: Option<seq<real>>,
                                    exceptional: seq<bool>)
    requires Sound(m) && ValidArguments(t, numbers, cn, q, exceptional) && Standard(t)
    requires |numbers| > 0 && forall i :: 0 <= i < |numbers| ==> !exceptional[i]
    ensures Weights(m, model, t, numbers, cn, q, exceptional) == Err(ZeroDivision) <==> exists i :: 0 <= i < |numbers| && numbers[i] == 0
    ensures Weights(m, model, t, numbers, cn, q, exceptional).Ok? <==> forall i :: 0 <= i < |numbers| ==> numbers[i] != 0
  {
    StandardRefn(t);
    WeightsZeroDivision(m, model, t, numbers, cn, q, exceptional);
  }

  /**
   * In a molecule of several atoms whose elements all have references, an exceptional norm makes
   * the loop's max-CN test raise.
   */
  lemma WeightsAmbiguous(m: ExpPow, model: D4Model, t: RefTables, numbers: seq<nat>, cn: Option<seq<real>>, q: Option<seq<real>>,
                         exceptional: seq<bool>, j: nat)
    requires Sound(m) && ValidArguments(t, numbers, cn, q, exceptional)
    requires |numbers| > 1 && forall i :: 0 <= i < |numbers| ==> t.refn[numbers[i]] > 0
    requires j < |numbers| && exceptional[j]
    ensures Weights(m, model, t, numbers, cn, q, exceptional) == Err(AmbiguousTruthValue)
  {
    var n := |numbers|;
    var c := Defaulted(cn, n);
    var errs := LoopErrors(m, model.wf, t, numbers, c, exceptional, n);
    FirstErrorMeaning(errs, n);
    forall i | 0 <= i < n
      ensures errs[i] == Some(AmbiguousTruthValue) <==> exceptional[i]
      ensures errs[i].Some? ==> errs[i] == Some(AmbiguousTruthValue)
    {
      AtomLoopErrorCases(m, model.wf, t, numbers, c, exceptional, i);
    }
    assert errs[j].Some?;
  }

  /** Returned weights are the vectorised weights of the defaulted arguments. */
  lemma WeightsValue(m: ExpPow, model: D4Model, t: RefTables, numbers: seq<nat>, cn: Option<seq<real>>, q: Option<seq<real>>,
                     exceptional: seq<bool>)
    requires ValidArguments(t, numbers, cn, q, exceptional)
    requires Weights(m, model, t, numbers, cn, q, exceptional).Ok?
    ensures VectorisedWeights(m, model, t, numbers, Defaulted(cn, |numbers|), Defaulted(q, |numbers|), exceptional).Some?
    ensures Weights(m, model, t, numbers, cn, q, exceptional).value
      == VectorisedWeights(m, model, t, numbers, Defaulted(cn, |numbers|), Defaulted(q, |numbers|), exceptional).value
  {
  }

  /**
   * A returned entry `(k, i)` is the weight of reference `k` of atom `i`, as the per-atom
   * weighting gives it, times the charge scaling of that reference at the atom's charge.
   */
  lemma WeightsEntry(m: ExpPow, model: D4Model, t: RefTables, numbers: seq<nat>, cn: Option<seq<real>>, q: Option<seq<real>>,
                     exceptional: seq<bool>, k: nat, i: nat)
    requires ValidArguments(t, numbers, cn, q, exceptional)
    requires Weights(m, model, t, numbers, cn, q, exceptional).Ok?
    requires k < MaxRef && i < |numbers|
    ensures AtomWeights(m, model.wf, t, numbers[i], Defaulted(cn, |numbers|)[i], exceptional[i]).Some?
    ensures Weights(m, model, t, numbers, cn, q, exceptional).value[k][i] ==
      ChargeScaled(ReferenceZeta(m, model, t, numbers[i], Defaulted(q, |numbers|)[i], k),
                   AtomWeights(m, model.wf, t, numbers[i], Defaulted(cn, |numbers|)[i], exceptional[i]).value[k])
  {
    var n := |numbers|;
    var c := Defaulted(cn, n);
    var charges := Defaulted(q, n);
    WeightsValue(m, model, t, numbers, cn, q, exceptional);
    VectorisedEntry(m, model, t, numbers, c, charges, exceptional, k, i);
  }

  /** With sound exponentials every returned weight is non-negative. */
  lemma WeightsNonnegative(m: ExpPow, model: D4Model, t: RefTables, numbers: seq<nat>, cn: Option<seq<real>>, q: Option<seq<real>>,
                           exceptional: seq<bool>, k: nat, i: nat)
    requires Sound(m) && ValidArguments(t, numbers, cn, q, exceptional)
    requires Weights(m, model, t, numbers, cn, q, exceptional).Ok?
    requires k < MaxRef && i < |numbers|
    ensures Weights(m, model, t, numbers, cn, q, exceptional).value[k][i] >= 0.0
  {
    var n := |numbers|;
    var c := Defaulted(cn, n);
    var charges := Defaulted(q, n);
    var z := numbers[i];
    WeightsEntry(m, model, t, numbers, cn, q, exceptional, k, i);
    var f := AtomWeights(m, model.wf, t, z, c[i], exceptional[i]).value;
    if exceptional[i] {
      FallbackSelectsMaxCn(m, model.wf, t, z, c[i]);
    } else {
      AtomWeightsBounded(m, model.wf, t, z, c[i], k);
    }
    ZetaPositive(m, model.ga, Hardness(model, t, z), t.refq[z][k] + t.zeff[z], charges[i] + t.zeff[z]);
    ChargeScaledNonnegative(ReferenceZeta(m, model, t, z, charges[i], k), f[k]);
  }

  /** A non-negative weight times a positive scaling is non-negative. */
  lemma ChargeScaledNonnegative(zeta: real, weight: real)
    requires zeta > 0.0 && weight >= 0.0
    ensures ChargeScaled(zeta, weight) >= 0.0
  {
  }

  /**
   * Without an exceptional norm, each atom's returned column, with the charge scaling divided
   * out, is a distribution over the references: non-negative and summing to one.
   */
  lemma WeightsColumnIsDistribution(m: ExpPow, model: D4Model, t: RefTables, numbers: seq<nat>, cn: Option<seq<real>>, q: Option<seq<real>>,
                                    exceptional: seq<bool>, i: nat)
    requires Sound(m) && ValidArguments(t, numbers, cn, q, exceptional)
    requires Weights(m, model, t, numbers, cn, q, exceptional).Ok?
    requires i < |numbers| && !exceptional[i]
    ensures var f := AtomWeights(m, model.wf, t, numbers[i], Defaulted(cn, |numbers|)[i], false);
      && f.Some?
      && Sum(f.value) == 1.0
      && (forall k :: 0 <= k < MaxRef ==> 0.0 <= f.value[k] <= 1.0)
      && (forall k :: t.refn[numbers[i]] <= k < MaxRef ==> Weights(m, model, t, numbers, cn, q, exceptional).value[k][i] == 0.0)
  {
    var n := |numbers|;
    var c := Defaulted(cn, n);
    var f := AtomWeights(m, model.wf, t, numbers[i], c[i], false);
    WeightsSucceed(m, model, t, numbers, cn, q, exceptional);
    AtomWeightsDefined(m, model.wf, t, numbers[i], c[i], false);
    AtomWeightsSumToOne(m, model.wf, t, numbers[i], c[i]);
    forall k | 0 <= k < MaxRef
      ensures 0.0 <= f.value[k] <= 1.0
    {
      AtomWeightsBounded(m, model.wf, t, numbers[i], c[i], k);
    }
    var w := Weights(m, model, t, numbers, cn, q, exceptional).value;
    forall k | t.refn[numbers[i]] <= k < MaxRef
      ensures w[k][i] == 0.0
    {
      AtomWeightsPadding(m, model.wf, t, numbers[i], c[i], k);
      WeightsEntry(m, model, t, numbers, cn, q, exceptional, k, i);
      var z := ReferenceZeta(m, model, t, numbers[i], Defaulted(q, n)[i], k);
      assert w[k][i] == ChargeScaled(z, f.value[k]);
      assert f.value[k] == 0.0;
    }
  }

  /**
   * The `z` left behind by the loop over atoms: the `zeta` of the last reference of the last atom,
   * which rebinds the name of the charge-scaling matrix before `(f * z).mT` is returned.
   */
  function LastLoopZeta(m: ExpPow, model: D4Model, t: RefTables, numbers: seq<nat>, q: seq<real>): real
    requires ValidTables(t) && ValidNumbers(numbers) && |q| == |numbers|
    requires |numbers| > 0 && t.refn[numbers[|numbers| - 1]] > 0
  {
    var last := |numbers| - 1;
    ReferenceZeta(m, model, t, numbers[last], q[last], t.refn[numbers[last]] - 1)
  }

  /** `(f * z).mT` for a scalar `z`: every weight times the same factor. */
  function ScalarScaledTransposed(f: seq<seq<real>>, z: real): (w: seq<seq<real>>)
    requires forall i :: 0 <= i < |f| ==> |f[i]| == MaxRef
    ensures |w| == MaxRef
    ensures forall k :: 0 <= k < MaxRef ==> |w[k]| == |f|
    ensures forall k, i :: 0 <= k < MaxRef && 0 <= i < |f| ==> w[k][i] == ChargeScaled(z, f[i][k])
  {
    seq(MaxRef, k requires 0 <= k < MaxRef => seq(|f|, i requires 0 <= i < |f| => ChargeScaled(z, f[i][k])))
  }

  /**
   * Whether atom `i` raises in the loop as written: the exceptions of `AtomLoopError`, and
   * otherwise the written `zeta` of its first reference, which raises when the atom's effective
   * charge `q + zeff` is not positive (it is the same for every reference of the atom).
   */
  function AtomLoopErrorAsWritten(m: ExpPow, model: D4Model, t: RefTables, numbers: seq<nat>, cn: seq<real>, q: seq<real>,
                                  exceptional: seq<bool>, i: nat): (e: Option<Error>)
    requires ValidTables(t) && ValidNumbers(numbers)
    requires |cn| == |numbers| && |q| == |numbers| && |exceptional| == |numbers|
    requires i < |numbers|
    ensures AtomLoopError(m, model.wf, t, numbers, cn, exceptional, i).Some? ==> e == AtomLoopError(m, model.wf, t, numbers, cn, exceptional, i)
    ensures AtomLoopError(m, model.wf, t, numbers, cn, exceptional, i).None? ==>
      e == if q[i] + t.zeff[numbers[i]] <= 0.0 then Some(FloatExponent) else None
    ensures e.Some? ==> e.value == ZeroDivision || e.value == AmbiguousTruthValue || e.value == FloatExponent
  {
    var z := numbers[i];
    var e := AtomLoopError(m, model.wf, t, numbers, cn, exceptional, i);
    if e.Some? then e
    else
      TouchesIffReferences(t, z);
      match ZetaAsWritten(m, model.ga, Hardness(model, t, z), t.refq[z][0] + t.zeff[z], q[i] + t.zeff[z])
      case Err(x) => Some(x)
      case Ok(_) => None
  }

  /** The outcome of the written loop's round for each of the first `k` atoms. */
  function LoopErrorsAsWritten(m: ExpPow, model: D4Model, t: RefTables, numbers: seq<nat>, cn: seq<real>, q: seq<real>,
                               exceptional: seq<bool>, k: nat): (errs: seq<Option<Error>>)
    requires ValidTables(t) && ValidNumbers(numbers)
    requires |cn| == |numbers| && |q| == |numbers| && |exceptional| == |numbers|
    requires k <= |numbers|
    ensures |errs| == k
    ensures forall i {:trigger AtomLoopErrorAsWritten(m, model, t, numbers, cn, q, exceptional, i)} :: 0 <= i < k ==>
      errs[i] == AtomLoopErrorAsWritten(m, model, t, numbers, cn, q, exceptional, i)
  {
    if k == 0 then []
    else LoopErrorsAsWritten(m, model, t, numbers, cn, q, exceptional, k - 1) + [AtomLoopErrorAsWritten(m, model, t, numbers, cn, q, exceptional, k - 1)]
  }

  /**
   * `weight_references` as written: its loop raises the exceptions of `Weights`, and also the
   * `TypeError` of the written `zeta` for an atom whose effective charge is not positive; the
   * returned weights are all scaled by `LastLoopZeta` instead of by their own entries of the
   * charge-scaling matrix.
   */
  function WeightsAsWritten(m: ExpPow, model: D4Model, t: RefTables, numbers: seq<nat>, cn: Option<seq<real>>, q: Option<seq<real>>,
                            exceptional: seq<bool>): (r: Result<seq<seq<real>>>)
    requires ValidArguments(t, numbers, cn, q, exceptional)
    ensures r.Ok? ==> |r.value| == MaxRef && forall k :: 0 <= k < MaxRef ==> |r.value[k]| == |numbers|
    ensures |numbers| == 0 <==> r == Err(EmptyMolecule)
  {
    var n := |numbers|;
    var c := Defaulted(cn, n);
    var charges := Defaulted(q, n);
    if n == 0 then Err(EmptyMolecule)
    else match FirstError(LoopErrorsAsWritten(m, model, t, numbers, c, charges, exceptional, n), n)
      case Some(e) =>
        AsWrittenLoopErrorKinds(m, model, t, numbers, c, charges, exceptional);
        Err(e)
      case None =>
        AsWrittenNoLoopError(m, model, t, numbers, c, charges, exceptional);
        NoLoopErrorHasReferences(m, model.wf, t, numbers, c, exceptional);
        match AllAtomWeights(m, model.wf, t, numbers, c, exceptional)
        case None => Err(NonFiniteWeights)
        case Some(f) => Ok(ScalarScaledTransposed(f, LastLoopZeta(m, model, t, numbers, charges)))
  }

  /** The written loop raises only a division by zero, an ambiguous truth value or the `TypeError` of `zeta`. */
  lemma AsWrittenLoopErrorKinds(m: ExpPow, model: D4Model, t: RefTables, numbers: seq<nat>, cn: seq<real>, q: seq<real>, exceptional: seq<bool>)
    requires ValidTables(t) && ValidNumbers(numbers)
    requires |cn| == |numbers| && |q| == |numbers| && |exceptional| == |numbers|
    ensures var e := FirstError(LoopErrorsAsWritten(m, model, t, numbers, cn, q, exceptional, |numbers|), |numbers|);
      e.Some? ==> e.value == ZeroDivision || e.value == AmbiguousTruthValue || e.value == FloatExponent
  {
    var errs := LoopErrorsAsWritten(m, model, t, numbers, cn, q, exceptional, |numbers|);
    FirstErrorMeaning(errs, |numbers|);
    if FirstError(errs, |numbers|).Some? {
      var i :| 0 <= i < |numbers| && errs[i] == FirstError(errs, |numbers|) && forall j :: 0 <= j < i ==> errs[j].None?;
      assert errs[i] == AtomLoopErrorAsWritten(m, model, t, numbers, cn, q, exceptional, i);
    }
  }

  /**
   * The written loop raises nothing exactly when the corrected loop raises nothing and every
   * atom's effective charge is positive.
   */
  lemma AsWrittenNoLoopError(m: ExpPow, model: D4Model, t: RefTables, numbers: seq<nat>, cn: seq<real>, q: seq<real>, exceptional: seq<bool>)
    requires ValidTables(t) && ValidNumbers(numbers)
    requires |cn| == |numbers| && |q| == |numbers| && |exceptional| == |numbers|
    ensures FirstError(LoopErrorsAsWritten(m, model, t, numbers, cn, q, exceptional, |numbers|), |numbers|).None? <==>
      && FirstError(LoopErrors(m, model.wf, t, numbers, cn, exceptional, |numbers|), |numbers|).None?
      && forall i :: 0 <= i < |numbers| ==> q[i] + t.zeff[numbers[i]] > 0.0
  {
    var n := |numbers|;
    var errs := LoopErrorsAsWritten(m, model, t, numbers, cn, q, exceptional, n);
    FirstErrorMeaning(errs, n);
    NoLoopError(m, model.wf, t, numbers, cn, exceptional);
    if FirstError(errs, n).None? {
      forall i | 0 <= i < n
        ensures AtomLoopError(m, model.wf, t, numbers, cn, exceptional, i).None? && q[i] + t.zeff[numbers[i]] > 0.0
      {
        assert errs[i] == AtomLoopErrorAsWritten(m, model, t, numbers, cn, q, exceptional, i);
      }
    } else if FirstError(LoopErrors(m, model.wf, t, numbers, cn, exceptional, n), n).None? {
      var i :| 0 <= i < n && errs[i].Some?;
      assert errs[i] == AtomLoopErrorAsWritten(m, model, t, numbers, cn, q, exceptional, i);
      assert AtomLoopError(m, model.wf, t, numbers, cn, exceptional, i).None?;
    }
  }

  /** `Weights` returns exactly when there are atoms, its loop raises nothing and `f` is defined. */
  lemma WeightsOk(m: ExpPow, model: D4Model, t: RefTables, numbers: seq<nat>, cn: Option<seq<real>>, q: Option<seq<real>>,
                  exceptional: seq<bool>)
    requires ValidArguments(t, numbers, cn, q, exceptional)
    ensures Weights(m, model, t, numbers, cn, q, exceptional).Ok? <==>
      && |numbers| > 0
      && FirstError(LoopErrors(m, model.wf, t, numbers, Defaulted(cn, |numbers|), exceptional, |numbers|), |numbers|).None?
      && AllAtomWeights(m, model.wf, t, numbers, Defaulted(cn, |numbers|), exceptional).Some?
  {
  }

  /** The written routine returns exactly when there are atoms, its loop raises nothing and `f` is defined. */
  lemma WeightsAsWrittenOk(m: ExpPow, model: D4Model, t: RefTables, numbers: seq<nat>, cn: Option<seq<real>>, q: Option<seq<real>>,
                           exceptional: seq<bool>)
    requires ValidArguments(t, numbers, cn, q, exceptional)
    ensures WeightsAsWritten(m, model, t, numbers, cn, q, exceptional).Ok? <==>
      && |numbers| > 0
      && FirstError(LoopErrorsAsWritten(m, model, t, numbers, Defaulted(cn, |numbers|), Defaulted(q, |numbers|), exceptional, |numbers|), |numbers|).None?
      && AllAtomWeights(m, model.wf, t, numbers, Defaulted(cn, |numbers|), exceptional).Some?
  {
  }

  /** When its loop raises, the written routine raises that exception. */
  lemma WeightsAsWrittenLoopError(m: ExpPow, model: D4Model, t: RefTables, numbers: seq<nat>, cn: Option<seq<real>>, q: Option<seq<real>>,
                                  exceptional: seq<bool>)
    requires ValidArguments(t, numbers, cn, q, exceptional) && |numbers| > 0
    requires FirstError(LoopErrorsAsWritten(m, model, t, numbers, Defaulted(cn, |numbers|), Defaulted(q, |numbers|), exceptional, |numbers|), |numbers|).Some?
    ensures WeightsAsWritten(m, model, t, numbers, cn, q, exceptional) ==
      Err(FirstError(LoopErrorsAsWritten(m, model, t, numbers, Defaulted(cn, |numbers|), Defaulted(q, |numbers|), exceptional, |numbers|), |numbers|).value)
  {
  }

  /**
   * The written routine returns weights exactly when the corrected one does and every atom's
   * effective charge `q + zeff` is positive.
   */
  lemma WeightsAsWrittenSucceeds(m: ExpPow, model: D4Model, t: RefTables, numbers: seq<nat>, cn: Option<seq<real>>, q: Option<seq<real>>,
                                 exceptional: seq<bool>)
    requires ValidArguments(t, numbers, cn, q, exceptional)
    ensures WeightsAsWritten(m, model, t, numbers, cn, q, exceptional).Ok? <==>
      && Weights(m, model, t, numbers, cn, q, exceptional).Ok?
      && forall i :: 0 <= i < |numbers| ==> Defaulted(q, |numbers|)[i] + t.zeff[numbers[i]] > 0.0
  {
    WeightsOk(m, model, t, numbers, cn, q, exceptional);
    WeightsAsWrittenOk(m, model, t, numbers, cn, q, exceptional);
    if |numbers| > 0 {
      AsWrittenNoLoopError(m, model, t, numbers, Defaulted(cn, |numbers|), Defaulted(q, |numbers|), exceptional);
    }
  }

  /** When the corrected loop raises nothing, the written loop can raise only the `TypeError` of `zeta`. */
  lemma AsWrittenLoopErrorIsFloat(m: ExpPow, model: D4Model, t: RefTables, numbers: seq<nat>, cn: seq<real>, q: seq<real>, exceptional: seq<bool>)
    requires ValidTables(t) && ValidNumbers(numbers)
    requires |cn| == |numbers| && |q| == |numbers| && |exceptional| == |numbers|
    requires FirstError(LoopErrors(m, model.wf, t, numbers, cn, exceptional, |numbers|), |numbers|).None?
    requires FirstError(LoopErrorsAsWritten(m, model, t, numbers, cn, q, exceptional, |numbers|), |numbers|).Some?
    ensures FirstError(LoopErrorsAsWritten(m, model, t, numbers, cn, q, exceptional, |numbers|), |numbers|) == Some(FloatExponent)
  {
    var n := |numbers|;
    var errs := LoopErrorsAsWritten(m, model, t, numbers, cn, q, exceptional, n);
    FirstErrorMeaning(errs, n);
    NoLoopError(m, model.wf, t, numbers, cn, exceptional);
    var i :| 0 <= i < n && errs[i] == FirstError(errs, n) && forall j :: 0 <= j < i ==> errs[j].None?;
    assert errs[i] == AtomLoopErrorAsWritten(m, model, t, numbers, cn, q, exceptional, i);
    assert AtomLoopError(m, model.wf, t, numbers, cn, exceptional, i).None?;
  }

  /** Where the corrected routine returns, the written one can fail only with the `TypeError` of `zeta`. */
  lemma WeightsAsWrittenFailure(m: ExpPow, model: D4Model, t: RefTables, numbers: seq<nat>, cn: Option<seq<real>>, q: Option<seq<real>>,
                                exceptional: seq<bool>)
    requires ValidArguments(t, numbers, cn, q, exceptional)
    requires Weights(m, model, t, numbers, cn, q, exceptional).Ok?
    ensures WeightsAsWritten(m, model, t, numbers, cn, q, exceptional).Err? ==>
      WeightsAsWritten(m, model, t, numbers, cn, q, exceptional) == Err(FloatExponent)
  {
    var n := |numbers|;
    var c := Defaulted(cn, n);
    var charges := Defaulted(q, n);
    WeightsOk(m, model, t, numbers, cn, q, exceptional);
    WeightsAsWrittenOk(m, model, t, numbers, cn, q, exceptional);
    if FirstError(LoopErrorsAsWritten(m, model, t, numbers, c, charges, exceptional, n), n).Some? {
      AsWrittenLoopErrorIsFloat(m, model, t, numbers, c, charges, exceptional);
      WeightsAsWrittenLoopError(m, model, t, numbers, cn, q, exceptional);
    }
  }

  /** A neutral atom (`q = -zeff`) makes the written routine raise wherever the corrected one returns. */
  lemma WeightsAsWrittenRaisesOnNeutralAtom(m: ExpPow, model: D4Model, t: RefTables, numbers: seq<nat>, cn: Option<seq<real>>, q: Option<seq<real>>,
                                            exceptional: seq<bool>, j: nat)
    requires ValidArguments(t, numbers, cn, q, exceptional)
    requires Weights(m, model, t, numbers, cn, q, exceptional).Ok?
    requires j < |numbers| && Defaulted(q, |numbers|)[j] + t.zeff[numbers[j]] <= 0.0
    ensures WeightsAsWritten(m, model, t, numbers, cn, q, exceptional) == Err(FloatExponent)
  {
    WeightsAsWrittenSucceeds(m, model, t, numbers, cn, q, exceptional);
    WeightsAsWrittenFailure(m, model, t, numbers, cn, q, exceptional);
  }

  /**
   * The returned weight of reference `k` of atom `i` as written differs from the intended one
   * whenever that weight is not zero and its own charge scaling differs from the last loop `zeta`.
   */
  lemma WeightsAsWrittenDiffers(m: ExpPow, model: D4Model, t: RefTables, numbers: seq<nat>, cn: Option<seq<real>>, q: Option<seq<real>>,
                                exceptional: seq<bool>, k: nat, i: nat)
    requires ValidArguments(t, numbers, cn, q, exceptional)
    requires Weights(m, model, t, numbers, cn, q, exceptional).Ok?
    requires k < MaxRef && i < |numbers|
    requires AtomWeights(m, model.wf, t, numbers[i], Defaulted(cn, |numbers|)[i], exceptional[i]).value[k] != 0.0
    requires |numbers| > 0 && t.refn[numbers[|numbers| - 1]] > 0
    requires ReferenceZeta(m, model, t, numbers[i], Defaulted(q, |numbers|)[i], k) != LastLoopZeta(m, model, t, numbers, Defaulted(q, |numbers|))
    requires forall j :: 0 <= j < |numbers| ==> Defaulted(q, |numbers|)[j] + t.zeff[numbers[j]] > 0.0
    ensures WeightsAsWritten(m, model, t, numbers, cn, q, exceptional).Ok?
    ensures WeightsAsWritten(m, model, t, numbers, cn, q, exceptional).value[k][i] != Weights(m, model, t, numbers, cn, q, exceptional).value[k][i]
  {
    var n := |numbers|;
    var c := Defaulted(cn, n);
    var charges := Defaulted(q, n);
    WeightsEntry(m, model, t, numbers, cn, q, exceptional, k, i);
    WeightsAsWrittenSucceeds(m, model, t, numbers, cn, q, exceptional);
    var a := AtomWeights(m, model.wf, t, numbers[i], c[i], exceptional[i]).value[k];
    var own := ReferenceZeta(m, model, t, numbers[i], charges[i], k);
    var last := LastLoopZeta(m, model, t, numbers, charges);
    assert WeightsAsWritten(m, model, t, numbers, cn, q, exceptional).value[k][i] == ChargeScaled(last, a);
    ProductsDiffer(a, own, last);
  }

  /** Scaling a non-zero weight by two different factors gives two different values. */
  lemma ProductsDiffer(a: real, b: real, c: real)
    requires a != 0.0 && b != c
    ensures ChargeScaled(b, a) != ChargeScaled(c, a)
  {
  }
}
