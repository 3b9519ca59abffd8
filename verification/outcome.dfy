/** Optional values and the error conditions under which the modelled routines raise. */
module Outcome {

  datatype Option<T> = None | Some(value: T)

  /** The exceptions the modelled code can raise (or, for NonFiniteWeights, the non-finite tensor it returns). */
  datatype Error =
    | EmptyMolecule        // `torch.max` over the reference counts of zero atoms
    | ZeroDivision         // Python float `1.0 / 0.0` when an atom's loop never touched `norm`
    | AmbiguousTruthValue  // `if` on the comparison with the (atoms x 1) `maxcn` tensor when there are several atoms
    | NonFiniteWeights     // a zero norm that the exceptional test lets through: the weights are 0/0
    | ZeroDimIndex         // `trapzd` indexing a 0-dimensional tensor with `[w]`
    | FloatExponent        // `torch.exp` applied to the Python float `a` in `zeta`

  datatype Result<T> = Ok(value: T) | Err(error: Error)

  /** The first exception among the outcomes of the first `k` rounds of a loop, which is the one raised. */
  function FirstError(errs: seq<Option<Error>>, k: nat): Option<Error>
    requires k <= |errs|
  {
    if k == 0 then None
    else
      var e := FirstError(errs, k - 1);
      if e.Some? then e else errs[k - 1]
  }

  /** No round raises exactly when no outcome is an exception; otherwise the earliest exception is raised. */
  lemma {:induction false} FirstErrorMeaning(errs: seq<Option<Error>>, k: nat)
    requires k <= |errs|
    ensures FirstError(errs, k).None? <==> forall i :: 0 <= i < k ==> errs[i].None?
    ensures FirstError(errs, k).Some? ==>
      exists i :: 0 <= i < k && errs[i] == FirstError(errs, k) && forall j :: 0 <= j < i ==> errs[j].None?
  {
    if k > 0 {
      FirstErrorMeaning(errs, k - 1);
    }
  }

  /** One more round: it raises only if none of the earlier rounds has. */
  lemma FirstErrorStep(errs: seq<Option<Error>>, k: nat)
    requires k < |errs|
    ensures FirstError(errs, k + 1) == if FirstError(errs, k).Some? then FirstError(errs, k) else errs[k]
  {
  }

  /** Once a round has raised, later rounds do not run: the exception stays the one raised. */
  lemma {:induction false} FirstErrorSticks(errs: seq<Option<Error>>, k: nat, k': nat)
    requires k <= k' <= |errs|
    requires FirstError(errs, k).Some?
    ensures FirstError(errs, k') == FirstError(errs, k)
  {
    if k' > k {
      FirstErrorSticks(errs, k, k' - 1);
    }
  }

  /** An outcome that is the earliest exception of the rounds, or none when there is none, is `FirstError`. */
  lemma FirstErrorUnique(errs: seq<Option<Error>>, err: Option<Error>)
    requires err.None? ==> forall i :: 0 <= i < |errs| ==> errs[i].None?
    requires err.Some? ==> exists i :: 0 <= i < |errs| && errs[i] == err && forall j :: 0 <= j < i ==> errs[j].None?
    ensures err == FirstError(errs, |errs|)
  {
    FirstErrorMeaning(errs, |errs|);
    if err.Some? {
      var i :| 0 <= i < |errs| && errs[i] == err && forall j :: 0 <= j < i ==> errs[j].None?;
      var e := FirstError(errs, |errs|);
      var i' :| 0 <= i' < |errs| && errs[i'] == e && forall j :: 0 <= j < i' ==> errs[j].None?;
      assert !(i < i') && !(i' < i);
    }
  }
}
