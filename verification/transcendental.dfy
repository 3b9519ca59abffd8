/**
 * `torch.exp` and `torch.pow`, which the model does not define: every routine takes them as the
 * function values of an `ExpPow`, and the lemmas that need their properties require `Sound`.
 */
module Transcendental {

  datatype ExpPow = ExpPow(exp: real -> real, pow: (real, real) -> real)

  /** The properties of the real exponential and power functions that the proofs rely on. */
  ghost predicate Sound(m: ExpPow)
  {
    && (forall x :: m.exp(x) > 0.0)
    && m.exp(0.0) == 1.0
    && (forall x, w :: x > 0.0 ==> m.pow(x, w) > 0.0)
    && (forall x, w :: m.pow(m.exp(x), w) == m.exp(w * x))
  }
}
