/** Failure-compatible wrappers shared by the attention modules. */
module Common {

  datatype Option<+T> = None | Some(value: T)

  /** The ways a forward pass of the modelled layers can fail. */
  datatype Error =
    /** `_get_initial_context` asserts `L_Q == L_V` when causal masking is on. */
    | QueryValueLengthMismatch
    /** `d_model // n_heads` is evaluated with `n_heads == 0`. */
    | ZeroHeads

  datatype Result<+T> = Ok(value: T) | Err(error: Error)

  /** What an attention call returns: the context and, when requested, the weights. */
  datatype Output<+T> = Output(context: T, weights: Option<T>)

  /**
   * `self.scale or fallback`: a configured scale that is absent or zero (both falsy)
   * gives way to the fallback `1/sqrt(E)`.
   */
  function EffectiveScale(configured: Option<real>, fallback: real): (scale: real)
    ensures configured.None? ==> scale == fallback
    ensures configured.Some? && configured.value == 0.0 ==> scale == fallback
    ensures configured.Some? && configured.value != 0.0 ==> scale == configured.value
  {
    match configured
    case Some(v) => if v != 0.0 then v else fallback
    case None => fallback
  }
}
