/**
 * The constructor of `AttentionLayer`: the per-head query/key and value widths and the
 * shapes of the four linear projections around the inner attention.
 */
module AttentionLayer {
  import opened Common

  /**
   * `d or (d_model // n_heads)`: a configured width that is absent or zero (both falsy)
   * gives way to the per-head share of `d_model`, and that share divides by `n_heads`.
   */
  function HeadWidth(configured: Option<int>, dModel: nat, nHeads: nat): (r: Result<int>)
    ensures configured.Some? && configured.value != 0 ==> r == Ok(configured.value)
    ensures (configured.None? || configured.value == 0) && nHeads == 0 ==> r == Err(ZeroHeads)
    ensures (configured.None? || configured.value == 0) && nHeads > 0 ==>
      r.Ok? && 0 <= r.value && r.value * nHeads <= dModel < (r.value + 1) * nHeads
  {
    match configured
    case Some(d) =>
      if d != 0 then Ok(d)
      else if nHeads == 0 then Err(ZeroHeads)
      else Ok(dModel / nHeads)
    case None =>
      if nHeads == 0 then Err(ZeroHeads)
      else Ok(dModel / nHeads)
  }

  /** The in and out features of one `nn.Linear`. */
  datatype Linear = Linear(inFeatures: int, outFeatures: int)

  /** The layer's widths and its query, key, value and output projections. */
  datatype Layer = Layer(dKeys: int, dValues: int, nHeads: nat,
                         query: Linear, key: Linear, value: Linear, out: Linear)

  /**
   * `AttentionLayer.__init__`: the key width is resolved first and the value width
   * second, so a missing width with zero heads fails on `d_model // n_heads`.
   */
  function NewLayer(dModel: nat, nHeads: nat, dKeys: Option<int>, dValues: Option<int>): (r: Result<Layer>)
    ensures r.Err? <==> nHeads == 0 && (dKeys.None? || dKeys.value == 0 || dValues.None? || dValues.value == 0)
    ensures r.Err? ==> r.error == ZeroHeads
    ensures r.Ok? ==>
      var l := r.value;
      Ok(l.dKeys) == HeadWidth(dKeys, dModel, nHeads) && Ok(l.dValues) == HeadWidth(dValues, dModel, nHeads) &&
      l.nHeads == nHeads &&
      l.query == Linear(dModel, l.dKeys * nHeads) && l.key == Linear(dModel, l.dKeys * nHeads) &&
      l.value == Linear(dModel, l.dValues * nHeads) && l.out == Linear(l.dValues * nHeads, dModel)
  {
    match HeadWidth(dKeys, dModel, nHeads)
    case Err(e) => Err(e)
    case Ok(dk) =>
      match HeadWidth(dValues, dModel, nHeads)
      case Err(e) => Err(e)
      case Ok(dv) =>
        Ok(Layer(dk, dv, nHeads,
                 Linear(dModel, dk * nHeads), Linear(dModel, dk * nHeads),
                 Linear(dModel, dv * nHeads), Linear(dv * nHeads, dModel)))
  }

  /**
   * With the default widths and a head count that divides `d_model`, the heads split
   * `d_model` evenly and every projection maps `d_model` features to `d_model` features.
   */
  lemma DefaultWidthsFillModel(dModel: nat, nHeads: nat)
    requires nHeads > 0 && dModel % nHeads == 0
    ensures var r := NewLayer(dModel, nHeads, None, None);
      r.Ok? && r.value.dKeys == r.value.dValues == dModel / nHeads &&
      r.value.query == r.value.key == r.value.value == r.value.out == Linear(dModel, dModel)
  {
    var w := dModel / nHeads;
    assert w * nHeads == dModel by {
      assert dModel == nHeads * (dModel / nHeads) + dModel % nHeads;
    }
  }
}
