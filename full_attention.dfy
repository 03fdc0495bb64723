/**
 * `FullAttention`: dense scaled dot-product attention in which every query attends to
 * every key, with an optional mask that defaults to the causal mask.
 */
module FullAttention {
  import opened Common
  import opened Tensors
  import opened Masking

  /** The constructor arguments of `FullAttention` that the forward pass reads. */
  datatype Config = Config(scale: Option<real>, maskFlag: bool, outputAttention: bool)

  /** `einsum("blhe,bshe->bhls", queries, keys)`: every query against every key, per head. */
  function RawScores(queries: Tensor4, keys: Tensor4, B: nat, L: nat, S: nat, H: nat, E: nat): (s: Tensor4)
    requires Shape4(queries, B, L, H, E) && Shape4(keys, B, S, H, E)
    ensures Shape4(s, B, H, L, S)
    ensures forall b, h, l, j :: 0 <= b < B && 0 <= h < H && 0 <= l < L && 0 <= j < S ==>
      s[b][h][l][j] == Dot(queries[b][l][h], keys[b][j][h])
  {
    seq(B, b requires 0 <= b < B =>
      seq(H, h requires 0 <= h < H =>
        seq(L, l requires 0 <= l < L =>
          seq(S, j requires 0 <= j < S => Dot(queries[b][l][h], keys[b][j][h])))))
  }

  /** The mask in force: the one passed in, or `TriangularCausalMask(B, L)` when none is. */
  function EffectiveMask(attnMask: Option<seq<seq<seq<seq<bool>>>>>, B: nat, L: nat)
    : (mask: seq<seq<seq<seq<bool>>>>)
    ensures attnMask.Some? ==> mask == attnMask.value
    ensures attnMask.None? ==> mask == TriangularCausalMask(B, L)
  {
    match attnMask
    case Some(m) => m
    case None => TriangularCausalMask(B, L)
  }

  /** `mask.tile([1, H, 1, 1])`: a `[B, 1, L, S]` mask repeated for each of the `H` heads. */
  function TileHeads(mask: seq<seq<seq<seq<bool>>>>, B: nat, H: nat, L: nat, S: nat)
    : (t: seq<seq<seq<seq<bool>>>>)
    requires Shape4(mask, B, 1, L, S)
    ensures Shape4(t, B, H, L, S)
    ensures forall b, h :: 0 <= b < B && 0 <= h < H ==> t[b][h] == mask[b][0]
  {
    seq(B, b requires 0 <= b < B => seq(H, _ => mask[b][0]))
  }

  /** `scale * x` for a positive scale: negative infinity stays negative infinity. */
  function ScaleExt(c: real, x: Ext): (y: Ext)
    requires c > 0.0
    ensures x == NegInf <==> y == NegInf
  {
    match x
    case NegInf => NegInf
    case Fin(v) => Fin(c * v)
  }

  /**
   * The argument of softmax in `forward`: `scale * where(mask, -inf, scores)` with
   * masking on, `scale * scores` with masking off.
   */
  function ScaledScores(maskFlag: bool, scale: real, scores: Tensor4, mask: seq<seq<seq<seq<bool>>>>,
                        B: nat, H: nat, L: nat, S: nat): (u: seq<seq<seq<seq<Ext>>>>)
    requires Shape4(scores, B, H, L, S)
    requires maskFlag ==> Shape4(mask, B, 1, L, S) && scale > 0.0
    ensures Shape4(u, B, H, L, S)
    ensures forall b, h, l, j :: 0 <= b < B && 0 <= h < H && 0 <= l < L && 0 <= j < S ==>
      u[b][h][l][j] == if maskFlag && mask[b][0][l][j] then NegInf else Fin(scale * scores[b][h][l][j])
  {
    if maskFlag then ScaleMasked(scale, Where4(TileHeads(mask, B, H, L, S), scores, B, H, L, S), B, H, L, S)
    else Finite4(Scale4(scale, scores), B, H, L, S)
  }

  /** Every entry of masked scores times a positive scale. */
  function ScaleMasked(scale: real, masked: seq<seq<seq<seq<Ext>>>>, B: nat, H: nat, L: nat, S: nat)
    : (u: seq<seq<seq<seq<Ext>>>>)
    requires Shape4(masked, B, H, L, S) && scale > 0.0
    ensures Shape4(u, B, H, L, S)
    ensures forall b, h, l, j :: 0 <= b < B && 0 <= h < H && 0 <= l < L && 0 <= j < S ==>
      u[b][h][l][j] == ScaleExt(scale, masked[b][h][l][j])
  {
    seq(B, b requires 0 <= b < B =>
      seq(H, h requires 0 <= h < H =>
        seq(L, l requires 0 <= l < L =>
          seq(S, j requires 0 <= j < S => ScaleExt(scale, masked[b][h][l][j])))))
  }

  /** The value rows of head `h` in batch `b`, in sequence order (`values[b, :, h, :]`). */
  function HeadValues(values: Tensor4, B: nat, S: nat, H: nat, D: nat, b: nat, h: nat): (v: Mat)
    requires Shape4(values, B, S, H, D) && b < B && h < H
    ensures IsMat(v, S, D)
    ensures forall s :: 0 <= s < S ==> v[s] == values[b][s][h]
  {
    seq(S, s requires 0 <= s < S => values[b][s][h])
  }

  /**
   * `einsum("bhls,bshd->blhd", A, values)`: output row `l` of head `h` is the
   * `A[b, h, l]`-weighted combination of that head's value rows.
   */
  function WeightedValues(A: Tensor4, values: Tensor4, B: nat, L: nat, S: nat, H: nat, D: nat): (V: Tensor4)
    requires Shape4(A, B, H, L, S) && Shape4(values, B, S, H, D)
    ensures Shape4(V, B, L, H, D)
    ensures forall b, l, h :: 0 <= b < B && 0 <= l < L && 0 <= h < H ==>
      V[b][l][h] == Combine(A[b][h][l], HeadValues(values, B, S, H, D, b, h), D)
  {
    var V := seq(B, b requires 0 <= b < B =>
      seq(L, l requires 0 <= l < L =>
        seq(H, h requires 0 <= h < H =>
          seq(D, d requires 0 <= d < D => Dot(A[b][h][l], seq(S, s requires 0 <= s < S => values[b][s][h][d]))))));
    assert forall b, l, h :: 0 <= b < B && 0 <= l < L && 0 <= h < H ==>
      V[b][l][h] == Combine(A[b][h][l], HeadValues(values, B, S, H, D, b, h), D) by {
      forall b, l, h | 0 <= b < B && 0 <= l < L && 0 <= h < H
        ensures V[b][l][h] == Combine(A[b][h][l], HeadValues(values, B, S, H, D, b, h), D)
      {
        var v := HeadValues(values, B, S, H, D, b, h);
        forall d | 0 <= d < D
          ensures seq(S, s requires 0 <= s < S => values[b][s][h][d]) == Column(v, d)
        {
        }
      }
    }
    V
  }

  /**
   * Well-formed arguments of `forward`: queries `[B, L, H, E]`, keys `[B, S, H, E]`,
   * values `[B, S, H, D]`; with masking on, a `[B, 1, L, S]` mask or, by default, the
   * `[B, 1, L, L]` causal mask (which then needs `S == L`), and a positive scale so
   * that masked scores stay negative infinity.
   */
  predicate DenseInputs(cfg: Config, queries: Tensor4, keys: Tensor4, values: Tensor4,
                        attnMask: Option<seq<seq<seq<seq<bool>>>>>, fallbackScale: real,
                        B: nat, L: nat, S: nat, H: nat, E: nat, D: nat)
  {
    Shape4(queries, B, L, H, E) && Shape4(keys, B, S, H, E) && Shape4(values, B, S, H, D) &&
    (cfg.maskFlag ==>
      EffectiveScale(cfg.scale, fallbackScale) > 0.0 &&
      (attnMask.None? ==> S == L) &&
      Shape4(EffectiveMask(attnMask, B, L), B, 1, L, S))
  }

  /** `FullAttention.forward`: context `[B, L, H, D]` and, when requested, weights `[B, H, L, S]`. */
  function FullForward(cfg: Config, queries: Tensor4, keys: Tensor4, values: Tensor4,
                       attnMask: Option<seq<seq<seq<seq<bool>>>>>, fallbackScale: real, exp: real -> real,
                       B: nat, L: nat, S: nat, H: nat, E: nat, D: nat): (out: Output<Tensor4>)
    requires DenseInputs(cfg, queries, keys, values, attnMask, fallbackScale, B, L, S, H, E, D)
    ensures Shape4(out.context, B, L, H, D)
    ensures out.weights.Some? <==> cfg.outputAttention
    ensures out.weights.Some? ==> Shape4(out.weights.value, B, H, L, S)
  {
    var scale := EffectiveScale(cfg.scale, fallbackScale);
    var scores := RawScores(queries, keys, B, L, S, H, E);
    var A := Softmax4(exp, ScaledScores(cfg.maskFlag, scale, scores, EffectiveMask(attnMask, B, L), B, H, L, S),
                      B, H, L, S);
    Output(WeightedValues(A, values, B, L, S, H, D), if cfg.outputAttention then Some(A) else None)
  }

  // ---------------------------------------------------------------------------
  // Properties

  /**
   * The scores of query `l` of head `h` in batch `b`, as a reference: the scaled dot
   * product with each key, or negative infinity where the mask forbids the key.
   */
  function ScoreRow(cfg: Config, queries: Tensor4, keys: Tensor4, attnMask: Option<seq<seq<seq<seq<bool>>>>>,
                    fallbackScale: real, B: nat, L: nat, S: nat, H: nat, E: nat, b: nat, l: nat, h: nat)
    : (row: seq<Ext>)
    requires Shape4(queries, B, L, H, E) && Shape4(keys, B, S, H, E)
    requires cfg.maskFlag ==> Shape4(EffectiveMask(attnMask, B, L), B, 1, L, S)
    requires b < B && l < L && h < H
    ensures |row| == S
  {
    var q := queries[b][l][h];
    seq(S, j requires 0 <= j < S =>
      if cfg.maskFlag && EffectiveMask(attnMask, B, L)[b][0][l][j] then NegInf
      else Fin(ScaledDot(EffectiveScale(cfg.scale, fallbackScale), q, keys[b][j][h])))
  }

  /**
   * Row by row, `forward` is the textbook formula: the weights of query `l` are the
   * softmax of its score row, and its output is the weighted sum of the value rows.
   */
  lemma FullForwardRows(cfg: Config, queries: Tensor4, keys: Tensor4, values: Tensor4,
                        attnMask: Option<seq<seq<seq<seq<bool>>>>>, fallbackScale: real, exp: real -> real,
                        B: nat, L: nat, S: nat, H: nat, E: nat, D: nat, b: nat, l: nat, h: nat)
    requires DenseInputs(cfg, queries, keys, values, attnMask, fallbackScale, B, L, S, H, E, D)
    requires b < B && l < L && h < H
    ensures var out := FullForward(cfg, queries, keys, values, attnMask, fallbackScale, exp, B, L, S, H, E, D);
      var w := Softmax(exp, ScoreRow(cfg, queries, keys, attnMask, fallbackScale, B, L, S, H, E, b, l, h));
      out.context[b][l][h] == Combine(w, HeadValues(values, B, S, H, D, b, h), D) &&
      (out.weights.Some? ==> out.weights.value[b][h][l] == w)
  {
    ScoresRowIsScoreRow(cfg, queries, keys, attnMask, fallbackScale, B, L, S, H, E, b, l, h);
  }

  /** Row `l` of head `h` in batch `b` of the argument of softmax is `ScoreRow`. */
  lemma ScoresRowIsScoreRow(cfg: Config, queries: Tensor4, keys: Tensor4,
                            attnMask: Option<seq<seq<seq<seq<bool>>>>>, fallbackScale: real,
                            B: nat, L: nat, S: nat, H: nat, E: nat, b: nat, l: nat, h: nat)
    requires Shape4(queries, B, L, H, E) && Shape4(keys, B, S, H, E)
    requires cfg.maskFlag ==> EffectiveScale(cfg.scale, fallbackScale) > 0.0 &&
                              Shape4(EffectiveMask(attnMask, B, L), B, 1, L, S)
    requires b < B && l < L && h < H
    ensures ScaledScores(cfg.maskFlag, EffectiveScale(cfg.scale, fallbackScale), RawScores(queries, keys, B, L, S, H, E),
                         EffectiveMask(attnMask, B, L), B, H, L, S)[b][h][l] ==
            ScoreRow(cfg, queries, keys, attnMask, fallbackScale, B, L, S, H, E, b, l, h)
  {
    var scale := EffectiveScale(cfg.scale, fallbackScale);
    var scores := RawScores(queries, keys, B, L, S, H, E);
    var u := ScaledScores(cfg.maskFlag, scale, scores, EffectiveMask(attnMask, B, L), B, H, L, S);
    var row := ScoreRow(cfg, queries, keys, attnMask, fallbackScale, B, L, S, H, E, b, l, h);
    forall j | 0 <= j < S ensures u[b][h][l][j] == row[j] {
      var dot := Dot(queries[b][l][h], keys[b][j][h]);
      assert scores[b][h][l][j] == dot;
      assert ScaledDot(scale, queries[b][l][h], keys[b][j][h]) == scale * dot;
    }
  }

  /**
   * With the default causal mask, query `l` gives weight zero to every later key, and
   * keeps key `l` itself visible.
   */
  lemma CausalWeightsVanish(cfg: Config, queries: Tensor4, keys: Tensor4, values: Tensor4,
                            fallbackScale: real, exp: real -> real,
                            B: nat, L: nat, H: nat, E: nat, D: nat, b: nat, l: nat, h: nat)
    requires cfg.maskFlag && DenseInputs(cfg, queries, keys, values, None, fallbackScale, B, L, L, H, E, D)
    requires b < B && l < L && h < H
    ensures var row := ScoreRow(cfg, queries, keys, None, fallbackScale, B, L, L, H, E, b, l, h);
      row[l].Fin? && forall j :: l < j < L ==> row[j] == NegInf
    ensures var w := Softmax(exp, ScoreRow(cfg, queries, keys, None, fallbackScale, B, L, L, H, E, b, l, h));
      forall j :: l < j < L ==> w[j] == 0.0
    ensures var out := FullForward(cfg, queries, keys, values, None, fallbackScale, exp, B, L, L, H, E, D);
      out.weights.Some? ==> forall j :: l < j < L ==> out.weights.value[b][h][l][j] == 0.0
  {
    FullForwardRows(cfg, queries, keys, values, None, fallbackScale, exp, B, L, L, H, E, D, b, l, h);
  }

  /**
   * With the default causal mask, output row `l` depends only on keys and values at
   * positions `0..l`: two calls whose keys and values agree there agree on that row.
   */
  lemma CausalContextIgnoresFuture(cfg: Config, queries: Tensor4, keys: Tensor4, values: Tensor4,
                                   keys': Tensor4, values': Tensor4, fallbackScale: real, exp: real -> real,
                                   B: nat, L: nat, H: nat, E: nat, D: nat, b: nat, l: nat, h: nat)
    requires cfg.maskFlag && DenseInputs(cfg, queries, keys, values, None, fallbackScale, B, L, L, H, E, D)
    requires DenseInputs(cfg, queries, keys', values', None, fallbackScale, B, L, L, H, E, D)
    requires b < B && l < L && h < H
    requires forall s :: 0 <= s <= l ==> keys[b][s][h] == keys'[b][s][h] && values[b][s][h] == values'[b][s][h]
    ensures FullForward(cfg, queries, keys, values, None, fallbackScale, exp, B, L, L, H, E, D).context[b][l][h] ==
            FullForward(cfg, queries, keys', values', None, fallbackScale, exp, B, L, L, H, E, D).context[b][l][h]
  {
    var row := ScoreRow(cfg, queries, keys, None, fallbackScale, B, L, L, H, E, b, l, h);
    var row' := ScoreRow(cfg, queries, keys', None, fallbackScale, B, L, L, H, E, b, l, h);
    forall j | 0 <= j < L ensures row[j] == row'[j] { }
    assert row == row';
    var w := Softmax(exp, row);
    CausalWeightsVanish(cfg, queries, keys, values, fallbackScale, exp, B, L, H, E, D, b, l, h);
    FullForwardRows(cfg, queries, keys, values, None, fallbackScale, exp, B, L, L, H, E, D, b, l, h);
    FullForwardRows(cfg, queries, keys', values', None, fallbackScale, exp, B, L, L, H, E, D, b, l, h);
    CombineIgnoresZeroWeights(w, HeadValues(values, B, L, H, D, b, h), HeadValues(values', B, L, H, D, b, h), D);
  }

  /**
   * With a positive exponential, a row of weights sums to one whenever some key is
   * visible: always without masking, and for the default causal mask too.
   */
  lemma WeightsSumToOne(cfg: Config, queries: Tensor4, keys: Tensor4, values: Tensor4,
                        attnMask: Option<seq<seq<seq<seq<bool>>>>>, fallbackScale: real, exp: real -> real,
                        B: nat, L: nat, S: nat, H: nat, E: nat, D: nat, b: nat, l: nat, h: nat)
    requires DenseInputs(cfg, queries, keys, values, attnMask, fallbackScale, B, L, S, H, E, D)
    requires forall x :: exp(x) > 0.0
    requires !cfg.maskFlag || attnMask.None?
    requires b < B && l < L && h < H && S > 0
    ensures Sum(Softmax(exp, ScoreRow(cfg, queries, keys, attnMask, fallbackScale, B, L, S, H, E, b, l, h))) == 1.0
    ensures var out := FullForward(cfg, queries, keys, values, attnMask, fallbackScale, exp, B, L, S, H, E, D);
      out.weights.Some? ==> Sum(out.weights.value[b][h][l]) == 1.0
  {
    var row := ScoreRow(cfg, queries, keys, attnMask, fallbackScale, B, L, S, H, E, b, l, h);
    var visible: nat := if cfg.maskFlag then l else 0;
    assert row[visible].Fin?;
    WeightSumPositive(exp, row, visible);
    SoftmaxSumsToOne(exp, row);
    FullForwardRows(cfg, queries, keys, values, attnMask, fallbackScale, exp, B, L, S, H, E, D, b, l, h);
  }
}
