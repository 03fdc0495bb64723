/**
 * When the sparse attention selects every query (`factor * ceil(ln L_Q) >= L_Q`, so
 * `n_top == L_Q`) in self-attention (`L_Q == L_K`), no row keeps its default and
 * `ProbAttention` computes exactly what `FullAttention` computes with the same
 * scale, masking and weight settings and its default causal mask.
 */
module Equivalence {
  import opened Common
  import opened Tensors
  import opened Scatter
  import opened Masking
  import opened ProbAttention
  import FullAttention

  /** The dense configuration with the same scale, masking and weight settings. */
  function DenseConfig(cfg: Config): (d: FullAttention.Config)
    ensures d.scale == cfg.scale && d.maskFlag == cfg.maskFlag && d.outputAttention == cfg.outputAttention
  {
    FullAttention.Config(cfg.scale, cfg.maskFlag, cfg.outputAttention)
  }

  /** A plan that keeps `L` distinct positions out of `L` lists every position. */
  lemma AllQueriesSelected(p: Plan, B: nat, H: nat, L: nat, D: nat, b: nat, q: nat, h: nat)
    requires PlanFits(p, B, H, L, L, D) && p.nTop == L
    requires b < B && q < L && h < H
    ensures q in p.index[b][h]
  {
    Pigeonhole(p.index[b][h], L);
  }

  /**
   * In self-attention, the masked reduced scores of the query selected at `r` are the
   * dense score row of that query under the default causal mask.
   */
  lemma SelectedScoresAreDense(p: Plan, cfg: Config, queries: Tensor4, keys: Tensor4, values: Tensor4,
                               fallbackScale: real, B: nat, L: nat, H: nat, E: nat, D: nat,
                               b: nat, h: nat, r: nat)
    requires PlanMatches(p, cfg, queries, keys, values, fallbackScale, B, L, L, H, E, D)
    requires b < B && h < H && r < p.nTop
    ensures MaskedScores(p.scores, p.index, L, p.nTop, cfg.maskFlag, B, H, L)[b][h][r] ==
      FullAttention.ScoreRow(DenseConfig(cfg), queries, keys, None, fallbackScale, B, L, L, H, E, b, p.index[b][h][r], h)
  {
    var q := p.index[b][h][r];
    var sparse := MaskedScores(p.scores, p.index, L, p.nTop, cfg.maskFlag, B, H, L)[b][h][r];
    var dense := FullAttention.ScoreRow(DenseConfig(cfg), queries, keys, None, fallbackScale, B, L, L, H, E, b, q, h);
    forall j | 0 <= j < L ensures sparse[j] == dense[j] {
      MatchedScores(p, cfg, queries, keys, values, fallbackScale, B, L, L, H, E, D, b, h, r, j);
      assert FullAttention.EffectiveMask(None, B, L)[b][0][q][j] <==> j > q;
    }
  }

  /**
   * The exact row of the query selected at `r` is the dense output row of that query,
   * and its attention weights are the dense weights.
   */
  lemma SelectedRowIsDense(p: Plan, cfg: Config, queries: Tensor4, keys: Tensor4, values: Tensor4,
                           fallbackScale: real, exp: real -> real, B: nat, L: nat, H: nat, E: nat, D: nat,
                           b: nat, h: nat, r: nat)
    requires PlanMatches(p, cfg, queries, keys, values, fallbackScale, B, L, L, H, E, D)
    requires b < B && h < H && r < p.nTop
    ensures var row := FullAttention.ScoreRow(DenseConfig(cfg), queries, keys, None, fallbackScale,
                                              B, L, L, H, E, b, p.index[b][h][r], h);
      Softmax(exp, MaskedScores(p.scores, p.index, L, p.nTop, cfg.maskFlag, B, H, L)[b][h][r]) == Softmax(exp, row) &&
      ExactRow(p, cfg, exp, B, L, L, H, D, b, h, r) ==
        Combine(Softmax(exp, row), FullAttention.HeadValues(values, B, L, H, D, b, h), D)
  {
    SelectedScoresAreDense(p, cfg, queries, keys, values, fallbackScale, B, L, H, E, D, b, h, r);
    assert p.V[b][h] == FullAttention.HeadValues(values, B, L, H, D, b, h);
  }

  /**
   * Given a plan that selects every query of a self-attention call, every context row
   * and every weight row of the result is the dense one.
   */
  lemma SparseRowsAreDense(p: Plan, cfg: Config, queries: Tensor4, keys: Tensor4, values: Tensor4,
                           fallbackScale: real, exp: real -> real, B: nat, L: nat, H: nat, E: nat, D: nat)
    requires PlanMatches(p, cfg, queries, keys, values, fallbackScale, B, L, L, H, E, D)
    requires p.nTop == L && L > 0
    ensures var out := Finish(p, InitialContext(p.V, L, cfg.maskFlag, B, H, L, D).value, cfg, exp, B, L, L, H, D);
      forall b, q, h :: 0 <= b < B && 0 <= q < L && 0 <= h < H ==>
        out.context[b][q][h] ==
          Combine(Softmax(exp, FullAttention.ScoreRow(DenseConfig(cfg), queries, keys, None, fallbackScale,
                                                      B, L, L, H, E, b, q, h)),
                  FullAttention.HeadValues(values, B, L, H, D, b, h), D)
    ensures var out := Finish(p, InitialContext(p.V, L, cfg.maskFlag, B, H, L, D).value, cfg, exp, B, L, L, H, D);
      out.weights.Some? ==>
        forall b, h, q :: 0 <= b < B && 0 <= h < H && 0 <= q < L ==>
          out.weights.value[b][h][q] ==
            Softmax(exp, FullAttention.ScoreRow(DenseConfig(cfg), queries, keys, None, fallbackScale,
                                                B, L, L, H, E, b, q, h))
  {
    forall b, q, h | 0 <= b < B && 0 <= q < L && 0 <= h < H {
      SparseRowIsDense(p, cfg, queries, keys, values, fallbackScale, exp, B, L, H, E, D, b, q, h);
    }
  }

  /** One context row and one weight row of `SparseRowsAreDense`. */
  lemma SparseRowIsDense(p: Plan, cfg: Config, queries: Tensor4, keys: Tensor4, values: Tensor4,
                         fallbackScale: real, exp: real -> real, B: nat, L: nat, H: nat, E: nat, D: nat,
                         b: nat, q: nat, h: nat)
    requires PlanMatches(p, cfg, queries, keys, values, fallbackScale, B, L, L, H, E, D)
    requires p.nTop == L && L > 0 && b < B && q < L && h < H
    ensures var out := Finish(p, InitialContext(p.V, L, cfg.maskFlag, B, H, L, D).value, cfg, exp, B, L, L, H, D);
      out.context[b][q][h] ==
        Combine(Softmax(exp, FullAttention.ScoreRow(DenseConfig(cfg), queries, keys, None, fallbackScale,
                                                    B, L, L, H, E, b, q, h)),
                FullAttention.HeadValues(values, B, L, H, D, b, h), D)
    ensures var out := Finish(p, InitialContext(p.V, L, cfg.maskFlag, B, H, L, D).value, cfg, exp, B, L, L, H, D);
      out.weights.Some? ==>
        out.weights.value[b][h][q] ==
          Softmax(exp, FullAttention.ScoreRow(DenseConfig(cfg), queries, keys, None, fallbackScale,
                                              B, L, L, H, E, b, q, h))
  {
    var init := InitialContext(p.V, L, cfg.maskFlag, B, H, L, D).value;
    AllQueriesSelected(p, B, H, L, D, b, q, h);
    var r :| 0 <= r < p.nTop && p.index[b][h][r] == q;
    SelectedRowIsDense(p, cfg, queries, keys, values, fallbackScale, exp, B, L, H, E, D, b, h, r);
    FinishContextRows(p, init, cfg, exp, B, L, L, H, D, b, q, h);
    if cfg.outputAttention {
      FinishWeightRows(p, init, cfg, exp, B, L, L, H, D, b, q, h);
    }
  }

  /** Every context row and weight row of dense attention, as `FullForwardRows` gives one. */
  lemma DenseRows(cfg: FullAttention.Config, queries: Tensor4, keys: Tensor4, values: Tensor4,
                  fallbackScale: real, exp: real -> real, B: nat, L: nat, H: nat, E: nat, D: nat)
    requires FullAttention.DenseInputs(cfg, queries, keys, values, None, fallbackScale, B, L, L, H, E, D)
    ensures var dense := FullAttention.FullForward(cfg, queries, keys, values, None, fallbackScale, exp,
                                                   B, L, L, H, E, D);
      forall b, q, h :: 0 <= b < B && 0 <= q < L && 0 <= h < H ==>
        dense.context[b][q][h] ==
          Combine(Softmax(exp, FullAttention.ScoreRow(cfg, queries, keys, None, fallbackScale, B, L, L, H, E, b, q, h)),
                  FullAttention.HeadValues(values, B, L, H, D, b, h), D) &&
        (dense.weights.Some? ==>
          dense.weights.value[b][h][q] ==
            Softmax(exp, FullAttention.ScoreRow(cfg, queries, keys, None, fallbackScale, B, L, L, H, E, b, q, h)))
  {
    forall b, q, h | 0 <= b < B && 0 <= q < L && 0 <= h < H {
      FullAttention.FullForwardRows(cfg, queries, keys, values, None, fallbackScale, exp, B, L, L, H, E, D, b, q, h);
    }
  }

  /** Two outputs of one shape that agree row by row are equal. */
  lemma SameOutputs(out: Output<Tensor4>, dense: Output<Tensor4>, B: nat, L: nat, H: nat, D: nat)
    requires Shape4(out.context, B, L, H, D) && Shape4(dense.context, B, L, H, D)
    requires out.weights.Some? <==> dense.weights.Some?
    requires out.weights.Some? ==> Shape4(out.weights.value, B, H, L, L) && Shape4(dense.weights.value, B, H, L, L)
    requires forall b, q, h :: 0 <= b < B && 0 <= q < L && 0 <= h < H ==>
      out.context[b][q][h] == dense.context[b][q][h]
    requires out.weights.Some? ==> forall b, h, q :: 0 <= b < B && 0 <= h < H && 0 <= q < L ==>
      out.weights.value[b][h][q] == dense.weights.value[b][h][q]
    ensures out == dense
  {
    Shape4Equal(out.context, dense.context, B, L, H, D);
    if out.weights.Some? {
      Shape4Equal(out.weights.value, dense.weights.value, B, H, L, L);
    }
  }

  /** Given a plan that selects every query of a self-attention call, the result is the dense one. */
  lemma PlanIsDense(p: Plan, cfg: Config, queries: Tensor4, keys: Tensor4, values: Tensor4,
                    fallbackScale: real, exp: real -> real, B: nat, L: nat, H: nat, E: nat, D: nat)
    requires PlanMatches(p, cfg, queries, keys, values, fallbackScale, B, L, L, H, E, D)
    requires p.nTop == L && L > 0
    requires cfg.maskFlag ==> EffectiveScale(cfg.scale, fallbackScale) > 0.0
    ensures FullAttention.DenseInputs(DenseConfig(cfg), queries, keys, values, None, fallbackScale, B, L, L, H, E, D)
    ensures Finish(p, InitialContext(p.V, L, cfg.maskFlag, B, H, L, D).value, cfg, exp, B, L, L, H, D) ==
      FullAttention.FullForward(DenseConfig(cfg), queries, keys, values, None, fallbackScale, exp, B, L, L, H, E, D)
  {
    var out := Finish(p, InitialContext(p.V, L, cfg.maskFlag, B, H, L, D).value, cfg, exp, B, L, L, H, D);
    var dense := FullAttention.FullForward(DenseConfig(cfg), queries, keys, values, None, fallbackScale, exp,
                                           B, L, L, H, E, D);
    SparseRowsAreDense(p, cfg, queries, keys, values, fallbackScale, exp, B, L, H, E, D);
    DenseRows(DenseConfig(cfg), queries, keys, values, fallbackScale, exp, B, L, H, E, D);
    SameOutputs(out, dense, B, L, H, D);
  }

  /**
   * Sparse attention that selects every query (`factor * lnQ >= L`) in self-attention
   * is dense attention with the default causal mask: the same context and the same
   * (optional) weights.
   */
  lemma FullSelectionIsDense(cfg: Config, queries: Tensor4, keys: Tensor4, values: Tensor4,
                             sample: seq<seq<nat>>, lnQ: nat, lnK: nat, fallbackScale: real, exp: real -> real,
                             B: nat, L: nat, H: nat, E: nat, D: nat)
    requires ForwardInputs(cfg, queries, keys, values, sample, lnK, B, L, L, H, E, D)
    requires cfg.factor * lnQ >= L
    requires cfg.maskFlag ==> EffectiveScale(cfg.scale, fallbackScale) > 0.0
    ensures FullAttention.DenseInputs(DenseConfig(cfg), queries, keys, values, None, fallbackScale, B, L, L, H, E, D)
    ensures ProbForward(cfg, queries, keys, values, sample, lnQ, lnK, fallbackScale, exp, B, L, L, H, E, D) ==
      Ok(FullAttention.FullForward(DenseConfig(cfg), queries, keys, values, None, fallbackScale, exp,
                                   B, L, L, H, E, D))
  {
    var p := MakePlan(cfg, queries, keys, values, sample, lnQ, lnK, fallbackScale, B, L, L, H, E, D);
    ForwardIsFinish(cfg, queries, keys, values, sample, lnQ, lnK, fallbackScale, exp, B, L, L, H, E, D);
    PlanIsDense(p, cfg, queries, keys, values, fallbackScale, exp, B, L, H, E, D);
  }
}
