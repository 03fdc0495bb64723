# Informer attention core in Dafny

This project models the attention core of Informer, in its PaddlePaddle port, and proves
properties of that model:

- the two boolean masks of `utils/masking.py`. `TriangularCausalMask` is the `[B, 1, L, L]`
  causal mask. `ProbMask` gathers, for each selected query, that query's row of the causal mask;
- `FullAttention.forward`: dense scaled dot-product attention. It uses an optional mask, which
  defaults to the causal mask, and optionally returns the weights;
- `ProbAttention`, the ProbSparse self-attention:
  - the sample and top-query counts `factor * ceil(ln L)`, clipped to the sequence length;
  - `_prob_QK`: sampled scores, the sparsity measurement `M = max - sum / L_K`, and the top-`n`
    queries. The measurement is taken per batch; see "## Findings" for how the code as written
    mixes batches;
  - `_get_initial_context`: the mean of V, or its running sum under masking;
  - `_update_context`: an in-place scatter of the exact attention rows into the context array
    and into the uniform weight placeholder;
  - the forward pass that chains these steps;
- the constructor of `AttentionLayer`: the default per-head widths and the projection shapes.

Tensors are nested sequences of exact reals. `Ext` (`NegInf | Fin(v)`) stands for a score that
may be negative infinity. Several things become parameters:

- the exponential;
- `1/sqrt(E)`;
- the integers `ceil(ln L_Q)` and `ceil(ln L_K)`;
- the random key sample `index_sample`.

`_update_context` is an imperative `method` on `array3` buffers (`UpdateContext`, `ScatterRows`).
The imperative `Forward` method runs it. Its result is proved equal to the functional
specification `ProbForward`. The properties proved include these:

- the masks forbid exactly the later keys, and every query still sees itself;
- top-k keeps distinct queries, each with a measurement at least that of every query it leaves out;
- rows that are not selected keep the initial context. Selected rows get the exact attention
  output. Weight rows that are not selected are uniform;
- without masking, constant values give a ProbSparse context equal to that constant;
- causal dense attention gives later keys weight zero and ignores them;
- in self-attention (`L_Q == L_K`), when every query is selected (`factor * ceil(ln L) >= L`),
  ProbSparse attention equals dense attention run with the same masking setting (the default
  causal mask when masking is on, no mask when it is off), in both its context and its weights,
  provided the scale is positive when masking is on. In cross-attention the two differ: the
  ProbSparse weights are `[B, H, L_K, L_K]` and the dense ones `[B, H, L_Q, L_K]`, and with
  masking on `L_Q != L_K` is an error. This holds with
  `FullAttention`'s dropout (models/attn.py:33) in evaluation mode, where dropout is the identity.

Files:

- `common.dfy`: Option, Result, the error kinds, the output pair, and the scale fallback;
- `tensors.dfy`: sums, dot products, softmax, means, running sums, matrix products, transposes;
- `scatter.dfy`: row overwrites and the pigeonhole lemma for distinct positions;
- `masking.dfy`;
- `selection.dfy`: top-k;
- `prob_attention.dfy`;
- `full_attention.dfy`;
- `attention_layer.dfy`;
- `equivalence.dfy`.

## Model

| member | source | states |
|---|---|---|
| Common.EffectiveScale | models/attn.py:23 | `scale or fallback`: a configured scale that is absent or zero yields the fallback; any other value is used as is (also `self.scale or 1./sqrt(D)` at models/attn.py:122) |
| Masking.TriangularCausalMask | utils/masking.py:3-7 | shape `[B, 1, L, L]`; entry `(i, j)` is true exactly when `j > i` |
| Masking.CausalRowCount | utils/masking.py:5-7 | causal row `i` forbids exactly `L - 1 - i` keys, and keys `0..i` stay visible |
| Masking.ProbMask | utils/masking.py:13-20 | shape `[B, H, n, LK]`; row `r` is row `index[b][h][r]` of the `triu(1)` mask, so entry `j` is true exactly when `j > index[b][h][r]` |
| Masking.ProbMaskIsCausalRow | utils/masking.py:13-20 | for self-attention, each row of `ProbMask` equals the causal-mask row of the selected query |
| Masking.ProbMaskRowCount | utils/masking.py:13-20 | a selected query is denied exactly the `LK - 1 - index` later keys, and key 0 is never masked |
| Selection.TopK | models/attn.py:65 | `topk(n)` returns `n` distinct in-range positions, and every selected entry is at least every unselected one |
| Selection.TopKSelectsAll | models/attn.py:65 | asking for as many positions as there are entries selects every position |
| ProbAttention.Clip | models/attn.py:116-117 | `u if u < L else L` is at most both `u` and `L`, and equals one of them |
| ProbAttention.SampleSize | models/attn.py:113-116 | `U_part` is `factor * ceil(ln L_K)` when that is below `L_K`, and `L_K` otherwise; it is positive exactly when `factor * ceil(ln L_K)` and `L_K` both are |
| ProbAttention.SampleScores | models/attn.py:56-61 | `Q_K_sample[i][t]` is the dot product of query `i` with its sampled key `sample[i][t]` |
| ProbAttention.Measure | models/attn.py:64 | one measurement per query: the largest sampled score minus the sum of the sampled scores divided by `L_K` (not by the sample size) |
| ProbAttention.HeadMeasure | models/attn.py:56-64 | `M` of one batch and head: for query `i`, the largest of its sampled dot products minus their sum over `L_K` |
| ProbAttention.MeasureAsWritten | models/attn.py:64 | `M` as written: `max(-1)[0]` is batch 0's maximum, and each batch's sampled sum over `L_K` is subtracted from it. So entry `(b, h, i)` is the per-batch `Measure` of batch `b` plus batch 0's maximum minus batch `b`'s maximum, and batch 0 agrees with `Measure` |
| ProbAttention.MeasureAsWrittenMixesBatches | models/attn.py:64 | with two batches, every key sampled and scores `[0, 0]` and `[5, 5]`, the as-written measurement of batch 1 is `-5` while the per-batch one is `0` |
| ProbAttention.FullSampleMeasureNonNegative | models/attn.py:64 | when the sample size equals `L_K` (keys are drawn with replacement, so some may repeat), the sparsity measurement (the maximum minus the mean) is never negative |
| ProbAttention.ReducedScores | models/attn.py:68-71 | `Q_K[r][j]` is the dot product of selected query `top[r]` with key `j` |
| ProbAttention.ProbQK | models/attn.py:55-73 | the index is `[B, H, n]`, in range and distinct per head; no unselected query measures more than a selected one; the scores are the selected queries against all keys |
| ProbAttention.ScaledQK | models/attn.py:119-124 | after scaling, score `(r, j)` is `scale` times the dot product of selected query `r` with key `j` |
| ProbAttention.InitialContext | models/attn.py:75-84 | fails exactly when masking is on and `L_Q != L_V` (the assert); otherwise returns a `[B, H, L_Q, D]` context |
| ProbAttention.InitialContextRows | models/attn.py:77-83 | without masking every row is the mean of V; with masking row `i` sums value rows `0..i` (`cumsum`) |
| ProbAttention.InitialContextRecurrence | models/attn.py:81-83 | with masking, initial-context row 0 is value row 0, and each later row is the row before it plus the next value row (the recurrence of `cumsum`) |
| Tensors.CumSumFirst | models/attn.py:83 | the running sum starts at the first input row |
| Tensors.CumSumStep | models/attn.py:83 | each later row of the running sum is the row before it plus the next input row |
| ProbAttention.MaskedScores | models/attn.py:89-92 | with masking on, entry `(r, j)` is negative infinity exactly when `j` comes after the selected query; otherwise it is the score |
| ProbAttention.Attention | models/attn.py:93 | `attn` has shape `[B, H, n, L_K]`, and row `r` is the softmax of row `r` of the masked scores |
| ProbAttention.AttentionRowIsDistribution | models/attn.py:89-93 | with a positive exponential every `attn` row sums to one, and with masking on the keys after the selected query get probability zero |
| ProbAttention.Uniform | models/attn.py:99 | every entry of the placeholder is `1 / L` |
| ProbAttention.ScatterRows | models/attn.py:95-97 | the array afterwards equals the old contents with row `index[b][h][r]` overwritten by `rows[b][h][r]`, and nothing else changes |
| ProbAttention.UpdateContext | models/attn.py:86-103 | the context array is overwritten at the selected rows with `softmax(masked scores) @ V`; weights are returned exactly when requested, as the uniform placeholder with the selected rows replaced by the attention rows |
| ProbAttention.HeadMajor | models/attn.py:109-111 | `[B, L, H, W] -> [B, H, L, W]`: row `i` of head `h` is position `i` of that head |
| ProbAttention.HeadMajorRoundTrip | models/attn.py:109-111 | the transpose at the end of `forward` (models/attn.py:130) undoes the head-major transpose, giving back the input layout |
| ProbAttention.MakePlan | models/attn.py:109-124 | the head-major tensors are the transposed inputs; `n_top` is `min(factor * ceil(ln L_Q), L_Q)`; the selection is in range and distinct per head, and no unselected query has a larger sparsity measurement `M` (over the head-major tensors and the sample of size `U_part`) than a selected one; each reduced score is the scale times the selected query's dot product with the key |
| ProbAttention.MatchedScores | models/attn.py:119-124 | a planned score is the effective scale times the dot product of the selected query with the key |
| ProbAttention.Finish | models/attn.py:95-103 | the end of `forward` for a plan and an initial context: the context `[B, L_Q, H, D]` after the scatter and the transpose back (models/attn.py:130), and weights `[B, H, L_K, L_K]` exactly when requested |
| ProbAttention.ProbForward | models/attn.py:105-130 | fails exactly when masking is on and `L_Q != L_K`; otherwise the context is `[B, L_Q, H, D]`, and weights `[B, H, L_K, L_K]` are present exactly when requested |
| ProbAttention.Forward | models/attn.py:105-130 | the imperative forward pass with its in-place update gives `ProbForward`'s result |
| ProbAttention.FinishContextRows | models/attn.py:95-97 | a context row that is not selected keeps its initial value; a selected one is `attn @ V` for that query |
| ProbAttention.FinishWeightRows | models/attn.py:98-101 | a weight row that is not selected is uniform `1 / L_K`; a selected one is the softmax of its masked scores |
| ProbAttention.ScatteredWeightRows | models/attn.py:99-100 | in the weights tensor, a row no query was scattered into keeps the uniform `1 / L_K`, and the row of a selected query is its softmax row |
| ProbAttention.ForwardIsFinish | models/attn.py:119-130 | `forward` is the initial context followed by the update, over the plan built from the inputs |
| ProbAttention.ContextRows | models/attn.py:75-103 | an unselected output row is the mean of V (no masking) or the sum of value rows `0..q` (masking); a selected one is its exact attention row |
| ProbAttention.ConstantRowsGiveConstantContext | models/attn.py:75-103 | when all value rows of a head are equal to `k` and masking is off, every context row of that head is `k` |
| ProbAttention.ExactRowOfConstantValues | models/attn.py:89-97 | with a positive exponential and masking on or off, a selected query's `attn @ V` row over value rows that all equal `k` is `k` |
| ProbAttention.ConstantValuesGiveConstantContext | models/attn.py:105-130 | forward without masking, on values whose rows all equal `k`, outputs `k` in every context row |
| FullAttention.RawScores | models/attn.py:25 | `einsum("blhe,bshe->bhls")`: entry `(b, h, l, s)` is the dot product of query `l` and key `s` of head `h` |
| FullAttention.EffectiveMask | models/attn.py:27-28 | the mask passed in, or the causal mask when none is |
| FullAttention.TileHeads | models/attn.py:31 | `tile([1, H, 1, 1])`: shape `[B, H, L, S]`, and every head of batch `b` carries the single mask plane of that batch |
| FullAttention.ScaledScores | models/attn.py:26-33 | the softmax argument is negative infinity where the mask is set, and otherwise `scale * score` |
| FullAttention.WeightedValues | models/attn.py:34 | `einsum("bhls,bshd->blhd")`: output row `(b, l, h)` is the combination of that head's value rows, weighted by `A[b, h, l]` |
| FullAttention.FullForward | models/attn.py:20-39 | the context is `[B, L, H, D]`; weights `[B, H, L, S]` are returned exactly when `output_attention` is set, otherwise `None` |
| FullAttention.ScoresRowIsScoreRow | models/attn.py:25-33 | each row of the softmax argument equals the reference `ScoreRow`: masked keys are negative infinity, the others are the scaled dot product |
| FullAttention.FullForwardRows | models/attn.py:20-39 | each weight row is the softmax of the reference score row; each context row is that row's combination of the values |
| FullAttention.CausalWeightsVanish | models/attn.py:26-33 | with the default causal mask, every later key gets weight zero and the query's own key is finite |
| FullAttention.CausalContextIgnoresFuture | models/attn.py:26-34 | with the default causal mask, context row `l` is unchanged when keys and values after position `l` change |
| FullAttention.WeightsSumToOne | models/attn.py:33 | with a positive exponential, every weight row sums to one, both without masking and under the default causal mask |
| AttentionLayer.HeadWidth | models/attn.py:138-139 | `d or d_model // n_heads`: a non-zero width is kept; otherwise the floor quotient is used, and zero heads is an error |
| AttentionLayer.NewLayer | models/attn.py:134-147 | fails exactly when zero heads meet a missing width; the widths are resolved as above; the four projections have the widths `__init__` gives them |
| AttentionLayer.DefaultWidthsFillModel | models/attn.py:138-145 | when `n_heads` divides `d_model`, the default widths are `d_model / n_heads` and every projection maps `d_model` to `d_model` |
| Equivalence.AllQueriesSelected | models/attn.py:65-70 | when `n_top == L`, the distinct selection of one head contains every query |
| Equivalence.SelectedScoresAreDense | models/attn.py:89-92 | a selected query's masked scores equal the dense score row of that query, with the default mask |
| Equivalence.SelectedRowIsDense | models/attn.py:93-97 | a selected query's attention row and context row equal the dense ones |
| Equivalence.SparseRowsAreDense | models/attn.py:86-103 | when every query is selected, every context row and weight row of ProbSparse attention equals the dense formula |
| Equivalence.PlanIsDense | models/attn.py:105-130 | with `n_top == L`, the whole output of the update equals `FullAttention.forward` |
| Equivalence.FullSelectionIsDense | models/attn.py:105-130 | when `factor * ceil(ln L) >= L`, ProbSparse self-attention returns exactly what `FullAttention.forward` returns with the same scale, masking and weight flags and the default causal mask |

## Left out

- Floating point: reals are exact. Overflow, rounding and NaN are not modelled.
- `exp`, `1/sqrt(E)` and `ceil(ln L)` are parameters. `ProbAttention.forward` takes `D` from
  `queries.shape`, so its fallback is the query width's `1/sqrt`, as in `FullAttention`.
- `FullAttention`'s dropout (models/attn.py:33) is the identity, as in evaluation mode. `ProbAttention` builds a dropout layer (models/attn.py:48) but never applies it. `paddle.no_grad`, devices and dtype casts are
  not modelled.
- `paddle.randint` in `_prob_QK` is replaced by a `sample` input of the same shape and range.
- `Selection.TopK`: `topk(sorted=False)` leaves the order and tie-breaking unspecified. The
  model picks largest first and the lowest position on ties. The proved properties do not
  depend on that choice.
- `ProbAttention.ProbForward`: with `L_K = 1`, `ceil(ln 1) = 0` makes `U_part = 0`. The maximum
  over an empty sample axis is then undefined, so the model requires a positive sample size.
- The model requires `L_Q <= L_K` when weights are requested without masking. The placeholder
  has `L_K` rows, so a selected query position must fit in it.
- A fully masked softmax row is NaN in floating point; here it gives zeros. No such row
  arises under the causal masks, which always leave the query's own key visible.
- `FullAttention.FullForward` requires a positive scale when masking is on. A scale times
  negative infinity stays negative infinity only for a positive scale.
- Only `[B, 1, L, S]` masks are modelled for `FullAttention` (the shape `tile` expects).
- `ProbAttention.forward` ignores its `attn_mask` argument: `_update_context` replaces it with
  `ProbMask`. The model takes no mask there.
- Shape mismatches in tensor operations are preconditions, not errors. The only modelled
  runtime failures are the `L_Q == L_V` assert and `d_model // 0`.
- `AttentionLayer.forward` (models/attn.py:149-168) is not part of this model. That covers
  the learned linear maps, the reshapes and `mix`. `AttentionLayer.NewLayer` records only the
  in and out widths of each projection.
- The embeddings in models/embed.py are not part of this model.
- HeadMeasure: measures each batch against its own maximum, the per-batch
  measurement of the commented line 59 and of the ProbSparse definition. The code as written takes batch 0's maximum for every batch (see "## Findings").
  `Measure`, `ProbQK`, `ScaledQK` and `MakePlan` rank queries by this per-batch measurement, so
  for two or more batches the model may select other queries than the code as written does in
  batches after the first. For one batch the two agree.
- Measure: the per-batch measurement. The measurement as written is `MeasureAsWritten`.
- ProbQK: ranks queries by the per-batch `HeadMeasure`, not by the as-written measurement.
- MakePlan: its ordering clause is about the per-batch `HeadMeasure`, not the as-written measurement.
- FullSampleMeasureNonNegative: holds for the per-batch measurement only. For the code as
  written, a batch after the first can have a negative measurement even when the sample size is
  `L_K` (`MeasureAsWrittenMixesBatches`).
- SampleScores: follows the key-axis gather of the commented line models/attn.py:59, taking
  `K[b, h, sample[i][t]]` for query `i`. `ReducedScores` and `SampleScores` read
  `transpose(-2, -1)` (models/attn.py:61, 71) as a swap of the last two axes. The tensor
  library's documented `index_sample` gathers along the last axis of a 2-D input, and its
  `transpose` takes a permutation list. Called as at models/attn.py:60, 61 and 71, they may raise
  unless utils/tools.py, which is not part of this model, adapts them.

## Findings

| source | as written | input that shows it | evidently intended | confidence | as-written member | corrected member |
|---|---|---|---|---|---|---|
| models/attn.py:64 | `Q_K_sample.max(-1)[0]`: this tensor library's `max` returns only the maxima, so `[0]` picks batch 0 and every batch subtracts its own sampled sum from batch 0's maximum | `B = 2`, `H = L_Q = 1`, `U = L_K = 2`, sampled scores `[0, 0]` in batch 0 and `[5, 5]` in batch 1: batch 1 measures `-5` instead of `0` | each batch's own maximum, as the `max(-1)[0]` of a library whose `max` returns maxima and positions gives; with every key sampled the measurement is then never negative | not executed; high from the library's documented `max` | ProbAttention.MeasureAsWritten, ProbAttention.MeasureAsWrittenMixesBatches | ProbAttention.Measure, ProbAttention.FullSampleMeasureNonNegative |
