/**
 * ProbSparse attention (`ProbAttention` in models/attn.py).
 *
 * For each batch `b` and head `h`, every query is scored against a few sampled keys,
 * the `n_top` queries with the largest sparsity measurement are scored against all
 * keys, every context row starts from a cheap default (the mean of V, or its running
 * sum under causal masking), and the rows of the selected queries are then overwritten
 * with their exact attention output.
 *
 * Floating point is replaced by exact reals. The exponential, `1/sqrt(E)` and the two
 * values `ceil(ln L_Q)`, `ceil(ln L_K)` are parameters; the random key sample is an
 * input. `ProbAttention` builds a dropout layer but never applies it, so there is no
 * dropout to model here.
 */
module ProbAttention {
  import opened Common
  import opened Tensors
  import opened Scatter
  import opened Masking
  import opened Selection

  /** The constructor arguments of `ProbAttention` that the forward pass reads. */
  datatype Config = Config(factor: nat, scale: Option<real>, maskFlag: bool, outputAttention: bool)

  // ---------------------------------------------------------------------------
  // Step 1: selection sizes

  /** `u if u < L else L`: the size clipped to the sequence length, i.e. `min(u, L)`. */
  function Clip(u: nat, L: nat): (r: nat)
    ensures r <= u && r <= L
    ensures r == u || r == L
  {
    if u < L then u else L
  }

  /** `U_part`: keys sampled per query, `factor * ceil(ln L_K)` clipped to `L_K`. */
  function SampleSize(factor: nat, lnK: nat, LK: nat): (U: nat)
    ensures U == if factor * lnK < LK then factor * lnK else LK
    ensures U > 0 <==> factor * lnK > 0 && LK > 0
  {
    Clip(factor * lnK, LK)
  }

  // ---------------------------------------------------------------------------
  // Step 2: sampled scores, sparsity measurement, top-k and the reduced scores

  /** `index_sample`: `LQ` rows of `U` key positions, each in `[0, LK)`. */
  predicate IsSample(sample: seq<seq<nat>>, LQ: nat, U: nat, LK: nat)
  {
    IsMat(sample, LQ, U) && forall i :: 0 <= i < LQ ==> InRange(sample[i], LK)
  }

  /** `Q_K_sample` of one batch and head: query `i` against its sampled keys `sample[i]`. */
  function SampleScores(q: Mat, k: Mat, sample: seq<seq<nat>>, U: nat, E: nat): (s: Mat)
    requires IsMat(q, |q|, E) && IsMat(k, |k|, E) && IsSample(sample, |q|, U, |k|)
    ensures IsMat(s, |q|, U)
    ensures forall i, t :: 0 <= i < |q| && 0 <= t < U ==> s[i][t] == Dot(q[i], k[sample[i][t]])
  {
    seq(|q|, i requires 0 <= i < |q| =>
      seq(U, t requires 0 <= t < U => Dot(q[i], k[sample[i][t]])))
  }

  /** The sparsity measurement `M`: the largest sampled score minus the sampled sum over `L_K`. */
  function Measure(sampled: Mat, U: nat, LK: nat): (m: Vec)
    requires U > 0 && LK > 0 && IsMat(sampled, |sampled|, U)
    ensures |m| == |sampled|
    ensures forall i :: 0 <= i < |sampled| ==> m[i] == Max(sampled[i]) - Sum(sampled[i]) / (LK as real)
  {
    seq(|sampled|, i requires 0 <= i < |sampled| =>
      Max(sampled[i]) - Sum(sampled[i]) / (LK as real))
  }

  /** `M` of one batch and head. */
  function HeadMeasure(q: Mat, k: Mat, sample: seq<seq<nat>>, U: nat, E: nat): (m: Vec)
    requires U > 0 && |k| > 0
    requires IsMat(q, |q|, E) && IsMat(k, |k|, E) && IsSample(sample, |q|, U, |k|)
    ensures |m| == |q|
    ensures forall i :: 0 <= i < |q| ==>
      var row := SampleScores(q, k, sample, U, E)[i];
      m[i] == Max(row) - Sum(row) / (|k| as real)
  {
    Measure(SampleScores(q, k, sample, U, E), U, |k|)
  }

  /**
   * When the sample size equals `L_K` (`U == L_K`, keys drawn with replacement), `M` is
   * the maximum minus the mean, which is never negative.
   */
  lemma FullSampleMeasureNonNegative(sampled: Mat, U: nat, i: nat)
    requires U > 0 && IsMat(sampled, |sampled|, U) && i < |sampled|
    ensures Measure(sampled, U, U)[i] >= 0.0
  {
    var row := sampled[i];
    var u := U as real;
    SumAtMostLengthTimes(row, Max(row));
    assert Sum(row) / u <= Max(row) by { DivideBound(Sum(row), u, Max(row)); }
  }

  lemma DivideBound(s: real, u: real, m: real)
    requires u > 0.0 && s <= u * m
    ensures s / u <= m
  {
  }

  /**
   * `M` as models/attn.py:64 writes it. The tensor library's `max(-1)` returns the
   * maxima alone, not a pair of maxima and positions, so `max(-1)[0]` is the `[H, L_Q]`
   * block of batch 0; broadcasting then subtracts each batch's own sampled sum over
   * `L_K` from batch 0's maximum. Batch 0 gets the intended measurement.
   */
  function MeasureAsWritten(s: Tensor4, B: nat, H: nat, LQ: nat, U: nat, LK: nat): (M: seq<seq<Vec>>)
    requires B > 0 && U > 0 && LK > 0 && Shape4(s, B, H, LQ, U)
    ensures Cube(M, B, H, LQ)
    ensures forall h :: 0 <= h < H ==> M[0][h] == Measure(s[0][h], U, LK)
    ensures forall b, h, i :: 0 <= b < B && 0 <= h < H && 0 <= i < LQ ==>
      M[b][h][i] == Measure(s[b][h], U, LK)[i] + (Max(s[0][h][i]) - Max(s[b][h][i]))
  {
    seq(B, b requires 0 <= b < B =>
      seq(H, h requires 0 <= h < H =>
        seq(LQ, i requires 0 <= i < LQ => Max(s[0][h][i]) - Sum(s[b][h][i]) / (LK as real))))
  }

  /**
   * The batch mix-up changes the measurement of a later batch: two batches of one head
   * and one query, with every key sampled, whose scores are `[0, 0]` and `[5, 5]`. The
   * measurement written for batch 1 is `-5`, negative although the sample size is
   * `L_K`; the intended one is `0`.
   */
  lemma MeasureAsWrittenMixesBatches()
    ensures var s: Tensor4 := [[[[0.0, 0.0]]], [[[5.0, 5.0]]]];
      MeasureAsWritten(s, 2, 1, 1, 2, 2)[1][0][0] == -5.0 &&
      Measure(s[1][0], 2, 2)[0] == 0.0
  {
    var s: Tensor4 := [[[[0.0, 0.0]]], [[[5.0, 5.0]]]];
    assert Max(s[0][0][0]) == 0.0 by { assert s[0][0][0][..1] == [0.0]; }
    assert Max(s[1][0][0]) == 5.0 by { assert s[1][0][0][..1] == [5.0]; }
    assert Sum(s[1][0][0]) == 10.0 by {
      assert s[1][0][0][..1] == [5.0];
      assert s[1][0][0][..1][..0] == [];
    }
  }

  /** `Q_K` of one batch and head: each selected query against every key. */
  function ReducedScores(q: Mat, k: Mat, top: seq<nat>, E: nat): (s: Mat)
    requires IsMat(q, |q|, E) && IsMat(k, |k|, E) && InRange(top, |q|)
    ensures IsMat(s, |top|, |k|)
    ensures forall r, j :: 0 <= r < |top| && 0 <= j < |k| ==> s[r][j] == Dot(q[top[r]], k[j])
  {
    seq(|top|, r requires 0 <= r < |top| =>
      seq(|k|, j requires 0 <= j < |k| => Dot(q[top[r]], k[j])))
  }

  /** The pair `(Q_K, M_top)` returned by `_prob_QK`. */
  datatype Sampled = Sampled(scores: Tensor4, index: seq<seq<seq<nat>>>)

  /**
   * `_prob_QK`: the same key sample is used for every batch and head; each pair `(b, h)`
   * ranks its own queries by its own `M` and keeps the `nTop` best.
   */
  function ProbQK(Q: Tensor4, K: Tensor4, sample: seq<seq<nat>>, U: nat, nTop: nat,
                  B: nat, H: nat, LQ: nat, LK: nat, E: nat): (res: Sampled)
    requires Shape4(Q, B, H, LQ, E) && Shape4(K, B, H, LK, E)
    requires U > 0 && LK > 0 && IsSample(sample, LQ, U, LK) && nTop <= LQ
    ensures IsSelection(res.index, B, H, nTop, LQ) && Shape4(res.scores, B, H, nTop, LK)
    ensures forall b, h :: 0 <= b < B && 0 <= h < H ==> Distinct(res.index[b][h])
    ensures forall b, h, r, q ::
      0 <= b < B && 0 <= h < H && 0 <= r < nTop && 0 <= q < LQ && q !in res.index[b][h] ==>
        HeadMeasure(Q[b][h], K[b][h], sample, U, E)[q] <=
        HeadMeasure(Q[b][h], K[b][h], sample, U, E)[res.index[b][h][r]]
    ensures forall b, h, r, j :: 0 <= b < B && 0 <= h < H && 0 <= r < nTop && 0 <= j < LK ==>
      res.scores[b][h][r][j] == Dot(Q[b][h][res.index[b][h][r]], K[b][h][j])
  {
    var index := seq(B, b requires 0 <= b < B =>
      seq(H, h requires 0 <= h < H => TopK(HeadMeasure(Q[b][h], K[b][h], sample, U, E), nTop)));
    var scores := seq(B, b requires 0 <= b < B =>
      seq(H, h requires 0 <= h < H => ReducedScores(Q[b][h], K[b][h], index[b][h], E)));
    Sampled(scores, index)
  }

  /** Scaling reduced scores scales each query-key dot product. */
  lemma ScaledEntries(t: Tensor4, scale: real, Q: Tensor4, K: Tensor4, index: seq<seq<seq<nat>>>,
                      B: nat, H: nat, n: nat, LQ: nat, LK: nat, E: nat)
    requires Shape4(Q, B, H, LQ, E) && Shape4(K, B, H, LK, E)
    requires IsSelection(index, B, H, n, LQ) && Shape4(t, B, H, n, LK)
    requires forall b, h, r, j :: 0 <= b < B && 0 <= h < H && 0 <= r < n && 0 <= j < LK ==>
      t[b][h][r][j] == Dot(Q[b][h][index[b][h][r]], K[b][h][j])
    ensures Shape4(Scale4(scale, t), B, H, n, LK)
    ensures forall b, h, r, j :: 0 <= b < B && 0 <= h < H && 0 <= r < n && 0 <= j < LK ==>
      Scale4(scale, t)[b][h][r][j] == ScaledDot(scale, Q[b][h][index[b][h][r]], K[b][h][j])
  {
    var u := Scale4(scale, t);
    forall b, h, r, j | 0 <= b < B && 0 <= h < H && 0 <= r < n && 0 <= j < LK
      ensures u[b][h][r][j] == ScaledDot(scale, Q[b][h][index[b][h][r]], K[b][h][j])
    {
      assert u[b][h][r] == Scale(scale, t[b][h][r]);
    }
  }

  // ---------------------------------------------------------------------------
  // Step 3: the initial context

  /**
   * `_get_initial_context`: without masking every one of the `LQ` rows is the mean of V
   * over the key axis; with masking `LQ == LV` is asserted and the context is the
   * running sum of V.
   */
  function InitialContext(V: Tensor4, LQ: nat, maskFlag: bool, B: nat, H: nat, LV: nat, D: nat)
    : (r: Result<Tensor4>)
    requires Shape4(V, B, H, LV, D) && LV > 0
    ensures r.Ok? <==> !maskFlag || LQ == LV
    ensures r.Err? ==> r.error == QueryValueLengthMismatch
    ensures r.Ok? ==> Shape4(r.value, B, H, LQ, D)
  {
    if !maskFlag then
      Ok(seq(B, b requires 0 <= b < B =>
        seq(H, h requires 0 <= h < H => var m := Mean(V[b][h], D); seq(LQ, _ => m))))
    else if LQ != LV then Err(QueryValueLengthMismatch)
    else
      Ok(seq(B, b requires 0 <= b < B => seq(H, h requires 0 <= h < H => CumSum(V[b][h], D))))
  }

  /**
   * Row `i` of the initial context: the mean of all value rows without masking, and the
   * sum of value rows `0..i` with masking, so a row never depends on a later position.
   */
  lemma InitialContextRows(V: Tensor4, LQ: nat, maskFlag: bool, B: nat, H: nat, LV: nat, D: nat,
                           b: nat, h: nat, i: nat)
    requires Shape4(V, B, H, LV, D) && LV > 0
    requires InitialContext(V, LQ, maskFlag, B, H, LV, D).Ok? && b < B && h < H && i < LQ
    ensures !maskFlag ==> InitialContext(V, LQ, maskFlag, B, H, LV, D).value[b][h][i] == Mean(V[b][h], D)
    ensures maskFlag ==>
      InitialContext(V, LQ, maskFlag, B, H, LV, D).value[b][h][i] == ColumnSum(V[b][h][..i + 1], D)
  {
  }

  /**
   * With masking, the initial context is a running sum: row 0 is value row 0, and each
   * later row adds the next value row to the row before it.
   */
  lemma InitialContextRecurrence(V: Tensor4, B: nat, H: nat, L: nat, D: nat, b: nat, h: nat, i: nat)
    requires Shape4(V, B, H, L, D) && b < B && h < H && i + 1 < L
    ensures var c := InitialContext(V, L, true, B, H, L, D).value;
      c[b][h][0] == V[b][h][0] &&
      forall e :: 0 <= e < D ==> c[b][h][i + 1][e] == c[b][h][i][e] + V[b][h][i + 1][e]
  {
    CumSumFirst(V[b][h], D);
    CumSumStep(V[b][h], D, i);
  }

  // ---------------------------------------------------------------------------
  // Step 4: attention of the selected queries and the scatter update

  /**
   * The scores of `_update_context` after masking: with masking on, the entries that
   * `ProbMask` forbids (keys after the selected query) become negative infinity.
   */
  function MaskedScores(scores: Tensor4, index: seq<seq<seq<nat>>>, LQ: nat, n: nat, maskFlag: bool,
                        B: nat, H: nat, LK: nat): (s: seq<seq<seq<seq<Ext>>>>)
    requires Shape4(scores, B, H, n, LK) && IsSelection(index, B, H, n, LQ)
    ensures Shape4(s, B, H, n, LK)
    ensures forall b, h, r, j :: 0 <= b < B && 0 <= h < H && 0 <= r < n && 0 <= j < LK ==>
      s[b][h][r][j] == if maskFlag && j > index[b][h][r] then NegInf else Fin(scores[b][h][r][j])
  {
    if maskFlag then Where4(ProbMask(B, H, LQ, index, n, LK), scores, B, H, n, LK)
    else Finite4(scores, B, H, n, LK)
  }

  /** `attn`: softmax over the keys of the masked scores. */
  function Attention(scores: Tensor4, index: seq<seq<seq<nat>>>, LQ: nat, n: nat, maskFlag: bool,
                     exp: real -> real, B: nat, H: nat, LK: nat): (p: Tensor4)
    requires Shape4(scores, B, H, n, LK) && IsSelection(index, B, H, n, LQ)
    ensures Shape4(p, B, H, n, LK)
    ensures forall b, h, r :: 0 <= b < B && 0 <= h < H && 0 <= r < n ==>
      p[b][h][r] == Softmax(exp, MaskedScores(scores, index, LQ, n, maskFlag, B, H, LK)[b][h][r])
  {
    Softmax4(exp, MaskedScores(scores, index, LQ, n, maskFlag, B, H, LK), B, H, n, LK)
  }

  /**
   * With a positive exponential every row of `attn` is a probability distribution:
   * key 0 is never masked, so the row sums to one, and the keys masked after the
   * selected query get probability zero.
   */
  lemma AttentionRowIsDistribution(scores: Tensor4, index: seq<seq<seq<nat>>>, LQ: nat, n: nat, maskFlag: bool,
                                   exp: real -> real, B: nat, H: nat, LK: nat, b: nat, h: nat, r: nat)
    requires Shape4(scores, B, H, n, LK) && IsSelection(index, B, H, n, LQ)
    requires forall x :: exp(x) > 0.0
    requires b < B && h < H && r < n && LK > 0
    ensures Sum(Attention(scores, index, LQ, n, maskFlag, exp, B, H, LK)[b][h][r]) == 1.0
    ensures maskFlag ==> forall j :: index[b][h][r] < j < LK ==>
      Attention(scores, index, LQ, n, maskFlag, exp, B, H, LK)[b][h][r][j] == 0.0
  {
    var row := MaskedScores(scores, index, LQ, n, maskFlag, B, H, LK)[b][h][r];
    assert row[0].Fin?;
    WeightSumPositive(exp, row, 0);
    SoftmaxSumsToOne(exp, row);
  }

  /** `ones([B, H, L, L]) / L`: the uniform weight placeholder. */
  function Uniform(B: nat, H: nat, L: nat): (u: Tensor4)
    ensures Shape4(u, B, H, L, L)
    ensures forall b, h, q, j :: 0 <= b < B && 0 <= h < H && 0 <= q < L && 0 <= j < L ==>
      u[b][h][q][j] == 1.0 / (L as real)
  {
    seq(B, _ => seq(H, _ => seq(L, _ => seq(L, j requires 0 <= j < L => 1.0 / (L as real)))))
  }

  /** The elements of a rank-3 array as nested sequences. */
  function Contents<X>(a: array3<X>): (c: seq<seq<seq<X>>>)
    reads a
    ensures Cube(c, a.Length0, a.Length1, a.Length2)
    ensures forall i, j, k :: 0 <= i < a.Length0 && 0 <= j < a.Length1 && 0 <= k < a.Length2 ==>
      c[i][j][k] == a[i, j, k]
  {
    seq(a.Length0, i requires 0 <= i < a.Length0 reads a =>
      seq(a.Length1, j requires 0 <= j < a.Length1 reads a =>
        seq(a.Length2, k requires 0 <= k < a.Length2 reads a => a[i, j, k])))
  }

  /** Writes `rows[r]` at row `idx[r]` of batch `b`, head `h`, for `r = 0, 1, ...` in turn. */
  method ScatterSlice<X>(a: array3<X>, b: nat, h: nat, idx: seq<nat>, rows: seq<X>)
    requires b < a.Length0 && h < a.Length1 && |idx| == |rows| && InRange(idx, a.Length2)
    modifies a
    ensures forall i, j, k :: 0 <= i < a.Length0 && 0 <= j < a.Length1 && 0 <= k < a.Length2 ==>
      a[i, j, k] == if i == b && j == h then Overwrite(old(Contents(a))[b][h], idx, rows)[k]
                    else old(a[i, j, k])
  {
    ghost var s0 := Contents(a)[b][h];
    var r := 0;
    while r < |idx|
      invariant 0 <= r <= |idx|
      invariant forall i, j, k :: 0 <= i < a.Length0 && 0 <= j < a.Length1 && 0 <= k < a.Length2 ==>
        a[i, j, k] == if i == b && j == h then Overwrite(s0, idx[..r], rows[..r])[k] else old(a[i, j, k])
    {
      a[b, h, idx[r]] := rows[r];
      assert idx[..r + 1][..r] == idx[..r] && rows[..r + 1][..r] == rows[..r];
      r := r + 1;
    }
    assert idx[..|idx|] == idx && rows[..|rows|] == rows;
  }

  /** `a[arange(B)[:, None, None], arange(H)[None, :, None], index, :] = rows`, in place. */
  method ScatterRows<X>(a: array3<X>, index: seq<seq<seq<nat>>>, rows: seq<seq<seq<X>>>, n: nat)
    requires IsSelection(index, a.Length0, a.Length1, n, a.Length2)
    requires Cube(rows, a.Length0, a.Length1, n)
    modifies a
    ensures Scatterable(old(Contents(a)), index, rows)
    ensures Contents(a) == ScatterAll(old(Contents(a)), index, rows)
  {
    ghost var c0 := Contents(a);
    assert Scatterable(c0, index, rows);
    ghost var target := ScatterAll(c0, index, rows);
    for b := 0 to a.Length0
      invariant forall i, j, k :: 0 <= i < a.Length0 && 0 <= j < a.Length1 && 0 <= k < a.Length2 ==>
        a[i, j, k] == if i < b then target[i][j][k] else c0[i][j][k]
    {
      for h := 0 to a.Length1
        invariant forall i, j, k :: 0 <= i < a.Length0 && 0 <= j < a.Length1 && 0 <= k < a.Length2 ==>
          a[i, j, k] == if i < b || (i == b && j < h) then target[i][j][k] else c0[i][j][k]
      {
        assert Contents(a)[b][h] == c0[b][h];
        ScatterSlice(a, b, h, index[b][h], rows[b][h]);
      }
    }
    forall i | 0 <= i < a.Length0 ensures Contents(a)[i] == target[i] {
      forall j | 0 <= j < a.Length1 ensures Contents(a)[i][j] == target[i][j] { }
    }
  }

  /**
   * `_update_context`: overwrites, in place, the context rows of the selected queries
   * with `attn @ V` and leaves every other row alone; when weights are requested, builds
   * the uniform placeholder and overwrites the same rows with `attn`.
   */
  method UpdateContext(ctx: array3<Vec>, V: Tensor4, scores: Tensor4, index: seq<seq<seq<nat>>>,
                       LQ: nat, n: nat, cfg: Config, exp: real -> real,
                       B: nat, H: nat, LV: nat, D: nat)
    returns (attns: Option<array3<Vec>>)
    requires ctx.Length0 == B && ctx.Length1 == H && ctx.Length2 == LQ
    requires Shape4(V, B, H, LV, D) && Shape4(scores, B, H, n, LV)
    requires IsSelection(index, B, H, n, LQ)
    requires cfg.outputAttention ==> IsSelection(index, B, H, n, LV)
    modifies ctx
    ensures Scatterable(old(Contents(ctx)), index,
                        MatMul4(Attention(scores, index, LQ, n, cfg.maskFlag, exp, B, H, LV), V, B, H, n, LV, D))
    ensures Contents(ctx) == ScatterAll(old(Contents(ctx)), index,
      MatMul4(Attention(scores, index, LQ, n, cfg.maskFlag, exp, B, H, LV), V, B, H, n, LV, D))
    ensures attns.Some? <==> cfg.outputAttention
    ensures attns.Some? ==> fresh(attns.value)
    ensures attns.Some? ==> Scatterable(Uniform(B, H, LV), index, Attention(scores, index, LQ, n, cfg.maskFlag, exp, B, H, LV))
    ensures attns.Some? ==>
      Contents(attns.value) ==
        ScatterAll(Uniform(B, H, LV), index, Attention(scores, index, LQ, n, cfg.maskFlag, exp, B, H, LV))
  {
    var probs := Attention(scores, index, LQ, n, cfg.maskFlag, exp, B, H, LV);
    var exact := MatMul4(probs, V, B, H, n, LV, D);
    ScatterRows(ctx, index, exact, n);
    if cfg.outputAttention {
      var u := Uniform(B, H, LV);
      var w := new Vec[B, H, LV]((b: nat, h: nat, q: nat) requires b < B && h < H && q < LV => u[b][h][q]);
      assert Contents(w) == u by {
        forall b | 0 <= b < B ensures Contents(w)[b] == u[b] {
          forall h | 0 <= h < H ensures Contents(w)[b][h] == u[b][h] { }
        }
      }
      ScatterRows(w, index, probs, n);
      attns := Some(w);
    } else {
      attns := None;
    }
  }

  // ---------------------------------------------------------------------------
  // The forward pass

  /**
   * Well-formed arguments of `forward`: queries `[B, LQ, H, E]`, keys `[B, LK, H, E]`,
   * values `[B, LK, H, D]`, non-empty sequences, a non-empty key sample of the shape
   * `_prob_QK` draws, and (for the weight placeholder) selected rows that fit its `LK` rows.
   */
  predicate ForwardInputs(cfg: Config, queries: Tensor4, keys: Tensor4, values: Tensor4,
                          sample: seq<seq<nat>>, lnK: nat,
                          B: nat, LQ: nat, LK: nat, H: nat, E: nat, D: nat)
  {
    Shape4(queries, B, LQ, H, E) && Shape4(keys, B, LK, H, E) && Shape4(values, B, LK, H, D) &&
    LQ > 0 && LK > 0 && SampleSize(cfg.factor, lnK, LK) > 0 &&
    IsSample(sample, LQ, SampleSize(cfg.factor, lnK, LK), LK) &&
    (cfg.outputAttention && !cfg.maskFlag ==> LQ <= LK)
  }

  /** The head-major tensors, the selection and the scaled reduced scores of one call. */
  datatype Plan = Plan(Q: Tensor4, K: Tensor4, V: Tensor4, nTop: nat,
                       index: seq<seq<seq<nat>>>, scores: Tensor4)

  /** The shapes of a plan for a call with these sizes, and its distinct selected positions. */
  predicate PlanFits(p: Plan, B: nat, H: nat, LQ: nat, LK: nat, D: nat)
  {
    Shape4(p.V, B, H, LK, D) && IsSelection(p.index, B, H, p.nTop, LQ) &&
    Shape4(p.scores, B, H, p.nTop, LK) &&
    forall b, h :: 0 <= b < B && 0 <= h < H ==> Distinct(p.index[b][h])
  }

  /**
   * What the plan of a call holds: the inputs head-major (row `i` of head `h` is
   * position `i` of that head), distinct selected positions, and each reduced score the
   * scaled dot product of the selected query with the key.
   */
  predicate PlanMatches(p: Plan, cfg: Config, queries: Tensor4, keys: Tensor4, values: Tensor4,
                        fallbackScale: real, B: nat, LQ: nat, LK: nat, H: nat, E: nat, D: nat)
  {
    Shape4(queries, B, LQ, H, E) && Shape4(keys, B, LK, H, E) && Shape4(values, B, LK, H, D) &&
    Shape4(p.Q, B, H, LQ, E) && Shape4(p.K, B, H, LK, E) && PlanFits(p, B, H, LQ, LK, D) &&
    (forall b, h, i :: 0 <= b < B && 0 <= h < H && 0 <= i < LQ ==> p.Q[b][h][i] == queries[b][i][h]) &&
    (forall b, h, j :: 0 <= b < B && 0 <= h < H && 0 <= j < LK ==>
      p.K[b][h][j] == keys[b][j][h] && p.V[b][h][j] == values[b][j][h]) &&
    (forall b, h, r, j :: 0 <= b < B && 0 <= h < H && 0 <= r < p.nTop && 0 <= j < LK ==>
      p.scores[b][h][r][j] ==
        ScaledDot(EffectiveScale(cfg.scale, fallbackScale), p.Q[b][h][p.index[b][h][r]], p.K[b][h][j]))
  }

  /** `[B, L, H, W] -> [B, H, L, W]`: row `i` of head `h` is position `i` of that head. */
  function HeadMajor(t: Tensor4, B: nat, L: nat, H: nat, W: nat): (u: Tensor4)
    requires Shape4(t, B, L, H, W)
    ensures Shape4(u, B, H, L, W)
    ensures forall b, h, i :: 0 <= b < B && 0 <= h < H && 0 <= i < L ==> u[b][h][i] == t[b][i][h]
  {
    TransposeShape(t, B, L, H, W);
    Transpose12(t, L, H)
  }

  /**
   * The transpose back at the end of `forward` undoes the head-major transpose at its
   * start: `[B, H, L, W] -> [B, L, H, W]` restores the input layout.
   */
  lemma HeadMajorRoundTrip(t: Tensor4, B: nat, L: nat, H: nat, W: nat)
    requires Shape4(t, B, L, H, W)
    ensures Transpose12(HeadMajor(t, B, L, H, W), H, L) == t
  {
    TransposeTwice(t, L, H);
  }

  /**
   * Steps 1 and 2 of `forward`: the inputs transposed head-major, `n_top` clipped to
   * `L_Q`, the selection of `_prob_QK`, and its reduced scores times the scale.
   */
  function MakePlan(cfg: Config, queries: Tensor4, keys: Tensor4, values: Tensor4,
                    sample: seq<seq<nat>>, lnQ: nat, lnK: nat, fallbackScale: real,
                    B: nat, LQ: nat, LK: nat, H: nat, E: nat, D: nat): (p: Plan)
    requires ForwardInputs(cfg, queries, keys, values, sample, lnK, B, LQ, LK, H, E, D)
    ensures p.nTop == Clip(cfg.factor * lnQ, LQ)
    ensures PlanMatches(p, cfg, queries, keys, values, fallbackScale, B, LQ, LK, H, E, D)
    ensures forall b, h, r, q ::
      0 <= b < B && 0 <= h < H && 0 <= r < p.nTop && 0 <= q < LQ && q !in p.index[b][h] ==>
        HeadMeasure(p.Q[b][h], p.K[b][h], sample, SampleSize(cfg.factor, lnK, LK), E)[q] <=
        HeadMeasure(p.Q[b][h], p.K[b][h], sample, SampleSize(cfg.factor, lnK, LK), E)[p.index[b][h][r]]
  {
    var Q := HeadMajor(queries, B, LQ, H, E);
    var K := HeadMajor(keys, B, LK, H, E);
    var V := HeadMajor(values, B, LK, H, D);
    var n := Clip(cfg.factor * lnQ, LQ);
    var qk := ScaledQK(Q, K, sample, SampleSize(cfg.factor, lnK, LK), n,
                       EffectiveScale(cfg.scale, fallbackScale), B, H, LQ, LK, E);
    Plan(Q, K, V, n, qk.index, qk.scores)
  }

  /** The selection of `_prob_QK` with its reduced scores multiplied by `scale`. */
  function ScaledQK(Q: Tensor4, K: Tensor4, sample: seq<seq<nat>>, U: nat, nTop: nat, scale: real,
                    B: nat, H: nat, LQ: nat, LK: nat, E: nat): (res: Sampled)
    requires Shape4(Q, B, H, LQ, E) && Shape4(K, B, H, LK, E)
    requires U > 0 && LK > 0 && IsSample(sample, LQ, U, LK) && nTop <= LQ
    ensures IsSelection(res.index, B, H, nTop, LQ) && Shape4(res.scores, B, H, nTop, LK)
    ensures forall b, h :: 0 <= b < B && 0 <= h < H ==> Distinct(res.index[b][h])
    ensures forall b, h, r, q ::
      0 <= b < B && 0 <= h < H && 0 <= r < nTop && 0 <= q < LQ && q !in res.index[b][h] ==>
        HeadMeasure(Q[b][h], K[b][h], sample, U, E)[q] <=
        HeadMeasure(Q[b][h], K[b][h], sample, U, E)[res.index[b][h][r]]
    ensures forall b, h, r, j :: 0 <= b < B && 0 <= h < H && 0 <= r < nTop && 0 <= j < LK ==>
      res.scores[b][h][r][j] == ScaledDot(scale, Q[b][h][res.index[b][h][r]], K[b][h][j])
  {
    var qk := ProbQK(Q, K, sample, U, nTop, B, H, LQ, LK, E);
    ScaledEntries(qk.scores, scale, Q, K, qk.index, B, H, nTop, LQ, LK, E);
    Sampled(Scale4(scale, qk.scores), qk.index)
  }

  /** A reduced score is the scaled dot product of the selected query with the key. */
  lemma MatchedScores(p: Plan, cfg: Config, queries: Tensor4, keys: Tensor4, values: Tensor4,
                      fallbackScale: real, B: nat, LQ: nat, LK: nat, H: nat, E: nat, D: nat,
                      b: nat, h: nat, r: nat, j: nat)
    requires PlanMatches(p, cfg, queries, keys, values, fallbackScale, B, LQ, LK, H, E, D)
    requires b < B && h < H && r < p.nTop && j < LK
    ensures p.scores[b][h][r][j] ==
      ScaledDot(EffectiveScale(cfg.scale, fallbackScale), queries[b][p.index[b][h][r]][h], keys[b][j][h])
  {
  }

  /**
   * The end of `forward` once the initial context exists: the selected rows are
   * scattered into it, the optional weights into the uniform placeholder, and the
   * context is transposed back to `[B, LQ, H, D]`.
   */
  function Finish(p: Plan, init: Tensor4, cfg: Config, exp: real -> real,
                  B: nat, LQ: nat, LK: nat, H: nat, D: nat): (out: Output<Tensor4>)
    requires PlanFits(p, B, H, LQ, LK, D) && Shape4(init, B, H, LQ, D)
    requires cfg.outputAttention ==> LQ <= LK
    ensures Shape4(out.context, B, LQ, H, D)
    ensures out.weights.Some? <==> cfg.outputAttention
    ensures out.weights.Some? ==> Shape4(out.weights.value, B, H, LK, LK)
  {
    var probs := Attention(p.scores, p.index, LQ, p.nTop, cfg.maskFlag, exp, B, H, LK);
    var exact := MatMul4(probs, p.V, B, H, p.nTop, LK, D);
    var context := ScatterAll(init, p.index, exact);
    ScatterAllShape(init, p.index, exact, B, H, LQ, p.nTop, D);
    TransposeShape(context, B, H, LQ, D);
    var weights := if cfg.outputAttention then Some(ScatteredWeights(p, cfg, exp, B, LQ, LK, H, D)) else None;
    Output(Transpose12(context, H, LQ), weights)
  }

  /** The weights of `_update_context`: the uniform placeholder with the selected rows set to `attn`. */
  function ScatteredWeights(p: Plan, cfg: Config, exp: real -> real,
                            B: nat, LQ: nat, LK: nat, H: nat, D: nat): (w: Tensor4)
    requires PlanFits(p, B, H, LQ, LK, D) && LQ <= LK
    ensures Shape4(w, B, H, LK, LK)
  {
    var probs := Attention(p.scores, p.index, LQ, p.nTop, cfg.maskFlag, exp, B, H, LK);
    ScatterAllShape(Uniform(B, H, LK), p.index, probs, B, H, LK, p.nTop, LK);
    ScatterAll(Uniform(B, H, LK), p.index, probs)
  }

  /** `forward` as a function of its inputs: context `[B, LQ, H, D]` and optional weights. */
  function ProbForward(cfg: Config, queries: Tensor4, keys: Tensor4, values: Tensor4,
                       sample: seq<seq<nat>>, lnQ: nat, lnK: nat, fallbackScale: real, exp: real -> real,
                       B: nat, LQ: nat, LK: nat, H: nat, E: nat, D: nat): (r: Result<Output<Tensor4>>)
    requires ForwardInputs(cfg, queries, keys, values, sample, lnK, B, LQ, LK, H, E, D)
    ensures r.Ok? <==> !cfg.maskFlag || LQ == LK
    ensures r.Err? ==> r.error == QueryValueLengthMismatch
    ensures r.Ok? ==> (Shape4(r.value.context, B, LQ, H, D) &&
      (r.value.weights.Some? <==> cfg.outputAttention) &&
      (r.value.weights.Some? ==> Shape4(r.value.weights.value, B, H, LK, LK)))
  {
    var p := MakePlan(cfg, queries, keys, values, sample, lnQ, lnK, fallbackScale, B, LQ, LK, H, E, D);
    match InitialContext(p.V, LQ, cfg.maskFlag, B, H, LK, D)
    case Err(e) => Err(e)
    case Ok(init) => Ok(Finish(p, init, cfg, exp, B, LQ, LK, H, D))
  }

  /**
   * `ProbAttention.forward`: the context tensor is allocated with its default rows and
   * then updated in place by `UpdateContext`; the result is the function above.
   */
  method Forward(cfg: Config, queries: Tensor4, keys: Tensor4, values: Tensor4,
                 sample: seq<seq<nat>>, lnQ: nat, lnK: nat, fallbackScale: real, exp: real -> real,
                 B: nat, LQ: nat, LK: nat, H: nat, E: nat, D: nat)
    returns (r: Result<Output<Tensor4>>)
    requires ForwardInputs(cfg, queries, keys, values, sample, lnK, B, LQ, LK, H, E, D)
    ensures r == ProbForward(cfg, queries, keys, values, sample, lnQ, lnK, fallbackScale, exp,
                             B, LQ, LK, H, E, D)
  {
    var p := MakePlan(cfg, queries, keys, values, sample, lnQ, lnK, fallbackScale, B, LQ, LK, H, E, D);
    var init := InitialContext(p.V, LQ, cfg.maskFlag, B, H, LK, D);
    if init.Err? {
      return Err(init.error);
    }
    var c0 := init.value;
    var ctx := new Vec[B, H, LQ]((b: nat, h: nat, q: nat) requires b < B && h < H && q < LQ => c0[b][h][q]);
    assert Contents(ctx) == c0 by {
      forall b | 0 <= b < B ensures Contents(ctx)[b] == c0[b] {
        forall h | 0 <= h < H ensures Contents(ctx)[b][h] == c0[b][h] { }
      }
    }
    var attns := UpdateContext(ctx, p.V, p.scores, p.index, LQ, p.nTop, cfg, exp, B, H, LK, D);
    var context := Transpose12(Contents(ctx), H, LQ);
    var weights := if attns.Some? then Some(Contents(attns.value)) else None;
    r := Ok(Output(context, weights));
    assert r.value == Finish(p, c0, cfg, exp, B, LQ, LK, H, D);
  }

  // ---------------------------------------------------------------------------
  // Properties of the forward pass

  /** The row that selected query `r` of batch `b`, head `h` receives: `attn[b, h, r] @ V[b, h]`. */
  function ExactRow(p: Plan, cfg: Config, exp: real -> real, B: nat, LQ: nat, LK: nat, H: nat, D: nat,
                    b: nat, h: nat, r: nat): (row: Vec)
    requires PlanFits(p, B, H, LQ, LK, D)
    requires b < B && h < H && r < p.nTop
    ensures |row| == D
  {
    Combine(Softmax(exp, MaskedScores(p.scores, p.index, LQ, p.nTop, cfg.maskFlag, B, H, LK)[b][h][r]),
            p.V[b][h], D)
  }

  /**
   * After the scatter, context row `q` of batch `b`, head `h` is the exact row of the
   * selected query listed at `q`, and keeps its initial value when `q` is not selected.
   */
  lemma FinishContextRows(p: Plan, init: Tensor4, cfg: Config, exp: real -> real,
                          B: nat, LQ: nat, LK: nat, H: nat, D: nat, b: nat, q: nat, h: nat)
    requires PlanFits(p, B, H, LQ, LK, D) && Shape4(init, B, H, LQ, D)
    requires cfg.outputAttention ==> LQ <= LK
    requires b < B && q < LQ && h < H
    ensures q !in p.index[b][h] ==> Finish(p, init, cfg, exp, B, LQ, LK, H, D).context[b][q][h] == init[b][h][q]
    ensures forall k :: 0 <= k < p.nTop && p.index[b][h][k] == q ==>
      Finish(p, init, cfg, exp, B, LQ, LK, H, D).context[b][q][h] == ExactRow(p, cfg, exp, B, LQ, LK, H, D, b, h, k)
  {
    var probs := Attention(p.scores, p.index, LQ, p.nTop, cfg.maskFlag, exp, B, H, LK);
    var exact := MatMul4(probs, p.V, B, H, p.nTop, LK, D);
    var context := ScatterAll(init, p.index, exact);
    var out := Finish(p, init, cfg, exp, B, LQ, LK, H, D);
    assert out.context == Transpose12(context, H, LQ);
    assert out.context[b][q][h] == context[b][h][q];
    ScatterAllRows(init, p.index, exact, b, h, q);
    forall k | 0 <= k < p.nTop && p.index[b][h][k] == q
      ensures context[b][h][q] == ExactRow(p, cfg, exp, B, LQ, LK, H, D, b, h, k)
    {
      assert context[b][h][q] == exact[b][h][k];
    }
  }

  /**
   * The weights after the scatter: row `q` of batch `b`, head `h` is the softmax of the
   * selected query listed at `q`, and the uniform `1/LK` when `q` is not selected.
   */
  lemma FinishWeightRows(p: Plan, init: Tensor4, cfg: Config, exp: real -> real,
                         B: nat, LQ: nat, LK: nat, H: nat, D: nat, b: nat, q: nat, h: nat)
    requires PlanFits(p, B, H, LQ, LK, D) && Shape4(init, B, H, LQ, D)
    requires cfg.outputAttention && LQ <= LK
    requires b < B && q < LK && h < H
    ensures var w := Finish(p, init, cfg, exp, B, LQ, LK, H, D).weights.value;
      q !in p.index[b][h] ==> forall j :: 0 <= j < LK ==> w[b][h][q][j] == 1.0 / (LK as real)
    ensures var w := Finish(p, init, cfg, exp, B, LQ, LK, H, D).weights.value;
      forall k :: 0 <= k < p.nTop && p.index[b][h][k] == q ==>
        w[b][h][q] == Softmax(exp, MaskedScores(p.scores, p.index, LQ, p.nTop, cfg.maskFlag, B, H, LK)[b][h][k])
  {
    assert Finish(p, init, cfg, exp, B, LQ, LK, H, D).weights.value == ScatteredWeights(p, cfg, exp, B, LQ, LK, H, D);
    ScatteredWeightRows(p, cfg, exp, B, LQ, LK, H, D, b, q, h);
  }

  /** The rows of `ScatteredWeights`: uniform where no query was selected, `attn` where one was. */
  lemma ScatteredWeightRows(p: Plan, cfg: Config, exp: real -> real,
                            B: nat, LQ: nat, LK: nat, H: nat, D: nat, b: nat, q: nat, h: nat)
    requires PlanFits(p, B, H, LQ, LK, D) && LQ <= LK
    requires b < B && q < LK && h < H
    ensures var w := ScatteredWeights(p, cfg, exp, B, LQ, LK, H, D);
      q !in p.index[b][h] ==> forall j :: 0 <= j < LK ==> w[b][h][q][j] == 1.0 / (LK as real)
    ensures var w := ScatteredWeights(p, cfg, exp, B, LQ, LK, H, D);
      forall k :: 0 <= k < p.nTop && p.index[b][h][k] == q ==>
        w[b][h][q] == Softmax(exp, MaskedScores(p.scores, p.index, LQ, p.nTop, cfg.maskFlag, B, H, LK)[b][h][k])
  {
    var probs := Attention(p.scores, p.index, LQ, p.nTop, cfg.maskFlag, exp, B, H, LK);
    ScatterAllRows(Uniform(B, H, LK), p.index, probs, b, h, q);
  }

  /**
   * A successful call is the end of `forward` applied to the plan of the call and to
   * the initial context of its value rows.
   */
  lemma ForwardIsFinish(cfg: Config, queries: Tensor4, keys: Tensor4, values: Tensor4,
                        sample: seq<seq<nat>>, lnQ: nat, lnK: nat, fallbackScale: real, exp: real -> real,
                        B: nat, LQ: nat, LK: nat, H: nat, E: nat, D: nat)
    requires ForwardInputs(cfg, queries, keys, values, sample, lnK, B, LQ, LK, H, E, D)
    requires !cfg.maskFlag || LQ == LK
    ensures var p := MakePlan(cfg, queries, keys, values, sample, lnQ, lnK, fallbackScale, B, LQ, LK, H, E, D);
      PlanMatches(p, cfg, queries, keys, values, fallbackScale, B, LQ, LK, H, E, D) &&
      p.nTop == Clip(cfg.factor * lnQ, LQ) &&
      InitialContext(p.V, LQ, cfg.maskFlag, B, H, LK, D).Ok? &&
      ProbForward(cfg, queries, keys, values, sample, lnQ, lnK, fallbackScale, exp, B, LQ, LK, H, E, D).value ==
        Finish(p, InitialContext(p.V, LQ, cfg.maskFlag, B, H, LK, D).value, cfg, exp, B, LQ, LK, H, D)
  {
  }

  /**
   * The context rows of a call, given its plan: row `q` of batch `b`, head `h` is the
   * exact attention output when `q` is selected, and otherwise keeps its default, the
   * mean of V (no masking) or the sum of value rows `0..q` (masking).
   */
  lemma ContextRows(p: Plan, cfg: Config, exp: real -> real, B: nat, LQ: nat, LK: nat, H: nat, D: nat,
                    b: nat, q: nat, h: nat)
    requires PlanFits(p, B, H, LQ, LK, D) && LK > 0
    requires (!cfg.maskFlag || LQ == LK) && (cfg.outputAttention ==> LQ <= LK)
    requires b < B && q < LQ && h < H
    ensures var out := Finish(p, InitialContext(p.V, LQ, cfg.maskFlag, B, H, LK, D).value, cfg, exp, B, LQ, LK, H, D);
      (q !in p.index[b][h] && !cfg.maskFlag ==> out.context[b][q][h] == Mean(p.V[b][h], D)) &&
      (q !in p.index[b][h] && cfg.maskFlag ==> out.context[b][q][h] == ColumnSum(p.V[b][h][..q + 1], D)) &&
      (forall k :: 0 <= k < p.nTop && p.index[b][h][k] == q ==>
        out.context[b][q][h] == ExactRow(p, cfg, exp, B, LQ, LK, H, D, b, h, k))
  {
    var init := InitialContext(p.V, LQ, cfg.maskFlag, B, H, LK, D).value;
    FinishContextRows(p, init, cfg, exp, B, LQ, LK, H, D, b, q, h);
    InitialContextRows(p.V, LQ, cfg.maskFlag, B, H, LK, D, b, h, q);
  }

  /**
   * Without masking, values that are the same vector `k` at every key position give a
   * context that is `k` everywhere: the default rows are the mean of equal rows, and
   * the exact rows are a probability-weighted sum of equal rows.
   */
  lemma ConstantValuesGiveConstantContext(cfg: Config, queries: Tensor4, keys: Tensor4, values: Tensor4,
                                          sample: seq<seq<nat>>, lnQ: nat, lnK: nat, fallbackScale: real,
                                          exp: real -> real, B: nat, LQ: nat, LK: nat, H: nat, E: nat,
                                          k: Vec, b: nat, q: nat, h: nat)
    requires ForwardInputs(cfg, queries, keys, values, sample, lnK, B, LQ, LK, H, E, |k|)
    requires !cfg.maskFlag && forall x :: exp(x) > 0.0
    requires forall i, s, j :: 0 <= i < B && 0 <= s < LK && 0 <= j < H ==> values[i][s][j] == k
    requires b < B && q < LQ && h < H
    ensures ProbForward(cfg, queries, keys, values, sample, lnQ, lnK, fallbackScale, exp,
                        B, LQ, LK, H, E, |k|).value.context[b][q][h] == k
  {
    var D := |k|;
    var p := MakePlan(cfg, queries, keys, values, sample, lnQ, lnK, fallbackScale, B, LQ, LK, H, E, D);
    ForwardIsFinish(cfg, queries, keys, values, sample, lnQ, lnK, fallbackScale, exp, B, LQ, LK, H, E, D);
    assert forall s :: 0 <= s < LK ==> p.V[b][h][s] == k;
    ConstantRowsGiveConstantContext(p, cfg, exp, B, LQ, LK, H, k, b, q, h);
  }

  /** The same, given the plan: every row of a head whose value rows all equal `k` is `k`. */
  lemma ConstantRowsGiveConstantContext(p: Plan, cfg: Config, exp: real -> real, B: nat, LQ: nat, LK: nat, H: nat,
                                        k: Vec, b: nat, q: nat, h: nat)
    requires PlanFits(p, B, H, LQ, LK, |k|) && LK > 0
    requires !cfg.maskFlag && (cfg.outputAttention ==> LQ <= LK) && forall x :: exp(x) > 0.0
    requires b < B && q < LQ && h < H
    requires forall s :: 0 <= s < LK ==> p.V[b][h][s] == k
    ensures Finish(p, InitialContext(p.V, LQ, cfg.maskFlag, B, H, LK, |k|).value, cfg, exp, B, LQ, LK, H, |k|)
      .context[b][q][h] == k
  {
    var D := |k|;
    ContextRows(p, cfg, exp, B, LQ, LK, H, D, b, q, h);
    if q !in p.index[b][h] {
      MeanOfConstantRows(p.V[b][h], k);
    } else {
      var r :| 0 <= r < p.nTop && p.index[b][h][r] == q;
      ExactRowOfConstantValues(p, cfg, exp, B, LQ, LK, H, k, b, h, r);
    }
  }

  /** With masking on or off, the exact row of a head whose value rows all equal `k` is `k`. */
  lemma ExactRowOfConstantValues(p: Plan, cfg: Config, exp: real -> real, B: nat, LQ: nat, LK: nat, H: nat,
                                 k: Vec, b: nat, h: nat, r: nat)
    requires PlanFits(p, B, H, LQ, LK, |k|) && LK > 0
    requires forall x :: exp(x) > 0.0
    requires b < B && h < H && r < p.nTop
    requires forall s :: 0 <= s < LK ==> p.V[b][h][s] == k
    ensures ExactRow(p, cfg, exp, B, LQ, LK, H, |k|, b, h, r) == k
  {
    var row := MaskedScores(p.scores, p.index, LQ, p.nTop, cfg.maskFlag, B, H, LK)[b][h][r];
    AttentionRowIsDistribution(p.scores, p.index, LQ, p.nTop, cfg.maskFlag, exp, B, H, LK, b, h, r);
    CombineConstantRows(Softmax(exp, row), p.V[b][h], k);
  }
}
