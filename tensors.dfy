/**
 * The part of the numeric backend that the attention code relies on, over exact
 * reals: sums, dot products, the maximum, column sums, mean and cumulative sum over
 * the sequence axis, matrix products, softmax and the axis swap used for
 * `[B, L, H, E] <-> [B, H, L, E]`.
 *
 * Tensors are nested sequences. A rank-4 tensor `t` is indexed `t[b][h][l][e]`;
 * its last axis is a `Vec`, so a rank-4 tensor is a `seq<seq<Mat>>`.
 */
module Tensors {

  type Vec = seq<real>
  type Mat = seq<Vec>
  /** A rank-4 tensor `t[i][j][k][e]`. */
  type Tensor4 = seq<seq<Mat>>

  /** A score after masking: a finite value or negative infinity. */
  datatype Ext = NegInf | Fin(v: real)

  predicate IsMat<X>(m: seq<seq<X>>, rows: nat, cols: nat)
  {
    |m| == rows && forall i :: 0 <= i < rows ==> |m[i]| == cols
  }

  /** `t` has shape `[a, b, c]`. */
  predicate Cube<X>(t: seq<seq<seq<X>>>, a: nat, b: nat, c: nat)
  {
    |t| == a && forall i :: 0 <= i < a ==> IsMat(t[i], b, c)
  }

  /** `t` has shape `[a, b, c, d]`. */
  predicate Shape4<X>(t: seq<seq<seq<seq<X>>>>, a: nat, b: nat, c: nat, d: nat)
  {
    Cube(t, a, b, c) &&
    forall i, j, k :: 0 <= i < a && 0 <= j < b && 0 <= k < c ==> |t[i][j][k]| == d
  }

  // ---------------------------------------------------------------------------
  // Reductions over a vector

  /** The sum of the entries, added from the first to the last. */
  function Sum(v: Vec): (s: real)
  {
    if |v| == 0 then 0.0 else Sum(v[..|v| - 1]) + v[|v| - 1]
  }

  /** The dot product of two vectors of the same length. */
  function Dot(a: Vec, b: Vec): (d: real)
    requires |a| == |b|
  {
    Sum(seq(|a|, i requires 0 <= i < |a| => a[i] * b[i]))
  }

  /** A query-key dot product times the softmax scale. */
  function ScaledDot(scale: real, q: Vec, k: Vec): (s: real)
    requires |q| == |k|
  {
    scale * Dot(q, k)
  }

  /** The largest entry; it is one of the entries and bounds all of them. */
  function Max(v: Vec): (m: real)
    requires |v| > 0
    ensures exists i :: 0 <= i < |v| && v[i] == m
    ensures forall i :: 0 <= i < |v| ==> v[i] <= m
  {
    if |v| == 1 then v[0]
    else
      var p := Max(v[..|v| - 1]);
      assert forall i :: 0 <= i < |v| - 1 ==> v[..|v| - 1][i] == v[i];
      if v[|v| - 1] > p then v[|v| - 1] else p
  }

  /** A sum of entries that are all at most `m` is at most its length times `m`. */
  lemma {:induction false} SumAtMostLengthTimes(v: Vec, m: real)
    requires forall i :: 0 <= i < |v| ==> v[i] <= m
    ensures Sum(v) <= (|v| as real) * m
  {
    if |v| > 0 {
      var p := v[..|v| - 1];
      assert forall i :: 0 <= i < |p| ==> p[i] <= m by {
        forall i | 0 <= i < |p| ensures p[i] <= m { assert p[i] == v[i]; }
      }
      SumAtMostLengthTimes(p, m);
      AddOneMore(|p| as real, |v| as real, m, Sum(p), v[|v| - 1]);
    }
  }

  /** The inductive step above: one more entry adds at most one more `m`. */
  lemma AddOneMore(k: real, n: real, m: real, s: real, x: real)
    requires n == k + 1.0 && s <= k * m && x <= m
    ensures s + x <= n * m
  {
  }

  function Scale(c: real, v: Vec): (u: Vec)
    ensures |u| == |v| && forall j :: 0 <= j < |v| ==> u[j] == c * v[j]
  {
    seq(|v|, j requires 0 <= j < |v| => c * v[j])
  }

  function DivideBy(v: Vec, z: real): (u: Vec)
    requires z != 0.0
    ensures |u| == |v| && forall j :: 0 <= j < |v| ==> u[j] == v[j] / z
  {
    seq(|v|, j requires 0 <= j < |v| => v[j] / z)
  }

  /** Dividing every entry by `z` divides the sum by `z`. */
  lemma {:induction false} SumDivided(v: Vec, z: real)
    requires z != 0.0
    ensures Sum(DivideBy(v, z)) == Sum(v) / z
  {
    if |v| > 0 {
      var p := v[..|v| - 1];
      var u := DivideBy(v, z);
      SumDivided(p, z);
      assert u[..|v| - 1] == DivideBy(p, z);
      assert Sum(u) == Sum(DivideBy(p, z)) + v[|v| - 1] / z;
      AddDivided(Sum(p), v[|v| - 1], z);
    }
  }

  /** Division by `z` distributes over a sum of two terms. */
  lemma AddDivided(a: real, b: real, z: real)
    requires z != 0.0
    ensures a / z + b / z == (a + b) / z
  {
  }

  /** Multiplying every entry by `c` multiplies the sum by `c`. */
  lemma {:induction false} SumScaled(v: Vec, c: real)
    ensures Sum(Scale(c, v)) == c * Sum(v)
  {
    if |v| > 0 {
      var p := v[..|v| - 1];
      SumScaled(p, c);
      forall j | 0 <= j < |p| ensures Scale(c, v)[j] == Scale(c, p)[j] { }
      assert Scale(c, v)[..|v| - 1] == Scale(c, p);
    }
  }

  /** A vector of `n` copies of `k` sums to `n * k`. */
  lemma {:induction false} SumConstant(v: Vec, k: real, n: nat)
    requires |v| == n && forall i :: 0 <= i < |v| ==> v[i] == k
    ensures Sum(v) == (n as real) * k
  {
    if n > 0 {
      SumConstant(v[..n - 1], k, n - 1);
      AddOneMoreEq((n - 1) as real, n as real, k, Sum(v[..n - 1]));
    }
  }

  lemma AddOneMoreEq(m: real, n: real, k: real, s: real)
    requires n == m + 1.0 && s == m * k
    ensures s + k == n * k
  {
  }

  // ---------------------------------------------------------------------------
  // Row-wise arithmetic over matrices whose rows are the sequence positions

  /** Column `e` of `rows`: the values of feature `e` along the sequence axis. */
  function Column(rows: Mat, e: nat): (c: Vec)
    requires forall i :: 0 <= i < |rows| ==> e < |rows[i]|
    ensures |c| == |rows| && forall i :: 0 <= i < |rows| ==> c[i] == rows[i][e]
  {
    seq(|rows|, i requires 0 <= i < |rows| => rows[i][e])
  }

  /** The sum over the sequence axis (`sum(axis=-2)`). */
  function ColumnSum(rows: Mat, d: nat): (s: Vec)
    requires IsMat(rows, |rows|, d)
    ensures |s| == d
  {
    seq(d, e requires 0 <= e < d => Sum(Column(rows, e)))
  }

  /** The mean over the sequence axis (`mean(axis=-2)`). */
  function Mean(rows: Mat, d: nat): (m: Vec)
    requires |rows| > 0 && IsMat(rows, |rows|, d)
    ensures |m| == d
    ensures forall e :: 0 <= e < d ==> m[e] == ColumnSum(rows, d)[e] / (|rows| as real)
  {
    seq(d, e requires 0 <= e < d => Sum(Column(rows, e)) / (|rows| as real))
  }

  /** The mean of rows that all equal `k` is `k`. */
  lemma MeanOfConstantRows(rows: Mat, k: Vec)
    requires |rows| > 0 && IsMat(rows, |rows|, |k|)
    requires forall i :: 0 <= i < |rows| ==> rows[i] == k
    ensures Mean(rows, |k|) == k
  {
    forall e | 0 <= e < |k| ensures Mean(rows, |k|)[e] == k[e] {
      assert Mean(rows, |k|)[e] == Sum(Column(rows, e)) / (|rows| as real);
      SumConstant(Column(rows, e), k[e], |rows|);
      CancelFactor(|rows| as real, k[e], Sum(Column(rows, e)));
    }
  }

  lemma CancelFactor(n: real, x: real, s: real)
    requires n > 0.0 && s == n * x
    ensures s / n == x
  {
  }

  /** The running sum over the sequence axis (`cumsum(axis=-2)`): row `i` sums input rows `0..i`. */
  function CumSum(rows: Mat, d: nat): (c: Mat)
    requires IsMat(rows, |rows|, d)
    ensures IsMat(c, |rows|, d)
  {
    seq(|rows|, i requires 0 <= i < |rows| => ColumnSum(rows[..i + 1], d))
  }

  /** The running sum starts at the first input row. */
  lemma CumSumFirst(rows: Mat, d: nat)
    requires IsMat(rows, |rows|, d) && |rows| > 0
    ensures CumSum(rows, d)[0] == rows[0]
  {
    forall e | 0 <= e < d ensures CumSum(rows, d)[0][e] == rows[0][e] {
      var c := Column(rows[..1], e);
      assert CumSum(rows, d)[0] == ColumnSum(rows[..1], d);
      assert CumSum(rows, d)[0][e] == Sum(c);
      assert |c| == 1 && c[..0] == [] && c[0] == rows[0][e];
      assert Sum(c) == Sum(c[..0]) + c[0];
      assert Sum(c[..0]) == 0.0;
    }
  }

  /** Each later row of the running sum is the row before it plus the next input row. */
  lemma CumSumStep(rows: Mat, d: nat, i: nat)
    requires IsMat(rows, |rows|, d) && i + 1 < |rows|
    ensures forall e :: 0 <= e < d ==> CumSum(rows, d)[i + 1][e] == CumSum(rows, d)[i][e] + rows[i + 1][e]
  {
    forall e | 0 <= e < d ensures CumSum(rows, d)[i + 1][e] == CumSum(rows, d)[i][e] + rows[i + 1][e] {
      var c := Column(rows[..i + 2], e);
      assert c[..i + 1] == Column(rows[..i + 1], e);
    }
  }

  // ---------------------------------------------------------------------------
  // Attention primitives

  /** The weighted sum of the rows of `v` with weights `w` (one row of `w @ v`). */
  function Combine(w: Vec, v: Mat, d: nat): (c: Vec)
    requires |w| == |v| && IsMat(v, |v|, d)
    ensures |c| == d
  {
    seq(d, e requires 0 <= e < d => Dot(w, Column(v, e)))
  }

  /** `a @ v` for an `[n, S]` matrix `a` and an `[S, d]` matrix `v`. */
  function MatMul(a: Mat, v: Mat, d: nat): (c: Mat)
    requires IsMat(a, |a|, |v|) && IsMat(v, |v|, d)
    ensures IsMat(c, |a|, d)
    ensures forall r :: 0 <= r < |a| ==> c[r] == Combine(a[r], v, d)
  {
    seq(|a|, r requires 0 <= r < |a| => Combine(a[r], v, d))
  }

  /** Combining equal weights-that-sum-to-one over rows that all equal `k` gives `k`. */
  lemma CombineConstantRows(w: Vec, v: Mat, k: Vec)
    requires |w| == |v| && IsMat(v, |v|, |k|)
    requires forall s :: 0 <= s < |v| ==> v[s] == k
    requires Sum(w) == 1.0
    ensures Combine(w, v, |k|) == k
  {
    forall e | 0 <= e < |k| ensures Combine(w, v, |k|)[e] == k[e] {
      var c := Column(v, e);
      var prod := seq(|w|, i requires 0 <= i < |w| => w[i] * c[i]);
      forall i | 0 <= i < |w| ensures prod[i] == Scale(k[e], w)[i] {
        assert c[i] == v[i][e] == k[e];
        MulCommutes(w[i], k[e]);
      }
      assert prod == Scale(k[e], w);
      SumScaled(w, k[e]);
    }
  }

  /** Rows that get weight zero do not matter: changing only them leaves the combination alone. */
  lemma CombineIgnoresZeroWeights(w: Vec, v: Mat, v': Mat, d: nat)
    requires |w| == |v| == |v'| && IsMat(v, |v|, d) && IsMat(v', |v'|, d)
    requires forall s :: 0 <= s < |w| ==> w[s] == 0.0 || v[s] == v'[s]
    ensures Combine(w, v, d) == Combine(w, v', d)
  {
    forall e | 0 <= e < d ensures Combine(w, v, d)[e] == Combine(w, v', d)[e] {
      var c := Column(v, e);
      var c' := Column(v', e);
      var prod := seq(|w|, i requires 0 <= i < |w| => w[i] * c[i]);
      var prod' := seq(|w|, i requires 0 <= i < |w| => w[i] * c'[i]);
      forall i | 0 <= i < |w| ensures prod[i] == prod'[i] {
        if w[i] != 0.0 {
          assert c[i] == v[i][e] == v'[i][e] == c'[i];
        }
      }
      assert prod == prod';
    }
  }

  /** The unnormalised weight of one score: `exp(v)`, and zero for negative infinity. */
  function Weight(exp: real -> real, x: Ext): (w: real)
  {
    match x
    case NegInf => 0.0
    case Fin(v) => exp(v)
  }

  function Weights(exp: real -> real, row: seq<Ext>): (w: Vec)
    ensures |w| == |row| && forall j :: 0 <= j < |row| ==> w[j] == Weight(exp, row[j])
  {
    seq(|row|, j requires 0 <= j < |row| => Weight(exp, row[j]))
  }

  /**
   * Softmax over one row of scores, with the exponential passed in. A masked score
   * gets probability zero. A row whose weights sum to zero (every score masked)
   * yields zeros.
   */
  function Softmax(exp: real -> real, row: seq<Ext>): (p: Vec)
    ensures |p| == |row|
    ensures forall j :: 0 <= j < |row| && row[j] == NegInf ==> p[j] == 0.0
  {
    var w := Weights(exp, row);
    var z := Sum(w);
    seq(|row|, j requires 0 <= j < |row| => if z == 0.0 then 0.0 else w[j] / z)
  }

  /** When the weights do not all vanish, softmax is a probability distribution. */
  lemma SoftmaxSumsToOne(exp: real -> real, row: seq<Ext>)
    requires Sum(Weights(exp, row)) != 0.0
    ensures Sum(Softmax(exp, row)) == 1.0
  {
    var w := Weights(exp, row);
    var z := Sum(w);
    assert Softmax(exp, row) == DivideBy(w, z);
    SumDivided(w, z);
    DivideSelf(z);
  }

  lemma MulCommutes(x: real, y: real)
    ensures x * y == y * x
  {
  }

  lemma DivideSelf(z: real)
    requires z != 0.0
    ensures z / z == 1.0
  {
  }

  /** With a positive exponential, a row with one finite score has a non-zero weight sum. */
  lemma {:induction false} WeightSumPositive(exp: real -> real, row: seq<Ext>, j: nat)
    requires forall x :: exp(x) > 0.0
    requires j < |row| && row[j].Fin?
    ensures Sum(Weights(exp, row)) > 0.0
  {
    var w := Weights(exp, row);
    var n := |row|;
    assert forall i :: 0 <= i < n ==> w[i] >= 0.0;
    var p := row[..n - 1];
    assert Weights(exp, p) == w[..n - 1];
    if j == n - 1 {
      NonNegativeSum(w[..n - 1]);
    } else {
      WeightSumPositive(exp, p, j);
    }
  }

  lemma {:induction false} NonNegativeSum(v: Vec)
    requires forall i :: 0 <= i < |v| ==> v[i] >= 0.0
    ensures Sum(v) >= 0.0
  {
    if |v| > 0 {
      NonNegativeSum(v[..|v| - 1]);
    }
  }

  // ---------------------------------------------------------------------------
  // Axis swap

  /** Swaps axes 1 and 2 of a rank-3 block (`[a, b, c] -> [a, c, b]`). */
  function Transpose12<X>(t: seq<seq<seq<X>>>, b: nat, c: nat): (u: seq<seq<seq<X>>>)
    requires Cube(t, |t|, b, c)
    ensures Cube(u, |t|, c, b)
    ensures forall i, j, k :: 0 <= i < |t| && 0 <= j < b && 0 <= k < c ==> u[i][k][j] == t[i][j][k]
  {
    seq(|t|, i requires 0 <= i < |t| =>
      seq(c, k requires 0 <= k < c =>
        seq(b, j requires 0 <= j < b => t[i][j][k])))
  }

  /** Swapping twice gives back the original block. */
  lemma TransposeTwice<X>(t: seq<seq<seq<X>>>, b: nat, c: nat)
    requires Cube(t, |t|, b, c)
    ensures Transpose12(Transpose12(t, b, c), c, b) == t
  {
    var u := Transpose12(Transpose12(t, b, c), c, b);
    forall i | 0 <= i < |t| ensures u[i] == t[i] {
      forall j | 0 <= j < b ensures u[i][j] == t[i][j] { }
    }
  }

  /** Swapping axes 1 and 2 of a rank-4 tensor keeps the length of the last axis. */
  lemma TransposeShape(t: Tensor4, a: nat, b: nat, c: nat, d: nat)
    requires Shape4(t, a, b, c, d)
    ensures Shape4(Transpose12(t, b, c), a, c, b, d)
  {
  }

  /** Two rank-4 tensors of one shape that agree on every last-axis vector are equal. */
  lemma Shape4Equal<X>(t: seq<seq<seq<seq<X>>>>, u: seq<seq<seq<seq<X>>>>, a: nat, b: nat, c: nat, d: nat)
    requires Shape4(t, a, b, c, d) && Shape4(u, a, b, c, d)
    requires forall i, j, k :: 0 <= i < a && 0 <= j < b && 0 <= k < c ==> t[i][j][k] == u[i][j][k]
    ensures t == u
  {
    forall i | 0 <= i < a ensures t[i] == u[i] {
      forall j | 0 <= j < b ensures t[i][j] == u[i][j] {
        assert |t[i][j]| == |u[i][j]| == c;
      }
    }
  }

  // ---------------------------------------------------------------------------
  // Rank-4 maps over `[B, H, rows, cols]` tensors

  /** Every entry multiplied by `c` (`scores * scale`). */
  function Scale4(c: real, t: Tensor4): (u: Tensor4)
    ensures |u| == |t|
    ensures forall i :: 0 <= i < |t| ==> |u[i]| == |t[i]| && forall j :: 0 <= j < |t[i]| ==>
      |u[i][j]| == |t[i][j]| && forall k :: 0 <= k < |t[i][j]| ==> u[i][j][k] == Scale(c, t[i][j][k])
  {
    seq(|t|, i requires 0 <= i < |t| =>
      seq(|t[i]|, j requires 0 <= j < |t[i]| =>
        seq(|t[i][j]|, k requires 0 <= k < |t[i][j]| => Scale(c, t[i][j][k]))))
  }

  /** `where(mask, -inf, scores)` for a mask of the same shape as the scores. */
  function Where4(mask: seq<seq<seq<seq<bool>>>>, t: Tensor4, a: nat, b: nat, c: nat, d: nat)
    : (u: seq<seq<seq<seq<Ext>>>>)
    requires Shape4(mask, a, b, c, d) && Shape4(t, a, b, c, d)
    ensures Shape4(u, a, b, c, d)
    ensures forall i, j, k, l :: 0 <= i < a && 0 <= j < b && 0 <= k < c && 0 <= l < d ==>
      u[i][j][k][l] == if mask[i][j][k][l] then NegInf else Fin(t[i][j][k][l])
  {
    seq(a, i requires 0 <= i < a =>
      seq(b, j requires 0 <= j < b =>
        seq(c, k requires 0 <= k < c =>
          seq(d, l requires 0 <= l < d =>
            if mask[i][j][k][l] then NegInf else Fin(t[i][j][k][l])))))
  }

  /** The scores unchanged, as extended reals. */
  function Finite4(t: Tensor4, a: nat, b: nat, c: nat, d: nat): (u: seq<seq<seq<seq<Ext>>>>)
    requires Shape4(t, a, b, c, d)
    ensures Shape4(u, a, b, c, d)
    ensures forall i, j, k, l :: 0 <= i < a && 0 <= j < b && 0 <= k < c && 0 <= l < d ==>
      u[i][j][k][l] == Fin(t[i][j][k][l])
  {
    seq(a, i requires 0 <= i < a =>
      seq(b, j requires 0 <= j < b =>
        seq(c, k requires 0 <= k < c =>
          seq(d, l requires 0 <= l < d => Fin(t[i][j][k][l])))))
  }

  /** Softmax along the last axis. */
  function Softmax4(exp: real -> real, t: seq<seq<seq<seq<Ext>>>>, a: nat, b: nat, c: nat, d: nat)
    : (p: Tensor4)
    requires Shape4(t, a, b, c, d)
    ensures Shape4(p, a, b, c, d)
    ensures forall i, j, k :: 0 <= i < a && 0 <= j < b && 0 <= k < c ==>
      p[i][j][k] == Softmax(exp, t[i][j][k])
  {
    seq(a, i requires 0 <= i < a =>
      seq(b, j requires 0 <= j < b =>
        seq(c, k requires 0 <= k < c => Softmax(exp, t[i][j][k]))))
  }

  /** Batched `p @ v` for `p` of shape `[a, b, c, S]` and `v` of shape `[a, b, S, d]`. */
  function MatMul4(p: Tensor4, v: Tensor4, a: nat, b: nat, c: nat, s: nat, d: nat): (o: Tensor4)
    requires Shape4(p, a, b, c, s) && Shape4(v, a, b, s, d)
    ensures Shape4(o, a, b, c, d)
    ensures forall i, j, k :: 0 <= i < a && 0 <= j < b && 0 <= k < c ==>
      o[i][j][k] == Combine(p[i][j][k], v[i][j], d)
  {
    seq(a, i requires 0 <= i < a =>
      seq(b, j requires 0 <= j < b =>
        MatMul(p[i][j], v[i][j], d)))
  }
}
