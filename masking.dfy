/**
 * The two causal masks of utils/masking.py. A mask entry `true` means "forbidden":
 * query position `i` may not look at key position `j`.
 */
module Masking {
  import opened Tensors
  import opened Scatter

  /** Row `i` of `ones([_, cols]).triu(k)`: true exactly where `j - i >= k`. */
  function TriuRow(cols: nat, i: int, k: int): (row: seq<bool>)
    ensures |row| == cols
  {
    seq(cols, j => j - i >= k)
  }

  /** `ones([rows, cols]).triu(k)` as booleans: the entries on or above diagonal `k`. */
  function Triu(rows: nat, cols: nat, k: int): (m: seq<seq<bool>>)
    ensures IsMat(m, rows, cols)
    ensures forall i :: 0 <= i < rows ==> m[i] == TriuRow(cols, i, k)
  {
    seq(rows, i => TriuRow(cols, i, k))
  }

  /** `TriangularCausalMask(B, L).mask`: a `[B, 1, L, L]` grid, true strictly above the diagonal. */
  function TriangularCausalMask(B: nat, L: nat): (mask: seq<seq<seq<seq<bool>>>>)
    ensures Shape4(mask, B, 1, L, L)
    ensures forall b, i, j :: 0 <= b < B && 0 <= i < L && 0 <= j < L ==>
      (mask[b][0][i][j] <==> j > i)
  {
    seq(B, _ => seq(1, _ => Triu(L, L, 1)))
  }

  /** The number of forbidden positions in a mask row. */
  function CountTrue(row: seq<bool>): (n: nat)
  {
    if |row| == 0 then 0 else CountTrue(row[..|row| - 1]) + (if row[|row| - 1] then 1 else 0)
  }

  lemma {:induction false} TriuRowCount(cols: nat, i: nat)
    requires i < cols
    ensures CountTrue(TriuRow(cols, i, 1)) == cols - 1 - i
  {
    if cols > i + 1 {
      TriuRowCount(cols - 1, i);
      assert TriuRow(cols, i, 1)[..cols - 1] == TriuRow(cols - 1, i, 1);
    } else {
      forall j | 0 <= j <= i ensures !TriuRow(cols, i, 1)[j] { }
      AllFalseCount(TriuRow(cols, i, 1));
    }
  }

  lemma {:induction false} AllFalseCount(row: seq<bool>)
    requires forall j :: 0 <= j < |row| ==> !row[j]
    ensures CountTrue(row) == 0
  {
    if |row| > 0 {
      AllFalseCount(row[..|row| - 1]);
    }
  }

  /**
   * Query `i` of the causal mask is denied exactly the `L - 1 - i` later keys; the
   * keys `0..i`, itself included, stay visible, so no row is fully masked.
   */
  lemma CausalRowCount(B: nat, L: nat, b: nat, i: nat)
    requires b < B && i < L
    ensures CountTrue(TriangularCausalMask(B, L)[b][0][i]) == L - 1 - i
    ensures forall j :: 0 <= j <= i ==> !TriangularCausalMask(B, L)[b][0][i][j]
  {
    TriuRowCount(L, i);
  }

  /** `index` has shape `[B, H, n]` and every entry lies in `[0, L)`. */
  predicate IsSelection(index: seq<seq<seq<nat>>>, B: nat, H: nat, n: nat, L: nat)
  {
    Cube(index, B, H, n) &&
    forall b, h :: 0 <= b < B && 0 <= h < H ==> InRange(index[b][h], L)
  }

  /**
   * `ProbMask(B, H, L, index, scores).mask` for scores of shape `[B, H, n, LK]`: the
   * `[L, LK]` upper-triangular mask, expanded over batch and head, with row
   * `index[b][h][r]` gathered for batch `b`, head `h`, selected query `r`.
   */
  function ProbMask(B: nat, H: nat, L: nat, index: seq<seq<seq<nat>>>, n: nat, LK: nat)
    : (mask: seq<seq<seq<seq<bool>>>>)
    requires IsSelection(index, B, H, n, L)
    ensures Shape4(mask, B, H, n, LK)
    ensures forall b, h, r :: 0 <= b < B && 0 <= h < H && 0 <= r < n ==>
      mask[b][h][r] == Triu(L, LK, 1)[index[b][h][r]]
    ensures forall b, h, r, j :: 0 <= b < B && 0 <= h < H && 0 <= r < n && 0 <= j < LK ==>
      (mask[b][h][r][j] <==> j > index[b][h][r])
  {
    var full := Triu(L, LK, 1);
    var expanded := seq(B, _ => seq(H, _ => full));
    seq(B, b requires 0 <= b < B =>
      seq(H, h requires 0 <= h < H =>
        seq(n, r requires 0 <= r < n => expanded[b][h][index[b][h][r]])))
  }

  /**
   * For self-attention (`L == LK`) the mask row of a selected query is that query's
   * row of the causal mask, so the selected queries see the same keys as under dense
   * causal attention.
   */
  lemma ProbMaskIsCausalRow(B: nat, H: nat, L: nat, index: seq<seq<seq<nat>>>, n: nat,
                            b: nat, h: nat, r: nat)
    requires IsSelection(index, B, H, n, L)
    requires b < B && h < H && r < n
    ensures ProbMask(B, H, L, index, n, L)[b][h][r] == TriangularCausalMask(B, L)[b][0][index[b][h][r]]
  {
  }

  /** A selected query is denied exactly the keys after it; key 0 is always visible. */
  lemma ProbMaskRowCount(B: nat, H: nat, L: nat, index: seq<seq<seq<nat>>>, n: nat, LK: nat,
                         b: nat, h: nat, r: nat)
    requires IsSelection(index, B, H, n, L)
    requires b < B && h < H && r < n && index[b][h][r] < LK
    ensures CountTrue(ProbMask(B, H, L, index, n, LK)[b][h][r]) == LK - 1 - index[b][h][r]
    ensures !ProbMask(B, H, L, index, n, LK)[b][h][r][0]
  {
    TriuRowCount(LK, index[b][h][r]);
  }
}
