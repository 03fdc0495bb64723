/**
 * Index bookkeeping for gather and scatter along the sequence axis: a list of row
 * positions, the writes `target[idx[r]] = rows[r]` performed one after another, and
 * the counting facts that tell when a list of distinct positions covers every row.
 */
module Scatter {
  import opened Tensors

  /** No position is listed twice. */
  predicate Distinct(idx: seq<nat>)
  {
    forall i, j :: 0 <= i < j < |idx| ==> idx[i] != idx[j]
  }

  /** Every position lies in `[0, n)`. */
  predicate InRange(idx: seq<nat>, n: nat)
  {
    forall k :: 0 <= k < |idx| ==> idx[k] < n
  }

  /**
   * The rows `rows[0], rows[1], ...` written in turn at positions `idx[0], idx[1], ...`
   * of `s` (the effect of `target[idx, :] = rows`).
   */
  function Overwrite<X>(s: seq<X>, idx: seq<nat>, rows: seq<X>): (t: seq<X>)
    requires |idx| == |rows| && InRange(idx, |s|)
    ensures |t| == |s|
  {
    if |idx| == 0 then s
    else Overwrite(s, idx[..|idx| - 1], rows[..|rows| - 1])[idx[|idx| - 1] := rows[|rows| - 1]]
  }

  /** A position that is not listed keeps its old row. */
  lemma {:induction false} OverwriteKeeps<X>(s: seq<X>, idx: seq<nat>, rows: seq<X>, q: nat)
    requires |idx| == |rows| && InRange(idx, |s|)
    requires q < |s| && q !in idx
    ensures Overwrite(s, idx, rows)[q] == s[q]
  {
    if |idx| > 0 {
      var n := |idx|;
      var pre := idx[..n - 1];
      assert q !in pre by {
        forall k | 0 <= k < n - 1 ensures pre[k] != q { assert idx[k] == pre[k]; }
      }
      OverwriteKeeps(s, pre, rows[..n - 1], q);
      assert idx[n - 1] != q;
    }
  }

  /** With distinct positions, the row written at `idx[r]` is `rows[r]`. */
  lemma {:induction false} OverwriteWrites<X>(s: seq<X>, idx: seq<nat>, rows: seq<X>, r: nat)
    requires |idx| == |rows| && InRange(idx, |s|)
    requires Distinct(idx) && r < |idx|
    ensures Overwrite(s, idx, rows)[idx[r]] == rows[r]
  {
    var n := |idx|;
    if r < n - 1 {
      var pre := idx[..n - 1];
      assert Distinct(pre);
      assert idx[n - 1] != idx[r];
      assert pre[r] == idx[r];
      OverwriteWrites(s, pre, rows[..n - 1], r);
    }
  }

  /** Rows of one width stay rows of that width. */
  lemma {:induction false} OverwriteWidths<X>(s: seq<seq<X>>, idx: seq<nat>, rows: seq<seq<X>>, d: nat)
    requires |idx| == |rows| && InRange(idx, |s|)
    requires forall i :: 0 <= i < |s| ==> |s[i]| == d
    requires forall r :: 0 <= r < |rows| ==> |rows[r]| == d
    ensures forall q :: 0 <= q < |s| ==> |Overwrite(s, idx, rows)[q]| == d
  {
    if |idx| > 0 {
      OverwriteWidths(s, idx[..|idx| - 1], rows[..|rows| - 1], d);
    }
  }

  // ---------------------------------------------------------------------------
  // Counting

  /** The set of positions a list of positions names. */
  function Elements(idx: seq<nat>): (e: set<nat>)
  {
    set k | 0 <= k < |idx| :: idx[k]
  }

  /** The positions `0 .. n-1`. */
  function Below(n: nat): (all: set<nat>)
    ensures forall q: nat :: q in all <==> q < n
  {
    if n == 0 then {} else Below(n - 1) + {n - 1}
  }

  lemma {:induction false} BelowSize(n: nat)
    ensures |Below(n)| == n
  {
    if n > 0 {
      BelowSize(n - 1);
      assert n - 1 !in Below(n - 1);
    }
  }

  lemma {:induction false} ElementsSize(idx: seq<nat>)
    requires Distinct(idx)
    ensures |Elements(idx)| == |idx|
  {
    var n := |idx|;
    if n > 0 {
      var pre := idx[..n - 1];
      assert Distinct(pre);
      ElementsSize(pre);
      assert Elements(idx) == Elements(pre) + {idx[n - 1]} by {
        forall x | x in Elements(idx) ensures x in Elements(pre) + {idx[n - 1]} {
          var k :| 0 <= k < n && idx[k] == x;
          if k < n - 1 { assert pre[k] == x; }
        }
        forall x | x in Elements(pre) ensures x in Elements(idx) {
          var k :| 0 <= k < n - 1 && pre[k] == x;
          assert idx[k] == x;
        }
      }
      forall k | 0 <= k < n - 1 ensures pre[k] != idx[n - 1] { assert pre[k] == idx[k]; }
      assert idx[n - 1] !in Elements(pre);
    }
  }

  /**
   * Distinct positions in `[0, n)` number at most `n`; fewer than `n` of them miss some
   * position, and exactly `n` of them list every position.
   */
  lemma Pigeonhole(idx: seq<nat>, n: nat)
    requires Distinct(idx) && InRange(idx, n)
    ensures |idx| <= n
    ensures |idx| < n ==> exists q :: 0 <= q < n && q !in idx
    ensures |idx| == n ==> forall q :: 0 <= q < n ==> q in idx
  {
    var e := Elements(idx);
    var all := Below(n);
    ElementsSize(idx);
    BelowSize(n);
    assert e <= all;
    assert |e| <= |all| by {
      assert all == e + (all - e);
      assert |all| == |e| + |all - e|;
    }
    if |idx| < n {
      assert all - e != {};
      var q :| q in all - e;
      assert q !in idx;
    }
    if |idx| == n {
      forall q | 0 <= q < n ensures q in idx {
        assert |all - e| == 0 by {
          assert all == e + (all - e);
          assert |all| == |e| + |all - e|;
        }
        assert all - e == {};
        assert q in all;
        assert q in e;
        var k :| 0 <= k < |idx| && idx[k] == q;
      }
    }
  }

  // ---------------------------------------------------------------------------
  // Scatter of rows into a `[B, H, L, _]` tensor, per batch and head

  /**
   * `index` and `rows` fit the blocks of `c`: for each batch `b` and head `h`, as many
   * rows as positions, and every position a row of `c[b][h]`.
   */
  predicate Scatterable<X>(c: seq<seq<seq<X>>>, index: seq<seq<seq<nat>>>, rows: seq<seq<seq<X>>>)
  {
    |index| == |c| && |rows| == |c| &&
    forall b :: 0 <= b < |c| ==>
      |index[b]| == |c[b]| && |rows[b]| == |c[b]| &&
      forall h :: 0 <= h < |c[b]| ==>
        |index[b][h]| == |rows[b][h]| && InRange(index[b][h], |c[b][h]|)
  }

  /**
   * `c[arange(B)[:, None, None], arange(H)[None, :, None], index, :] = rows`: each
   * batch and head writes its own rows at its own positions.
   */
  function ScatterAll<X>(c: seq<seq<seq<X>>>, index: seq<seq<seq<nat>>>, rows: seq<seq<seq<X>>>)
    : (t: seq<seq<seq<X>>>)
    requires Scatterable(c, index, rows)
    ensures |t| == |c|
    ensures forall b :: 0 <= b < |c| ==> (|t[b]| == |c[b]| &&
      forall h :: 0 <= h < |c[b]| ==> t[b][h] == Overwrite(c[b][h], index[b][h], rows[b][h]))
  {
    seq(|c|, b requires 0 <= b < |c| =>
      seq(|c[b]|, h requires 0 <= h < |c[b]| => Overwrite(c[b][h], index[b][h], rows[b][h])))
  }

  /**
   * After the scatter, a row of batch `b`, head `h` holds the row written for it when
   * its position is among that pair's selected positions, and its old value otherwise.
   */
  lemma ScatterAllRows<X>(c: seq<seq<seq<X>>>, index: seq<seq<seq<nat>>>, rows: seq<seq<seq<X>>>,
                          b: nat, h: nat, q: nat)
    requires Scatterable(c, index, rows)
    requires b < |c| && h < |c[b]| && q < |c[b][h]| && Distinct(index[b][h])
    ensures q !in index[b][h] ==> ScatterAll(c, index, rows)[b][h][q] == c[b][h][q]
    ensures forall r :: 0 <= r < |index[b][h]| && index[b][h][r] == q ==>
      ScatterAll(c, index, rows)[b][h][q] == rows[b][h][r]
  {
    if q !in index[b][h] {
      OverwriteKeeps(c[b][h], index[b][h], rows[b][h], q);
    }
    forall r | 0 <= r < |index[b][h]| && index[b][h][r] == q
      ensures ScatterAll(c, index, rows)[b][h][q] == rows[b][h][r]
    {
      OverwriteWrites(c[b][h], index[b][h], rows[b][h], r);
    }
  }

  /** Scattering rows of width `d` into a `[B, H, L, d]` tensor keeps its shape. */
  lemma ScatterAllShape<X>(c: seq<seq<seq<seq<X>>>>, index: seq<seq<seq<nat>>>, rows: seq<seq<seq<seq<X>>>>,
                           B: nat, H: nat, L: nat, n: nat, d: nat)
    requires Scatterable(c, index, rows) && Shape4(c, B, H, L, d) && Shape4(rows, B, H, n, d)
    ensures Shape4(ScatterAll(c, index, rows), B, H, L, d)
  {
    forall b, h | 0 <= b < B && 0 <= h < H
      ensures forall q :: 0 <= q < L ==> |ScatterAll(c, index, rows)[b][h][q]| == d
    {
      OverwriteWidths(c[b][h], index[b][h], rows[b][h], d);
    }
  }
}
