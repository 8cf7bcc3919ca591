/**
 * `matrix_resize`, the block-replication upsampler both iterations of
 * `raw_data_visualization.py` share: a zero grid `factor` times larger in
 * each dimension is filled, source cell by source cell, with
 * `factor x factor` blocks holding that cell's value.
 */
module Upsampler {

  /**
   * Tiling of one axis: output index `r` lies in the block written for
   * source index `i` exactly when `r / factor == i`. So the blocks of
   * distinct source indices are disjoint, and every output index lies in
   * the block of `r / factor`.
   */
  lemma BlockIndex(r: int, i: int, factor: int)
    requires factor >= 1 && 0 <= i && 0 <= r
    ensures i * factor <= r < (i + 1) * factor <==> r / factor == i
  {
    var q := r / factor;
    assert q * factor <= r < (q + 1) * factor;
    if i < q {
      assert (i + 1) * factor <= q * factor;
    } else if q < i {
      assert (q + 1) * factor <= i * factor;
    }
  }

  /** Output index `r` lies in the block of source index `r / factor` and in no other. */
  lemma BlocksTile(r: int, factor: int)
    requires factor >= 1 && 0 <= r
    ensures forall i :: 0 <= i ==> (i * factor <= r < (i + 1) * factor <==> i == r / factor)
  {
    forall i | 0 <= i ensures i * factor <= r < (i + 1) * factor <==> i == r / factor {
      BlockIndex(r, i, factor);
    }
  }

  lemma MulLe(a: int, b: int, factor: int)
    requires 0 <= factor && a <= b
    ensures a * factor <= b * factor
  {
  }

  /**
   * The slice assignment `result[top:top+factor, left:left+factor] = v`:
   * the block takes `v` and every cell outside it keeps its value.
   */
  method FillBlock(result: array2<int>, top: nat, left: nat, factor: nat, v: int)
    requires top + factor <= result.Length0 && left + factor <= result.Length1
    modifies result
    ensures forall r, c :: 0 <= r < result.Length0 && 0 <= c < result.Length1 ==>
              result[r, c] == if top <= r < top + factor && left <= c < left + factor then v else old(result[r, c])
  {
    forall r, c | top <= r < top + factor && left <= c < left + factor {
      result[r, c] := v;
    }
  }

  /** Output cell `(r, c)` holds the value of the source cell whose block contains it. */
  ghost predicate Replicates(result: array2<int>, data: array2<int>, factor: nat, r: int, c: int)
    reads result, data
  {
    && factor >= 1 && 0 <= r < result.Length0 && 0 <= c < result.Length1
    && r / factor < data.Length0 && c / factor < data.Length1
    && result[r, c] == data[r / factor, c / factor]
  }

  /**
   * One pass of the outer loop: the blocks of source row `i` are written
   * by the inner loop over the columns, so the rows replicated so far
   * grow from `i * factor` to `(i + 1) * factor`, and the rows below
   * them are not written.
   */
  method FillBand(result: array2<int>, data: array2<int>, i: nat, factor: nat)
    requires result != data && i < data.Length0
    requires result.Length0 == data.Length0 * factor && result.Length1 == data.Length1 * factor
    requires forall r, c :: 0 <= r < i * factor && 0 <= c < result.Length1 ==> Replicates(result, data, factor, r, c)
    modifies result
    ensures forall r, c :: 0 <= r < (i + 1) * factor && 0 <= c < result.Length1 ==> Replicates(result, data, factor, r, c)
    ensures forall r, c :: (i + 1) * factor <= r < result.Length0 && 0 <= c < result.Length1 ==>
              result[r, c] == old(result[r, c])
  {
    var cols := data.Length1;
    var top := i * factor;
    MulLe(i + 1, data.Length0, factor);
    for j := 0 to cols
      invariant forall r, c :: top <= r < top + factor && 0 <= c < j * factor ==>
                  Replicates(result, data, factor, r, c)
      invariant forall r, c :: 0 <= r < top && 0 <= c < result.Length1 ==>
                  Replicates(result, data, factor, r, c)
      invariant forall r, c :: top + factor <= r < result.Length0 && 0 <= c < result.Length1 ==>
                  result[r, c] == old(result[r, c])
    {
      MulLe(j + 1, cols, factor);
      label before:
      FillBlock(result, top, j * factor, factor, data[i, j]);
      forall r, c | 0 <= r < top + factor && 0 <= c < result.Length1 && (r < top || c < (j + 1) * factor)
        ensures Replicates(result, data, factor, r, c)
      {
        if r < top || c < j * factor {
          assert old@before(Replicates(result, data, factor, r, c));
        } else {
          BlockIndex(r, i, factor);
          BlockIndex(c, j, factor);
        }
      }
    }
  }

  /**
   * `matrix_resize(data_in, factor)`: the result has each dimension of the
   * input multiplied by `factor`, and every output cell holds the value of
   * the source cell whose block contains it, so no zero of the initial
   * grid survives unless the source cell is zero. A factor of 0 gives an
   * empty grid. The input is not written.
   */
  method MatrixResize(data: array2<int>, factor: nat) returns (result: array2<int>)
    ensures fresh(result)
    ensures result.Length0 == data.Length0 * factor && result.Length1 == data.Length1 * factor
    ensures forall r, c :: 0 <= r < result.Length0 && 0 <= c < result.Length1 ==>
              result[r, c] == data[r / factor, c / factor]
  {
    var rows, cols := data.Length0, data.Length1;
    result := new int[rows * factor, cols * factor]((_, _) => 0);
    for i := 0 to rows
      invariant forall r, c :: 0 <= r < i * factor && 0 <= c < result.Length1 ==>
                  Replicates(result, data, factor, r, c)
    {
      FillBand(result, data, i, factor);
    }
    forall r, c | 0 <= r < result.Length0 && 0 <= c < result.Length1
      ensures result[r, c] == data[r / factor, c / factor]
    {
      assert Replicates(result, data, factor, r, c);
    }
  }

  /** The upsampler on a 2x2 checkerboard with factor 2: each cell becomes a 2x2 block. */
  method ResizeCheckerboard() returns (grid: array2<int>)
    ensures grid.Length0 == 4 && grid.Length1 == 4
    ensures forall r, c :: 0 <= r < 4 && 0 <= c < 4 ==> grid[r, c] == if (r < 2) == (c < 2) then 0 else 1
  {
    var board := new int[2, 2]((r, c) => if r == c then 0 else 1);
    grid := MatrixResize(board, 2);
  }
}
