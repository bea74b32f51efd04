/** The dense slice-membership matrix and base-slice normalisation. */
module BaseSlice {
  import opened SliceNames

  /** An examples × slices matrix. The width is kept explicitly, so that a matrix
      with no rows still has a number of columns, as a 2-D array does. */
  datatype Matrix = Matrix(cols: nat, rows: seq<seq<int>>) {
    predicate WellFormed() {
      forall e :: 0 <= e < |rows| ==> |rows[e]| == cols
    }

    /** Every entry is a membership value, 0 or 1. */
    predicate ZeroOne() {
      forall e, i :: 0 <= e < |rows| && 0 <= i < |rows[e]| ==> rows[e][i] == 0 || rows[e][i] == 1
    }
  }

  /** The matrix with one more column, filled with ones, on the right. */
  function AppendOnesColumn(m: Matrix): Matrix
    requires m.WellFormed()
  {
    Matrix(m.cols + 1, seq(|m.rows|, e requires 0 <= e < |m.rows| => m.rows[e] + [1]))
  }

  /** Adds the base slice, an all-ones column named "base", unless a column of that
      name is already there. The width and the name count change by the same amount,
      so their difference, which the caller checks, is neither padded nor truncated. */
  function AddBaseSlice(m: Matrix, names: seq<string>): (r: (Matrix, seq<string>))
    requires m.WellFormed()
    ensures r.1 == WithBase(names)
    ensures r.0.WellFormed() && |r.0.rows| == |m.rows|
    ensures m.ZeroOne() ==> r.0.ZeroOne()
    ensures BaseName in names ==> r.0 == m && r.1 == names
    ensures BaseName !in names ==>
              && r.0.cols == m.cols + 1
              && r.1 == names + [BaseName]
              && forall e :: 0 <= e < |m.rows| ==> r.0.rows[e][..m.cols] == m.rows[e] && r.0.rows[e][m.cols] == 1
    ensures r.0.cols == |r.1| <==> m.cols == |names|
  {
    if BaseName in names then (m, names) else (AppendOnesColumn(m), WithBase(names))
  }
}
