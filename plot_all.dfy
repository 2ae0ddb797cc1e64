/** column_average from the plotting module: the row-wise mean of a data frame
    across its columns, accumulated column by column. */
module PlotAll {
  import opened Common

  /** A data frame read by position (iloc[:, c]): a list of columns, all of
      the same length. */
  predicate IsFrame(columns: seq<seq<real>>)
  {
    forall c :: 0 <= c < |columns| ==> |columns[c]| == |columns[0]|
  }

  /** Entry i summed over the first k columns, in column order. */
  function RowSum(columns: seq<seq<real>>, k: nat, i: nat): real
    requires IsFrame(columns) && k <= |columns| && (k > 0 ==> i < |columns[0]|)
  {
    if k == 0 then 0.0 else RowSum(columns, k - 1, i) + columns[k - 1][i]
  }

  /** The mean of row i across all columns. */
  function RowMean(columns: seq<seq<real>>, i: nat): real
    requires IsFrame(columns) && |columns| > 0 && i < |columns[0]|
  {
    RowSum(columns, |columns|, i) / (|columns| as real)
  }

  /** col_sum: the integer 0 it starts as, or the array it becomes once the
      first column has been added (0 + array broadcasts to the array). */
  datatype Accumulator = Zero | Vector(v: seq<real>)

  /** col_sum += column: element-wise addition, with the scalar 0 broadcast
      to every row. */
  function AddColumn(acc: Accumulator, column: seq<real>): (r: Accumulator)
    requires acc.Vector? ==> |acc.v| == |column|
    ensures r.Vector? && |r.v| == |column|
    ensures forall i :: 0 <= i < |column| ==>
      r.v[i] == (if acc.Vector? then acc.v[i] else 0.0) + column[i]
  {
    match acc
    case Zero => Vector(column)
    case Vector(v) => Vector(seq(|v|, i requires 0 <= i < |v| => v[i] + column[i]))
  }

  /** column_average: one entry per row, the row's sum over all columns
      divided by the number of columns; with no columns col_sum is still the
      integer 0 and 0 / 0 raises. The frame is only read. */
  method ColumnAverage(columns: seq<seq<real>>) returns (r: Result<seq<real>>)
    requires IsFrame(columns)
    ensures |columns| == 0 ==> r == Failure(ZeroDivision)
    ensures |columns| > 0 ==>
      && r.Success?
      && |r.value| == |columns[0]|
      && forall i :: 0 <= i < |r.value| ==> r.value[i] == RowMean(columns, i)
  {
    var colSum: Accumulator := Zero;
    var numCols := |columns|;
    for column := 0 to numCols
      invariant column == 0 ==> colSum == Zero
      invariant column > 0 ==> colSum.Vector? && |colSum.v| == |columns[0]|
      invariant column > 0 ==> forall i :: 0 <= i < |colSum.v| ==> colSum.v[i] == RowSum(columns, column, i)
    {
      colSum := AddColumn(colSum, columns[column]);
    }
    match colSum
    case Zero =>
      r := Failure(ZeroDivision);
    case Vector(v) =>
      r := Success(seq(|v|, i requires 0 <= i < |v| => v[i] / (numCols as real)));
  }

  /** With a single column the average is that column. */
  lemma SingleColumnMean(columns: seq<seq<real>>, i: nat)
    requires IsFrame(columns) && |columns| == 1 && i < |columns[0]|
    ensures RowMean(columns, i) == columns[0][i]
  {
    assert RowSum(columns, 1, i) == RowSum(columns, 0, i) + columns[0][i];
  }

  lemma {:induction false} RowSumOfCopies(columns: seq<seq<real>>, column: seq<real>, k: nat, i: nat)
    requires IsFrame(columns) && k <= |columns| && i < |column|
    requires forall c :: 0 <= c < |columns| ==> columns[c] == column
    ensures RowSum(columns, k, i) == (k as real) * column[i]
  {
    if k > 0 {
      RowSumOfCopies(columns, column, k - 1, i);
      assert (k as real) * column[i] == ((k - 1) as real) * column[i] + column[i];
    }
  }

  /** When every column is the same, the average is that column. */
  lemma IdenticalColumnsMean(columns: seq<seq<real>>, column: seq<real>, i: nat)
    requires IsFrame(columns) && |columns| > 0 && i < |column|
    requires forall c :: 0 <= c < |columns| ==> columns[c] == column
    ensures RowMean(columns, i) == column[i]
  {
    RowSumOfCopies(columns, column, |columns|, i);
  }

  lemma {:induction false} RowSumBounds(columns: seq<seq<real>>, k: nat, i: nat, lo: real, hi: real)
    requires IsFrame(columns) && k <= |columns| && (k > 0 ==> i < |columns[0]|)
    requires forall c :: 0 <= c < k ==> lo <= columns[c][i] <= hi
    ensures (k as real) * lo <= RowSum(columns, k, i) <= (k as real) * hi
  {
    if k > 0 {
      RowSumBounds(columns, k - 1, i, lo, hi);
      assert (k as real) * lo == ((k - 1) as real) * lo + lo;
      assert (k as real) * hi == ((k - 1) as real) * hi + hi;
    }
  }

  /** The average of a row lies between any bounds on the row's entries. */
  lemma RowMeanBetweenBounds(columns: seq<seq<real>>, i: nat, lo: real, hi: real)
    requires IsFrame(columns) && |columns| > 0 && i < |columns[0]|
    requires forall c :: 0 <= c < |columns| ==> lo <= columns[c][i] <= hi
    ensures lo <= RowMean(columns, i) <= hi
  {
    var n := |columns| as real;
    RowSumBounds(columns, |columns|, i, lo, hi);
    var s := RowSum(columns, |columns|, i);
    assert n * lo <= s <= n * hi;
    assert s / n * n == s;
  }
}
