/** Real-valued stand-ins for the tensors of the original program: vectors,
    matrices (rows of equal width) and rank-three tensors with an explicit
    shape, together with the reductions the program applies to them
    (sum, mean, mean over the leading axis) and the swap of the last two axes
    that `permute(0, 2, 1)` performs. */
module Tensors {

  /* ----------------------------------------------------------------------- */
  /* Vectors                                                                  */
  /* ----------------------------------------------------------------------- */

  /** Sum of a vector, accumulated from index 0 upwards. */
  function Sum(s: seq<real>): real
  {
    if |s| == 0 then 0.0 else Sum(s[..|s| - 1]) + s[|s| - 1]
  }

  /** Arithmetic mean of a non-empty vector (`torch.mean` of a 1-d tensor). */
  function Mean(s: seq<real>): real
    requires |s| > 0
  {
    Sum(s) / |s| as real
  }

  /** Element-wise sum of two vectors of equal length. */
  function Add(a: seq<real>, b: seq<real>): (r: seq<real>)
    requires |a| == |b|
    ensures |r| == |a|
  {
    seq(|a|, i requires 0 <= i < |a| => a[i] + b[i])
  }

  /** Every element multiplied by `k`. */
  function Scale(k: real, a: seq<real>): (r: seq<real>)
    ensures |r| == |a|
  {
    seq(|a|, i requires 0 <= i < |a| => k * a[i])
  }

  /** A vector of `n` copies of `c`. */
  function Constant(n: nat, c: real): (r: seq<real>)
    ensures |r| == n
  {
    seq(n, i => c)
  }

  lemma {:induction false} SumAppend(s: seq<real>, x: real)
    ensures Sum(s + [x]) == Sum(s) + x
  {
    assert (s + [x])[..|s|] == s;
  }

  lemma SumSingleton(x: real)
    ensures Sum([x]) == x
  {
    assert [x][..0] == [];
  }

  /** Summing `n` copies of `c` gives `n * c`. */
  lemma {:induction false} SumConstant(s: seq<real>, c: real)
    requires forall i :: 0 <= i < |s| ==> s[i] == c
    ensures Sum(s) == |s| as real * c
  {
    if |s| > 0 {
      SumConstant(s[..|s| - 1], c);
    }
  }

  /** The sum distributes over element-wise addition. */
  lemma {:induction false} SumAdd(a: seq<real>, b: seq<real>)
    requires |a| == |b|
    ensures Sum(Add(a, b)) == Sum(a) + Sum(b)
  {
    if |a| > 0 {
      var n := |a|;
      assert Add(a, b)[..n - 1] == Add(a[..n - 1], b[..n - 1]);
      SumAdd(a[..n - 1], b[..n - 1]);
    }
  }

  /** A constant factor can be taken out of a sum. */
  lemma {:induction false} SumScale(k: real, a: seq<real>)
    ensures Sum(Scale(k, a)) == k * Sum(a)
  {
    if |a| > 0 {
      var n := |a|;
      forall i | 0 <= i < n - 1
        ensures Scale(k, a)[i] == Scale(k, a[..n - 1])[i]
      {
        assert a[..n - 1][i] == a[i];
      }
      assert Scale(k, a)[..n - 1] == Scale(k, a[..n - 1]);
      SumScale(k, a[..n - 1]);
    }
  }

  /** A sum of non-positive terms is non-positive. */
  lemma {:induction false} SumNonPositive(s: seq<real>)
    requires forall i :: 0 <= i < |s| ==> s[i] <= 0.0
    ensures Sum(s) <= 0.0
  {
    if |s| > 0 {
      SumNonPositive(s[..|s| - 1]);
    }
  }

  /** A sum of non-negative terms is non-negative. */
  lemma {:induction false} SumNonNegative(s: seq<real>)
    requires forall i :: 0 <= i < |s| ==> s[i] >= 0.0
    ensures Sum(s) >= 0.0
  {
    if |s| > 0 {
      SumNonNegative(s[..|s| - 1]);
    }
  }

  lemma QuotientNonNegative(x: real, n: real)
    requires x >= 0.0 && n > 0.0
    ensures x / n >= 0.0
  {
  }

  lemma QuotientOfMultiple(x: real, n: real, c: real)
    requires n > 0.0 && x == n * c
    ensures x / n == c
  {
  }

  /** The mean of non-negative values is non-negative. */
  lemma MeanNonNegative(s: seq<real>)
    requires |s| > 0
    requires forall i :: 0 <= i < |s| ==> s[i] >= 0.0
    ensures Mean(s) >= 0.0
  {
    SumNonNegative(s);
    QuotientNonNegative(Sum(s), |s| as real);
  }

  /** The mean of a constant vector is the constant. */
  lemma MeanOfConstant(s: seq<real>, c: real)
    requires |s| > 0
    requires forall i :: 0 <= i < |s| ==> s[i] == c
    ensures Mean(s) == c
  {
    SumConstant(s, c);
    QuotientOfMultiple(Sum(s), |s| as real, c);
  }

  /* ----------------------------------------------------------------------- */
  /* Matrices: a sequence of rows of width `cols`                             */
  /* ----------------------------------------------------------------------- */

  predicate IsMatrix(m: seq<seq<real>>, cols: nat)
  {
    forall i :: 0 <= i < |m| ==> |m[i]| == cols
  }

  /** Column `j` of a matrix: the values of every row at position `j`. */
  function Column(m: seq<seq<real>>, cols: nat, j: nat): (r: seq<real>)
    requires IsMatrix(m, cols) && j < cols
    ensures |r| == |m|
  {
    seq(|m|, i requires 0 <= i < |m| => m[i][j])
  }

  function RowSums(m: seq<seq<real>>): (r: seq<real>)
    ensures |r| == |m|
  {
    seq(|m|, i requires 0 <= i < |m| => Sum(m[i]))
  }

  function ColumnSums(m: seq<seq<real>>, cols: nat): (r: seq<real>)
    requires IsMatrix(m, cols)
    ensures |r| == cols
  {
    seq(cols, j requires 0 <= j < cols => Sum(Column(m, cols, j)))
  }

  /** `torch.mean(m, 0)`: the mean over the leading axis, one value per column. */
  function ColumnMean(m: seq<seq<real>>, cols: nat): (r: seq<real>)
    requires IsMatrix(m, cols) && |m| > 0
    ensures |r| == cols
  {
    seq(cols, j requires 0 <= j < cols => Sum(Column(m, cols, j)) / |m| as real)
  }

  /** Adding all entries row by row or column by column gives the same total. */
  lemma {:induction false} SumInterchange(m: seq<seq<real>>, cols: nat)
    requires IsMatrix(m, cols)
    ensures Sum(RowSums(m)) == Sum(ColumnSums(m, cols))
  {
    if |m| == 0 {
      SumConstant(ColumnSums(m, cols), 0.0);
    } else {
      var n := |m|;
      var front := m[..n - 1];
      var last := m[n - 1];
      assert RowSums(m)[..n - 1] == RowSums(front);
      forall j | 0 <= j < cols
        ensures ColumnSums(m, cols)[j] == Add(ColumnSums(front, cols), last)[j]
      {
        assert Column(m, cols, j)[..n - 1] == Column(front, cols, j);
      }
      assert ColumnSums(m, cols) == Add(ColumnSums(front, cols), last);
      SumAdd(ColumnSums(front, cols), last);
      SumInterchange(front, cols);
    }
  }

  lemma DivideAsScale(x: real, n: real)
    requires n > 0.0
    ensures x / n == (1.0 / n) * x
  {
  }

  /** The mean over the leading axis is the column sums scaled by one over
      the number of rows. */
  lemma ColumnMeanIsScaledSums(m: seq<seq<real>>, cols: nat)
    requires IsMatrix(m, cols) && |m| > 0
    ensures ColumnMean(m, cols) == Scale(1.0 / |m| as real, ColumnSums(m, cols))
  {
    forall j | 0 <= j < cols
      ensures ColumnMean(m, cols)[j] == Scale(1.0 / |m| as real, ColumnSums(m, cols))[j]
    {
      DivideAsScale(Sum(Column(m, cols, j)), |m| as real);
    }
  }

  /** Adding up the column means gives the mean of the row totals. */
  lemma ColumnMeanTotal(m: seq<seq<real>>, cols: nat)
    requires IsMatrix(m, cols) && |m| > 0
    ensures Sum(ColumnMean(m, cols)) == Mean(RowSums(m))
  {
    ColumnMeanIsScaledSums(m, cols);
    SumInterchange(m, cols);
    ScaledTotal(ColumnMean(m, cols), ColumnSums(m, cols), 1.0 / |m| as real, Sum(RowSums(m)));
    MeanAsScale(RowSums(m));
  }

  /** Scaling a vector scales its total. */
  lemma ScaledTotal(a: seq<real>, b: seq<real>, k: real, total: real)
    requires a == Scale(k, b) && Sum(b) == total
    ensures Sum(a) == k * total
  {
    SumScale(k, b);
  }

  /** A mean is the total scaled by one over the length. */
  lemma MeanAsScale(s: seq<real>)
    requires |s| > 0
    ensures Mean(s) == (1.0 / |s| as real) * Sum(s)
  {
    DivideAsScale(Sum(s), |s| as real);
  }

  /** The mean over the leading axis of non-negative entries is non-negative in
      every column. */
  lemma ColumnMeanNonNegative(m: seq<seq<real>>, cols: nat)
    requires IsMatrix(m, cols) && |m| > 0
    requires forall i, j :: 0 <= i < |m| && 0 <= j < cols ==> m[i][j] >= 0.0
    ensures forall j :: 0 <= j < cols ==> ColumnMean(m, cols)[j] >= 0.0
  {
    forall j | 0 <= j < cols
      ensures ColumnMean(m, cols)[j] >= 0.0
    {
      var c := Column(m, cols, j);
      SumNonNegative(c);
      QuotientNonNegative(Sum(c), |m| as real);
    }
  }

  /** Averaging identical rows gives that row back. */
  lemma ColumnMeanOfCopies(m: seq<seq<real>>, v: seq<real>)
    requires |m| > 0 && IsMatrix(m, |v|)
    requires forall i :: 0 <= i < |m| ==> m[i] == v
    ensures ColumnMean(m, |v|) == v
  {
    forall j | 0 <= j < |v|
      ensures ColumnMean(m, |v|)[j] == v[j]
    {
      var c := Column(m, |v|, j);
      SumConstant(c, v[j]);
      QuotientOfMultiple(Sum(c), |m| as real, v[j]);
    }
  }

  /* ----------------------------------------------------------------------- */
  /* Rank-three tensors                                                       */
  /* ----------------------------------------------------------------------- */

  datatype Shape = Shape(batch: nat, rows: nat, cols: nat)

  /** `data[b][i][j]` for `b < batch`, `i < rows`, `j < cols`. The extents are
      kept beside the data so that a tensor with an empty axis keeps its shape,
      as a tensor of the original program does. */
  datatype Tensor = Tensor(shape: Shape, data: seq<seq<seq<real>>>) {
    predicate Valid()
    {
      && |data| == shape.batch
      && (forall b :: 0 <= b < |data| ==> |data[b]| == shape.rows)
      && (forall b, i :: 0 <= b < |data| && 0 <= i < |data[b]| ==> |data[b][i]| == shape.cols)
    }
  }

  type Tensor3 = t: Tensor | t.Valid() witness Tensor(Shape(0, 0, 0), [])

  /** The tensor of the given shape whose every entry is `c`. */
  function Filled(s: Shape, c: real): (t: Tensor3)
    ensures t.shape == s
    ensures forall b, i, j :: 0 <= b < s.batch && 0 <= i < s.rows && 0 <= j < s.cols ==> t.data[b][i][j] == c
  {
    Tensor(s, seq(s.batch, b => seq(s.rows, i => Constant(s.cols, c))))
  }

  /** `t.permute(0, 2, 1)`: the last two axes exchanged, the batch axis kept. */
  function SwapLastAxes(t: Tensor3): (r: Tensor3)
    ensures r.shape == Shape(t.shape.batch, t.shape.cols, t.shape.rows)
    ensures forall b, i, j :: 0 <= b < t.shape.batch && 0 <= i < t.shape.cols && 0 <= j < t.shape.rows ==>
              r.data[b][i][j] == t.data[b][j][i]
  {
    var s := t.shape;
    Tensor(Shape(s.batch, s.cols, s.rows),
           seq(s.batch, b requires 0 <= b < s.batch =>
             seq(s.cols, i requires 0 <= i < s.cols =>
               seq(s.rows, j requires 0 <= j < s.rows => t.data[b][j][i]))))
  }

  /** Swapping the last two axes twice restores the tensor. */
  lemma SwapLastAxesInvolution(t: Tensor3)
    ensures SwapLastAxes(SwapLastAxes(t)) == t
  {
    var r := SwapLastAxes(SwapLastAxes(t));
    forall b | 0 <= b < t.shape.batch
      ensures r.data[b] == t.data[b]
    {
      forall i | 0 <= i < t.shape.rows
        ensures r.data[b][i] == t.data[b][i]
      {
      }
    }
  }

  /** A constant tensor transposes to the constant tensor of the swapped shape. */
  lemma SwapLastAxesFilled(s: Shape, c: real)
    ensures SwapLastAxes(Filled(s, c)) == Filled(Shape(s.batch, s.cols, s.rows), c)
  {
    var r := SwapLastAxes(Filled(s, c));
    var f := Filled(Shape(s.batch, s.cols, s.rows), c);
    forall b | 0 <= b < s.batch
      ensures r.data[b] == f.data[b]
    {
      forall i | 0 <= i < s.cols
        ensures r.data[b][i] == f.data[b][i]
      {
      }
    }
  }

  /** Every row multiplied by `k`. */
  function ScaleRows(k: real, m: seq<seq<real>>): (r: seq<seq<real>>)
    ensures |r| == |m|
    ensures forall i :: 0 <= i < |m| ==> |r[i]| == |m[i]|
  {
    seq(|m|, i requires 0 <= i < |m| => Scale(k, m[i]))
  }
}
