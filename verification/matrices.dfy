/** Row-major matrices over exact reals and the products the engine forms with its
    linear-algebra library: a row vector times a matrix, and the quadratic form. */
module Matrices {
  import opened Reals

  type Matrix = seq<seq<real>>

  /** Every row of `d` has `cols` entries. */
  predicate IsRect(d: Matrix, cols: nat)
  {
    forall i | 0 <= i < |d| :: |d[i]| == cols
  }

  /** Column `t` of `d`. */
  function Col(d: Matrix, cols: nat, t: nat): (c: seq<real>)
    requires IsRect(d, cols) && t < cols
    ensures |c| == |d|
  {
    seq(|d|, i requires 0 <= i < |d| => d[i][t])
  }

  /** The row vector `w` times `d`: entry t is the sum over rows i of w[i] * d[i][t]. */
  function VecMat(w: seq<real>, d: Matrix, cols: nat): (r: seq<real>)
    requires |w| == |d| && IsRect(d, cols)
    ensures |r| == cols
  {
    seq(cols, t requires 0 <= t < cols => Dot(w, Col(d, cols, t)))
  }

  /** `d` times the column vector `v`: entry i is the dot product of row i with v. */
  function MatVec(d: Matrix, v: seq<real>): (r: seq<real>)
    requires IsRect(d, |v|)
    ensures |r| == |d|
  {
    seq(|d|, i requires 0 <= i < |d| => Dot(d[i], v))
  }

  /** The quadratic form w' * s * w, multiplied out as (w' * s) * w. */
  function Quad(w: seq<real>, s: Matrix): real
    requires |s| == |w| && IsRect(s, |w|)
  {
    Dot(VecMat(w, s, |w|), w)
  }

  /** The Gram matrix of the rows of `d`: entry (i, j) is the dot product of rows i and j. */
  function Gram(d: Matrix, cols: nat): (g: Matrix)
    requires IsRect(d, cols)
    ensures |g| == |d| && IsRect(g, |d|)
  {
    seq(|d|, i requires 0 <= i < |d| => seq(|d|, j requires 0 <= j < |d| => Dot(d[i], d[j])))
  }

  /** Peeling off the first row: w' * d is w[0] * d[0] plus the rest. */
  lemma {:induction false} VecMatFirstRow(w: seq<real>, d: Matrix, cols: nat)
    requires |w| == |d| > 0 && IsRect(d, cols)
    ensures VecMat(w, d, cols) == Add(Scale(w[0], d[0]), VecMat(w[1..], d[1..], cols))
  {
    forall t | 0 <= t < cols
      ensures VecMat(w, d, cols)[t] == Add(Scale(w[0], d[0]), VecMat(w[1..], d[1..], cols))[t]
    {
      assert Col(d, cols, t)[1..] == Col(d[1..], cols, t);
    }
  }

  /** Associativity of the two products: (w' * d) * v == w' * (d * v).
      Both sides sum w[i] * d[i][t] * v[t] over all rows i and columns t. */
  lemma {:induction false} VecMatDot(w: seq<real>, d: Matrix, v: seq<real>)
    requires |w| == |d| && IsRect(d, |v|)
    ensures Dot(VecMat(w, d, |v|), v) == Dot(w, MatVec(d, v))
  {
    var m := |v|;
    if |w| == 0 {
      assert VecMat(w, d, m) == Const(m, 0.0);
      DotZeroLeft(v);
    } else {
      var w', d' := w[1..], d[1..];
      VecMatFirstRow(w, d, m);
      DotAddLeft(Scale(w[0], d[0]), VecMat(w', d', m), v);
      DotScaleLeft(w[0], d[0], v);
      VecMatDot(w', d', v);
      assert MatVec(d, v)[1..] == MatVec(d', v);
    }
  }

  /** The quadratic form of a Gram matrix is the squared length of w' * d. */
  lemma QuadOfGram(w: seq<real>, d: Matrix, cols: nat)
    requires |w| == |d| && IsRect(d, cols)
    ensures Quad(w, Gram(d, cols)) == Dot(VecMat(w, d, cols), VecMat(w, d, cols))
  {
    var n := |d|;
    var g := Gram(d, cols);
    var u := VecMat(w, d, cols);
    forall j | 0 <= j < n
      ensures VecMat(w, g, n)[j] == MatVec(d, u)[j]
    {
      assert Col(g, n, j) == MatVec(d, d[j]);
      VecMatDot(w, d, d[j]);
      DotCommutes(u, d[j]);
    }
    assert VecMat(w, g, n) == MatVec(d, u);
    DotCommutes(MatVec(d, u), w);
    VecMatDot(w, d, u);
  }

  /** Scaling every entry of the matrix scales the quadratic form. */
  lemma QuadScaled(w: seq<real>, s: Matrix, g: Matrix, k: real)
    requires |s| == |g| == |w| && IsRect(s, |w|) && IsRect(g, |w|)
    requires forall i, j | 0 <= i < |w| && 0 <= j < |w| :: s[i][j] == k * g[i][j]
    ensures Quad(w, s) == k * Quad(w, g)
  {
    var n := |w|;
    forall j | 0 <= j < n
      ensures VecMat(w, s, n)[j] == Scale(k, VecMat(w, g, n))[j]
    {
      forall i | 0 <= i < n
        ensures Col(s, n, j)[i] == Scale(k, Col(g, n, j))[i]
      {
        assert s[i][j] == k * g[i][j];
      }
      assert Col(s, n, j) == Scale(k, Col(g, n, j));
      DotScaleRight(w, k, Col(g, n, j));
    }
    assert VecMat(w, s, n) == Scale(k, VecMat(w, g, n));
    DotScaleLeft(k, VecMat(w, g, n), w);
  }
}
