/** Exact-real vector arithmetic: the `sum` and `dotMultiply` helpers the engine
    borrows from its linear-algebra library, plus the algebra they obey. */
module Reals {

  /** Sum of the entries. */
  function Sum(s: seq<real>): real
  {
    if |s| == 0 then 0.0 else s[0] + Sum(s[1..])
  }

  /** Sum of the element-wise products. */
  function Dot(a: seq<real>, b: seq<real>): real
    requires |a| == |b|
  {
    if |a| == 0 then 0.0 else a[0] * b[0] + Dot(a[1..], b[1..])
  }

  /** n copies of c. */
  function Const(n: nat, c: real): (r: seq<real>)
    ensures |r| == n
  {
    seq(n, _ => c)
  }

  function Add(a: seq<real>, b: seq<real>): (r: seq<real>)
    requires |a| == |b|
    ensures |r| == |a|
  {
    seq(|a|, i requires 0 <= i < |a| => a[i] + b[i])
  }

  function Sub(a: seq<real>, b: seq<real>): (r: seq<real>)
    requires |a| == |b|
    ensures |r| == |a|
  {
    seq(|a|, i requires 0 <= i < |a| => a[i] - b[i])
  }

  function Scale(c: real, a: seq<real>): (r: seq<real>)
    ensures |r| == |a|
  {
    seq(|a|, i requires 0 <= i < |a| => c * a[i])
  }

  lemma ScaleTail(c: real, a: seq<real>)
    requires |a| > 0
    ensures Scale(c, a)[1..] == Scale(c, a[1..])
  {
    forall k | 0 <= k < |a| - 1
      ensures Scale(c, a)[1..][k] == Scale(c, a[1..])[k]
    {
      assert Scale(c, a)[1..][k] == Scale(c, a)[k + 1] == c * a[k + 1];
    }
  }

  lemma ScaleScale(a: real, b: real, x: seq<real>)
    ensures Scale(a, Scale(b, x)) == Scale(a * b, x)
  {
    forall i | 0 <= i < |x|
      ensures Scale(a, Scale(b, x))[i] == Scale(a * b, x)[i]
    {
      assert a * (b * x[i]) == (a * b) * x[i];
    }
  }

  predicate AllNonNegative(s: seq<real>)
  {
    forall i | 0 <= i < |s| :: 0.0 <= s[i]
  }

  predicate AllPositive(s: seq<real>)
  {
    forall i | 0 <= i < |s| :: 0.0 < s[i]
  }

  lemma {:induction false} SumConst(n: nat, c: real)
    ensures Sum(Const(n, c)) == n as real * c
  {
    if n > 0 {
      assert Const(n, c)[1..] == Const(n - 1, c);
      SumConst(n - 1, c);
    }
  }

  lemma {:induction false} SumScale(c: real, a: seq<real>)
    ensures Sum(Scale(c, a)) == c * Sum(a)
  {
    if |a| > 0 {
      ScaleTail(c, a);
      SumScale(c, a[1..]);
    }
  }

  lemma {:induction false} SumNonNegative(s: seq<real>)
    requires AllNonNegative(s)
    ensures 0.0 <= Sum(s)
  {
    if |s| > 0 {
      SumNonNegative(s[1..]);
    }
  }

  lemma {:induction false} SumPositive(s: seq<real>)
    requires |s| > 0 && AllPositive(s)
    ensures 0.0 < Sum(s)
  {
    SumNonNegative(s[1..]);
  }

  /** With no negative entries, no entry exceeds the total. */
  lemma {:induction false} EntryAtMostSum(s: seq<real>, i: nat)
    requires AllNonNegative(s) && i < |s|
    ensures s[i] <= Sum(s)
  {
    if i == 0 {
      SumNonNegative(s[1..]);
    } else {
      EntryAtMostSum(s[1..], i - 1);
    }
  }

  lemma {:induction false} DotCommutes(a: seq<real>, b: seq<real>)
    requires |a| == |b|
    ensures Dot(a, b) == Dot(b, a)
  {
    if |a| > 0 {
      DotCommutes(a[1..], b[1..]);
    }
  }

  lemma {:induction false} DotAddLeft(a: seq<real>, b: seq<real>, v: seq<real>)
    requires |a| == |b| == |v|
    ensures Dot(Add(a, b), v) == Dot(a, v) + Dot(b, v)
  {
    if |a| > 0 {
      assert Add(a, b)[1..] == Add(a[1..], b[1..]);
      DotAddLeft(a[1..], b[1..], v[1..]);
    }
  }

  lemma {:induction false} DotScaleLeft(c: real, a: seq<real>, v: seq<real>)
    requires |a| == |v|
    ensures Dot(Scale(c, a), v) == c * Dot(a, v)
  {
    if |a| > 0 {
      ScaleTail(c, a);
      DotScaleLeft(c, a[1..], v[1..]);
    }
  }

  lemma {:induction false} DotScaleRight(w: seq<real>, c: real, a: seq<real>)
    requires |w| == |a|
    ensures Dot(w, Scale(c, a)) == c * Dot(w, a)
  {
    DotCommutes(w, Scale(c, a));
    DotScaleLeft(c, a, w);
    DotCommutes(w, a);
  }

  lemma {:induction false} DotSubRight(w: seq<real>, a: seq<real>, b: seq<real>)
    requires |w| == |a| == |b|
    ensures Dot(w, Sub(a, b)) == Dot(w, a) - Dot(w, b)
  {
    if |w| > 0 {
      assert Sub(a, b)[1..] == Sub(a[1..], b[1..]);
      DotSubRight(w[1..], a[1..], b[1..]);
    }
  }

  lemma {:induction false} DotZeroLeft(v: seq<real>)
    ensures Dot(Const(|v|, 0.0), v) == 0.0
  {
    if |v| > 0 {
      assert Const(|v|, 0.0)[1..] == Const(|v[1..]|, 0.0);
      DotZeroLeft(v[1..]);
    }
  }

  /** Dotting with a vector of ones sums. */
  lemma {:induction false} DotOnes(a: seq<real>)
    ensures Dot(a, Const(|a|, 1.0)) == Sum(a)
  {
    if |a| > 0 {
      assert Const(|a|, 1.0)[1..] == Const(|a[1..]|, 1.0);
      DotOnes(a[1..]);
    }
  }

  /** A sum of squares is never negative. */
  lemma {:induction false} DotSelfNonNegative(a: seq<real>)
    ensures 0.0 <= Dot(a, a)
  {
    if |a| > 0 {
      DotSelfNonNegative(a[1..]);
      assert 0.0 <= a[0] * a[0];
    }
  }
}
