/** The square root the engine takes from the host platform (`Math.sqrt`).
    Exact reals have no computable square root, so every operation that needs one
    receives it as a parameter and assumes only what `IsSqrt` states of it. */
module SquareRoot {

  /** `sqrt` returns the non-negative square root of every non-negative real. */
  ghost predicate IsSqrt(sqrt: real -> real)
  {
    forall x: real :: 0.0 <= x ==> 0.0 <= sqrt(x) && sqrt(x) * sqrt(x) == x
  }

  /** `IsSqrt` at one point. */
  lemma SqrtFacts(sqrt: real -> real, x: real)
    requires IsSqrt(sqrt) && 0.0 <= x
    ensures 0.0 <= sqrt(x) && sqrt(x) * sqrt(x) == x
  {
  }

  /** The non-negative root is unique, so any valid `sqrt` agrees with a known root. */
  lemma SqrtOfSquare(sqrt: real -> real, x: real, root: real)
    requires IsSqrt(sqrt)
    requires 0.0 <= root && root * root == x
    ensures sqrt(x) == root
  {
    var s := sqrt(x);
    assert 0.0 <= s && s * s == x;
    assert (s - root) * (s + root) == s * s - root * root == 0.0;
    if s + root == 0.0 {
      assert s == 0.0 == root;
    } else {
      assert s - root == 0.0;
    }
  }

  /** The square of a product of roots is the product of the radicands. */
  lemma SquareOfRootProduct(sqrt: real -> real, x: real, y: real)
    requires IsSqrt(sqrt)
    requires 0.0 <= x && 0.0 <= y
    ensures (sqrt(x) * sqrt(y)) * (sqrt(x) * sqrt(y)) == x * y
  {
    var a, b := sqrt(x), sqrt(y);
    assert (a * b) * (a * b) == (a * a) * (b * b);
  }
}
