/** Real-number helpers shared by the physics modules: the square and cube
    roots the Python code takes from its `math` library, and the truncating
    `int(...)` conversion. */
module Numerics {

  /** The two library roots, as total functions on the reals. Nothing about
      them is known beyond what `Lawful` states. */
  datatype MathLib = MathLib(sqrt: real -> real, cbrt: real -> real)
  {
    /** The laws every caller's root functions must obey. */
    ghost predicate Lawful() {
      (forall s :: SqrtLaw(s)) && (forall s :: CbrtLaw(s))
    }

    /** The square root of a non-negative real is its non-negative root. */
    ghost predicate SqrtLaw(s: real) {
      s >= 0.0 ==> sqrt(s) >= 0.0 && sqrt(s) * sqrt(s) == s
    }

    /** The cube root of a non-negative real is its non-negative root. */
    ghost predicate CbrtLaw(s: real) {
      s >= 0.0 ==> cbrt(s) >= 0.0 && cbrt(s) * cbrt(s) * cbrt(s) == s
    }
  }

  lemma SquareStrict(a: real, b: real)
    requires 0.0 <= a < b
    ensures a * a < b * b
  {
    calc {
      a * a;
    <= a * b;
    < b * b;
    }
  }

  lemma CubeStrict(a: real, b: real)
    requires 0.0 <= a < b
    ensures a * a * a < b * b * b
  {
    SquareStrict(a, b);
    assert a * a * a <= a * a * b;
    assert a * a * b < b * b * b;
  }

  /** The cube root is monotone on the non-negative reals. */
  lemma CbrtMonotone(m: MathLib, a: real, b: real)
    requires m.Lawful()
    requires 0.0 <= a <= b
    ensures m.cbrt(a) <= m.cbrt(b)
  {
    assert m.CbrtLaw(a) && m.CbrtLaw(b);
    if m.cbrt(b) < m.cbrt(a) {
      CubeStrict(m.cbrt(b), m.cbrt(a));
      assert false;
    }
  }

  /** A square root that is at most `bound` squared is at most `bound`. */
  lemma SqrtAtLeast(m: MathLib, s: real, bound: real)
    requires m.Lawful()
    requires 0.0 <= bound && bound * bound <= s
    ensures m.sqrt(s) >= bound
  {
    assert m.SqrtLaw(s);
    if m.sqrt(s) < bound {
      SquareStrict(m.sqrt(s), bound);
      assert false;
    }
  }

  /** Comparing a square root with a bound is comparing squares. */
  lemma SqrtBelow(m: MathLib, s: real, bound: real)
    requires m.Lawful()
    requires 0.0 <= s && 0.0 <= bound
    ensures m.sqrt(s) < bound <==> s < bound * bound
  {
    var d := m.sqrt(s);
    assert m.SqrtLaw(s);
    if d < bound {
      SquareStrict(d, bound);
    } else if bound < d {
      SquareStrict(bound, d);
    }
  }

  /** Python's `int(x)` for a float: truncation toward zero. */
  function Trunc(x: real): (r: int)
    ensures 0.0 <= x ==> 0 <= r && r as real <= x < r as real + 1.0
    ensures x < 0.0 ==> r <= 0 && r as real - 1.0 < x <= r as real
  {
    if x >= 0.0 then x.Floor else -((-x).Floor)
  }

  lemma TruncMonotone(a: real, b: real)
    requires 0.0 <= a <= b
    ensures Trunc(a) <= Trunc(b)
  {
  }
}
