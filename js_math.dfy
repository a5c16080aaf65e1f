/** The parts of JavaScript's `Math` object that the simulation uses.
    `cos`, `sin` and `sqrt` are left uninterpreted: they are fields of a
    `MathLib` value that every caller passes in, and the only facts known
    about them are the predicates below, stated as preconditions. */
module JsMath {

  datatype MathLib = MathLib(cos: real -> real, sin: real -> real, sqrt: real -> real)

  /** What the model requires of `Math.sqrt`: it never returns a negative
      number on a non-negative argument, and the root of zero is zero. */
  ghost predicate SqrtLaws(m: MathLib) {
    && (forall x :: 0.0 <= x ==> 0.0 <= m.sqrt(x))
    && m.sqrt(0.0) == 0.0
  }

  /** cos^2 + sin^2 = 1. A hypothesis only of the lemmas that say so. */
  ghost predicate PythagoreanIdentity(m: MathLib) {
    forall a :: m.cos(a) * m.cos(a) + m.sin(a) * m.sin(a) == 1.0
  }

  /** `Math.min` and `Math.max` on two finite numbers. */
  function Min(a: real, b: real): (r: real)
    ensures r <= a && r <= b && (r == a || r == b)
  {
    if a <= b then a else b
  }

  function Max(a: real, b: real): (r: real)
    ensures a <= r && b <= r && (r == a || r == b)
  {
    if a >= b then a else b
  }
}
