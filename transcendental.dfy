/**
 * The transcendental functions of Python's `math` module that the estimator
 * calls (`math.log`, `math.log2`, `math.sqrt`). They are not defined here:
 * every operation takes a `Library` holding them, and a lemma that needs a
 * fact about them asks for `Lawful(lib)`, which states only the facts the
 * proofs use.
 */
module Transcendental {

  datatype Library = Library(ln: real -> real, log2: real -> real, sqrt: real -> real)

  /** The laws of the natural logarithm, the binary logarithm and the square root that the proofs rely on. */
  ghost predicate Lawful(lib: Library) {
    && lib.ln(1.0) == 0.0
    && (forall x, y :: 0.0 < x < y ==> lib.ln(x) < lib.ln(y))
    && lib.log2(1.0) == 0.0
    && (forall x, y :: 0.0 < x < y ==> lib.log2(x) < lib.log2(y))
    && (forall x :: 0.0 <= x ==> 0.0 <= lib.sqrt(x) && lib.sqrt(x) * lib.sqrt(x) == x)
  }

  /** The natural logarithm is negative exactly below 1 and positive exactly above 1. */
  lemma LnSign(lib: Library, x: real)
    requires Lawful(lib) && 0.0 < x
    ensures lib.ln(x) < 0.0 <==> x < 1.0
    ensures lib.ln(x) > 0.0 <==> x > 1.0
  {
    if x < 1.0 {
      assert lib.ln(x) < lib.ln(1.0);
    } else if x > 1.0 {
      assert lib.ln(1.0) < lib.ln(x);
    }
  }

  lemma Log2NonNegative(lib: Library, x: real)
    requires Lawful(lib) && 1.0 <= x
    ensures 0.0 <= lib.log2(x)
  {
    if 1.0 < x {
      assert lib.log2(1.0) < lib.log2(x);
    }
  }

  lemma SqrtOfOne(lib: Library)
    requires Lawful(lib)
    ensures lib.sqrt(1.0) == 1.0
  {
    var s := lib.sqrt(1.0);
    assert 0.0 <= s && s * s == 1.0;
    var below, above := s - 1.0, s + 1.0;
    assert below * above == 0.0 && 0.0 < above;
    assert below == below * above / above;
  }
}
