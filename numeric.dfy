/** The arithmetic the bookkeeping uses: powers, sums in Python's left-to-right order, means and
    dot products, over exact reals. */
module Numeric {

  /** x ** n for a non-negative integer exponent (0 ** 0 is 1, as in Python and numpy). */
  function Pow(x: real, n: nat): real
  {
    if n == 0 then 1.0 else Pow(x, n - 1) * x
  }

  lemma {:induction false} PowAdd(x: real, m: nat, n: nat)
    ensures Pow(x, m + n) == Pow(x, m) * Pow(x, n)
  {
    if n > 0 {
      PowAdd(x, m, n - 1);
      assert Pow(x, m + n) == Pow(x, m + (n - 1)) * x;
    }
  }

  lemma {:induction false} PowOne(n: nat)
    ensures Pow(1.0, n) == 1.0
  {
    if n > 0 { PowOne(n - 1); }
  }

  /** Python's sum(s): 0 + s[0] + s[1] + ... folded from the left. */
  function Sum(s: seq<real>): real
  {
    if s == [] then 0.0 else Sum(s[..|s| - 1]) + s[|s| - 1]
  }

  lemma {:induction false} SumConcat(a: seq<real>, b: seq<real>)
    ensures Sum(a + b) == Sum(a) + Sum(b)
  {
    if b != [] {
      assert (a + b)[..|a + b| - 1] == a + b[..|b| - 1];
      SumConcat(a, b[..|b| - 1]);
    } else {
      assert a + b == a;
    }
  }

  /** Every element between lo and hi puts the sum between |s| * lo and |s| * hi. */
  lemma {:induction false} SumBounds(s: seq<real>, lo: real, hi: real)
    requires forall i :: 0 <= i < |s| ==> lo <= s[i] <= hi
    ensures |s| as real * lo <= Sum(s) <= |s| as real * hi
  {
    if s != [] {
      SumBounds(s[..|s| - 1], lo, hi);
    }
  }

  /** The arithmetic mean of a non-empty window. */
  function Mean(s: seq<real>): real
    requires |s| > 0
  {
    Sum(s) / |s| as real
  }

  /** A mean lies between the least and the greatest value of its window. */
  lemma MeanBounds(s: seq<real>, lo: real, hi: real)
    requires |s| > 0
    requires forall i :: 0 <= i < |s| ==> lo <= s[i] <= hi
    ensures lo <= Mean(s) <= hi
  {
    SumBounds(s, lo, hi);
    var n := |s| as real;
    assert Sum(s) / n >= lo by { assert Sum(s) >= n * lo; }
    assert Sum(s) / n <= hi by { assert Sum(s) <= n * hi; }
  }

  /** The mean of a window holding one value c repeated is c. */
  lemma MeanConstant(s: seq<real>, c: real)
    requires |s| > 0
    requires forall i :: 0 <= i < |s| ==> s[i] == c
    ensures Mean(s) == c
  {
    MeanBounds(s, c, c);
  }

  /** numpy.dot of two vectors of one length. */
  function Dot(a: seq<real>, b: seq<real>): real
    requires |a| == |b|
  {
    if a == [] then 0.0 else Dot(a[..|a| - 1], b[..|b| - 1]) + a[|a| - 1] * b[|b| - 1]
  }

  /** Python's a // b: the quotient rounded toward negative infinity (Dafny's / rounds so that
      the remainder is non-negative, which differs when b < 0). */
  function FloorDiv(a: int, b: int): int
    requires b != 0
  {
    if b > 0 then a / b else (-a) / (-b)
  }

  /** a // b is the q with b*q <= a < b*q + b (for b > 0) or b*q + b < a <= b*q (for b < 0). */
  lemma FloorDivBounds(a: int, b: int)
    requires b != 0
    ensures var q := FloorDiv(a, b);
      && (b > 0 ==> b * q <= a < b * q + b)
      && (b < 0 ==> b * q + b < a <= b * q)
  {
  }

  /** The floor quotient of a by a positive b is the one block index k with k*b <= a < (k+1)*b. */
  lemma FloorDivUnique(a: int, b: int, k: int)
    requires b > 0 && k * b <= a < k * b + b
    ensures FloorDiv(a, b) == k
  {
    var q := FloorDiv(a, b);
    FloorDivBounds(a, b);
    assert (q - k - 1) * b < 0 && (k - q - 1) * b < 0;
    NegativeProduct(q - k - 1, b);
    NegativeProduct(k - q - 1, b);
  }

  lemma NegativeProduct(x: int, b: int)
    requires b > 0 && x * b < 0
    ensures x < 0
  {
  }

  lemma {:induction false} PowNonZero(x: real, n: nat)
    requires x != 0.0
    ensures Pow(x, n) != 0.0
  {
    if n > 0 { PowNonZero(x, n - 1); }
  }

  /** Python's x ** n for an integer exponent; a negative exponent needs x != 0 (0.0 ** -1 raises). */
  function PowInt(x: real, n: int): real
    requires n >= 0 || x != 0.0
  {
    if n >= 0 then Pow(x, n)
    else
      PowNonZero(x, -n);
      1.0 / Pow(x, -n)
  }
}
