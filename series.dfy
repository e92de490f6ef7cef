/** Sums over series and tables of reals, the arithmetic every stage of the
    pipeline is built from. */
module Series {

  /** A table has `width` columns in every row. */
  predicate Rectangular(t: seq<seq<real>>, width: nat)
  {
    forall i :: 0 <= i < |t| ==> |t[i]| == width
  }

  /** The sum of a series, added left to right. */
  function Sum(s: seq<real>): real
  {
    if |s| == 0 then 0.0 else Sum(s[..|s| - 1]) + s[|s| - 1]
  }

  /** Every element multiplied by `c`. */
  function Scale(c: real, s: seq<real>): (r: seq<real>)
    ensures |r| == |s|
    ensures forall i :: 0 <= i < |s| ==> r[i] == c * s[i]
  {
    seq(|s|, i requires 0 <= i < |s| => c * s[i])
  }

  /** Sum distributes over scaling: the sum of `c * s` is `c` times the sum of `s`. */
  lemma {:induction false} SumScale(c: real, s: seq<real>)
    ensures Sum(Scale(c, s)) == c * Sum(s)
  {
    if |s| > 0 {
      var p := s[..|s| - 1];
      assert forall i :: 0 <= i < |p| ==> Scale(c, s)[i] == Scale(c, p)[i];
      assert Scale(c, s)[..|s| - 1] == Scale(c, p);
      SumScale(c, p);
      Distributes(c, Sum(p), s[|s| - 1]);
    }
  }

  /** Multiplication distributes over addition. */
  lemma Distributes(c: real, a: real, b: real)
    ensures c * a + c * b == c * (a + b)
  {
  }

  /** A series of `n` copies of `c` sums to `n * c`. */
  lemma {:induction false} SumConstant(s: seq<real>, c: real)
    requires forall i :: 0 <= i < |s| ==> s[i] == c
    ensures Sum(s) == |s| as real * c
  {
    if |s| > 0 {
      SumConstant(s[..|s| - 1], c);
    }
  }

  /** Subtracting `c` from every element lowers the sum by `|s| * c`. */
  lemma {:induction false} SumShift(s: seq<real>, c: real)
    ensures Sum(seq(|s|, i requires 0 <= i < |s| => s[i] - c)) == Sum(s) - |s| as real * c
  {
    var t := seq(|s|, i requires 0 <= i < |s| => s[i] - c);
    if |s| > 0 {
      assert t[..|s| - 1] == seq(|s| - 1, i requires 0 <= i < |s| - 1 => s[..|s| - 1][i] - c);
      SumShift(s[..|s| - 1], c);
    }
  }

  /** A sum of non-negative terms is non-negative, and it is zero only when every term is. */
  lemma {:induction false} SumNonnegative(s: seq<real>)
    requires forall i :: 0 <= i < |s| ==> s[i] >= 0.0
    ensures Sum(s) >= 0.0
    ensures Sum(s) == 0.0 ==> forall i :: 0 <= i < |s| ==> s[i] == 0.0
  {
    if |s| > 0 {
      SumNonnegative(s[..|s| - 1]);
      assert forall i :: 0 <= i < |s| - 1 ==> s[..|s| - 1][i] == s[i];
    }
  }

  /** A series that is zero except at position `k` sums to its entry at `k`. */
  lemma {:induction false} SumSingleEntry(s: seq<real>, k: nat)
    requires k < |s|
    requires forall j :: 0 <= j < |s| && j != k ==> s[j] == 0.0
    ensures Sum(s) == s[k]
  {
    var p := s[..|s| - 1];
    if k == |s| - 1 {
      SumConstant(p, 0.0);
    } else {
      SumSingleEntry(p, k);
    }
  }

  /** A common nonzero factor cancels from a quotient. */
  lemma QuotientCancels(c: real, a: real, b: real)
    requires c != 0.0 && b != 0.0
    ensures (c * a) / (c * b) == a / b
  {
    assert (c * a) / (c * b) * (c * b) == c * a;
    assert a / b * b == a;
    assert (a / b) * (c * b) == c * a;
  }

  /** Dividing by a nonzero divisor and multiplying by it again is the identity. */
  lemma QuotientTimesDivisor(x: real, y: real)
    requires y != 0.0
    ensures (x / y) * y == x
  {
  }

  /** A nonzero product has nonzero factors. */
  lemma NonzeroFactors(a: real, b: real)
    ensures a * b != 0.0 ==> a != 0.0 && b != 0.0
  {
  }

  /** A quotient is the only solution of its product equation. */
  lemma QuotientUnique(a: real, b: real, g: real)
    requires a != 0.0 && a * g == b
    ensures g == b / a
  {
  }

  /** A quotient is zero only when its dividend is. */
  lemma QuotientZero(a: real, b: real)
    requires b != 0.0 && a / b == 0.0
    ensures a == 0.0
  {
    assert a / b * b == a;
  }

  /** A product of positive reals is positive. */
  lemma PositiveProduct(a: real, b: real)
    requires a > 0.0 && b > 0.0
    ensures a * b > 0.0
  {
  }

  /** Equal reals have equal multiples. */
  lemma EqualTimes(a: real, b: real, c: real)
    requires a == b
    ensures a * c == b * c
  {
  }

  /** `x ** 2`, never negative. */
  function Square(x: real): (r: real)
    ensures r >= 0.0
  {
    x * x
  }

  /** A product is zero only when a factor is. */
  lemma ProductZero(a: real, b: real)
    requires a * b == 0.0
    ensures a == 0.0 || b == 0.0
  {
  }

  /** Only zero squares to zero. */
  lemma SquareZero(x: real)
    requires Square(x) == 0.0
    ensures x == 0.0
  {
    ProductZero(x, x);
  }

  /** `(b - a) * (b + a)` expands to a difference of squares. */
  lemma DifferenceOfSquares(a: real, b: real)
    ensures (b - a) * (b + a) == b * b - a * a
  {
  }

  /** Squaring is strictly increasing on the non-negative reals. */
  lemma SquareIncreasing(a: real, b: real)
    requires 0.0 <= a < b
    ensures a * a < b * b
  {
    PositiveProduct(b - a, b + a);
    DifferenceOfSquares(a, b);
  }

  /** A product of a factor above 1 and a factor at least 1 is above 1. */
  lemma ProductAboveOne(a: real, b: real)
    requires a > 1.0 && b >= 1.0
    ensures a * b > 1.0
  {
  }

  /** A product of two factors in `[0, 1)` is in `[0, 1)`. */
  lemma ProductBelowOne(a: real, b: real)
    requires 0.0 <= a < 1.0 && 0.0 <= b < 1.0
    ensures 0.0 <= a * b < 1.0
  {
    NonnegativeProduct(a, b);
    ProductAtMost(a, b);
  }

  /** Multiplying by a factor in `[0, 1]` does not increase a non-negative real. */
  lemma ProductAtMost(a: real, b: real)
    requires 0.0 <= a <= 1.0 && b >= 0.0
    ensures a * b <= b
  {
    NonnegativeProduct(1.0 - a, b);
  }

  /** A product of non-negative reals is non-negative. */
  lemma NonnegativeProduct(a: real, b: real)
    requires a >= 0.0 && b >= 0.0
    ensures a * b >= 0.0
  {
  }

  /** A nonzero real times its reciprocal is 1. */
  lemma ReciprocalTimes(n: real)
    requires n != 0.0
    ensures n * (1.0 / n) == 1.0
  {
  }

  /** The reciprocal of a real of at least 1 lies in `[0, 1]`. */
  lemma ReciprocalAtMostOne(n: real)
    requires n >= 1.0
    ensures 0.0 <= 1.0 / n <= 1.0
  {
  }
}
