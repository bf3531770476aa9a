/**
 * Ordinary least squares of a series against its 0-based index, in closed form:
 * slope = Σ(i − ī)(y − ȳ) / Σ(i − ī)², intercept = ȳ − slope·ī.
 */
module Regression {

  /** Σ_{i < n} f(i). */
  function Sum(n: nat, f: nat -> real): real
  {
    if n == 0 then 0.0 else Sum(n - 1, f) + f(n - 1)
  }

  /** h = c·f + d·g at every index below n. */
  ghost predicate Linear(n: nat, f: nat -> real, g: nat -> real, h: nat -> real, c: real, d: real)
  {
    forall i: nat :: i < n ==> h(i) == c * f(i) + d * g(i)
  }

  /** Sums are linear: a pointwise linear combination sums to the same combination of sums. */
  lemma {:induction false} SumLinear(n: nat, f: nat -> real, g: nat -> real, h: nat -> real, c: real, d: real)
    requires Linear(n, f, g, h, c, d)
    ensures Sum(n, h) == c * Sum(n, f) + d * Sum(n, g)
  {
    if n > 0 {
      assert Linear(n - 1, f, g, h, c, d);
      SumLinear(n - 1, f, g, h, c, d);
      assert h(n - 1) == c * f(n - 1) + d * g(n - 1);
      var sf, sg := Sum(n - 1, f), Sum(n - 1, g);
      assert c * (sf + f(n - 1)) == c * sf + c * f(n - 1);
      assert d * (sg + g(n - 1)) == d * sg + d * g(n - 1);
    }
  }

  /** h = c·f at every index below n. */
  ghost predicate Scaled(n: nat, f: nat -> real, h: nat -> real, c: real)
  {
    forall i: nat :: i < n ==> h(i) == c * f(i)
  }

  /** A constant factor comes out of a sum. */
  lemma {:induction false} SumScaled(n: nat, f: nat -> real, h: nat -> real, c: real)
    requires Scaled(n, f, h, c)
    ensures Sum(n, h) == c * Sum(n, f)
  {
    if n > 0 {
      SumScaled(n - 1, f, h, c);
      assert c * (Sum(n - 1, f) + f(n - 1)) == c * Sum(n - 1, f) + c * f(n - 1);
    }
  }

  /** Sums of functions that agree below n are equal. */
  lemma {:induction false} SumCongruent(n: nat, f: nat -> real, g: nat -> real)
    requires forall i: nat :: i < n ==> f(i) == g(i)
    ensures Sum(n, f) == Sum(n, g)
  {
    if n > 0 {
      SumCongruent(n - 1, f, g);
    }
  }

  lemma {:induction false} SumNonnegative(n: nat, f: nat -> real)
    requires forall i: nat :: i < n ==> f(i) >= 0.0
    ensures Sum(n, f) >= 0.0
  {
    if n > 0 {
      SumNonnegative(n - 1, f);
    }
  }

  lemma {:induction false} SumAtLeastFirst(n: nat, f: nat -> real)
    requires n > 0
    requires forall i: nat :: i < n ==> f(i) >= 0.0
    ensures Sum(n, f) >= f(0)
  {
    if n > 1 {
      SumAtLeastFirst(n - 1, f);
    }
  }

  /** Σ_{i < n} i = n(n − 1)/2. */
  lemma {:induction false} SumOfIndices(n: nat)
    ensures Sum(n, Index()) == (n as real) * ((n as real) - 1.0) / 2.0
  {
    if n > 0 {
      SumOfIndices(n - 1);
    }
  }

  function Index(): nat -> real
  {
    (i: nat) => i as real
  }

  /** The series as a function of the index (0 beyond its end). */
  function At(ys: seq<real>): nat -> real
  {
    (i: nat) => if i < |ys| then ys[i] else 0.0
  }

  function Centered(f: nat -> real, m: real): nat -> real
  {
    (i: nat) => f(i) - m
  }

  function Product(f: nat -> real, g: nat -> real): nat -> real
  {
    (i: nat) => f(i) * g(i)
  }

  /** ī for the indices 0..n−1. */
  function IndexMean(n: nat): real
  {
    ((n as real) - 1.0) / 2.0
  }

  function Mean(ys: seq<real>): real
    requires |ys| > 0
  {
    Sum(|ys|, At(ys)) / (|ys| as real)
  }

  /** Σ(i − ī)². */
  function IndexSpread(n: nat): real
  {
    var dx := Centered(Index(), IndexMean(n));
    Sum(n, Product(dx, dx))
  }

  /** Σ(i − ī)(y − ȳ). */
  function Covariation(ys: seq<real>): real
    requires |ys| > 0
  {
    Sum(|ys|, Product(Centered(Index(), IndexMean(|ys|)), Centered(At(ys), Mean(ys))))
  }

  lemma IndexSpreadPositive(n: nat)
    requires n >= 2
    ensures IndexSpread(n) > 0.0
  {
    var dx := Centered(Index(), IndexMean(n));
    SumAtLeastFirst(n, Product(dx, dx));
    assert Product(dx, dx)(0) == IndexMean(n) * IndexMean(n);
  }

  /** The fitted coefficient of the series against its index. */
  function OlsSlope(ys: seq<real>): real
    requires |ys| >= 2
  {
    IndexSpreadPositive(|ys|);
    Covariation(ys) / IndexSpread(|ys|)
  }

  function OlsIntercept(ys: seq<real>): real
    requires |ys| >= 2
  {
    Mean(ys) - OlsSlope(ys) * IndexMean(|ys|)
  }

  /** y_i − (a + b·i). */
  function Residual(ys: seq<real>, a: real, b: real): nat -> real
  {
    (i: nat) => At(ys)(i) - a - b * (i as real)
  }

  /** The residual sum of squares of the line a + b·i. */
  function SquaredError(ys: seq<real>, a: real, b: real): real
  {
    var r := Residual(ys, a, b);
    Sum(|ys|, Product(r, r))
  }

  lemma SumOfSeries(ys: seq<real>)
    requires |ys| > 0
    ensures Sum(|ys|, At(ys)) == (|ys| as real) * Mean(ys)
  {
  }

  /** Σ (y_i − a − b·i) = Σ y − b·Σ i − n·a, for any line. */
  lemma ResidualSum(ys: seq<real>, a: real, b: real)
    ensures Sum(|ys|, Residual(ys, a, b)) == Sum(|ys|, At(ys)) - b * Sum(|ys|, Index()) - (|ys| as real) * a
  {
    ResidualTerms(ys, a, b);
    SumLinear(|ys|, At(ys), Line(a, b), Residual(ys, a, b), 1.0, -1.0);
    SumOfLine(|ys|, a, b);
  }

  lemma ResidualTerms(ys: seq<real>, a: real, b: real)
    ensures Linear(|ys|, At(ys), Line(a, b), Residual(ys, a, b), 1.0, -1.0)
  {
  }

  /** Σ_{i < n} (a + b·i) = n·a + b·Σ i. */
  lemma {:induction false} SumOfLine(n: nat, a: real, b: real)
    ensures Sum(n, Line(a, b)) == (n as real) * a + b * Sum(n, Index())
  {
    if n > 0 {
      SumOfLine(n - 1, a, b);
      assert b * (Sum(n - 1, Index()) + ((n - 1) as real)) == b * Sum(n - 1, Index()) + b * ((n - 1) as real);
    }
  }

  /** The OLS residuals sum to zero. */
  lemma ResidualsSumToZero(ys: seq<real>)
    requires |ys| >= 2
    ensures Sum(|ys|, Residual(ys, OlsIntercept(ys), OlsSlope(ys))) == 0.0
  {
    var n := |ys|;
    var a, b := OlsIntercept(ys), OlsSlope(ys);
    ResidualSum(ys, a, b);
    SumOfIndices(n);
    SumOfSeries(ys);
    ResidualSumAlgebra(n as real, Mean(ys), a, b, Sum(n, At(ys)), Sum(n, Index()), Sum(n, Residual(ys, a, b)));
  }

  lemma ResidualSumAlgebra(nr: real, m: real, a: real, b: real, sy: real, sx: real, se: real)
    requires sy == nr * m && sx == nr * (nr - 1.0) / 2.0 && a == m - b * ((nr - 1.0) / 2.0)
    requires se == sy - b * sx - nr * a
    ensures se == 0.0
  {
    var xm := (nr - 1.0) / 2.0;
    assert sx == nr * xm;
    assert se == nr * m - b * (nr * xm) - nr * (m - b * xm);
  }

  /**
   * For a line through (ī, m), that is a = m − b·ī, Σ (i − ī)·e_i = Σ(i − ī)(y − m) − b·Σ(i − ī)².
   */
  lemma CentredResidualSum(ys: seq<real>, m: real, a: real, b: real)
    requires a == m - b * IndexMean(|ys|)
    ensures var dx := Centered(Index(), IndexMean(|ys|));
      Sum(|ys|, Product(dx, Residual(ys, a, b))) ==
        Sum(|ys|, Product(dx, Centered(At(ys), m))) - b * Sum(|ys|, Product(dx, dx))
  {
    var dx := Centered(Index(), IndexMean(|ys|));
    CentredResidualTerms(ys, m, a, b);
    SumLinear(|ys|, Product(dx, Centered(At(ys), m)), Product(dx, dx), Product(dx, Residual(ys, a, b)), 1.0, -b);
  }

  lemma CentredResidualTerms(ys: seq<real>, m: real, a: real, b: real)
    requires a == m - b * IndexMean(|ys|)
    ensures var dx := Centered(Index(), IndexMean(|ys|));
      Linear(|ys|, Product(dx, Centered(At(ys), m)), Product(dx, dx), Product(dx, Residual(ys, a, b)), 1.0, -b)
  {
    var xm := IndexMean(|ys|);
    var dx := Centered(Index(), xm);
    var dy := Centered(At(ys), m);
    var e := Residual(ys, a, b);
    forall i: nat | i < |ys|
      ensures Product(dx, e)(i) == 1.0 * Product(dx, dy)(i) + (-b) * Product(dx, dx)(i)
    {
      var x, y := i as real, At(ys)(i);
      assert dx(i) == x - xm && dy(i) == y - m && e(i) == y - a - b * x;
      OrthogonalTerm(x, y, xm, m, a, b);
    }
  }

  lemma OrthogonalTerm(x: real, y: real, xm: real, m: real, a: real, b: real)
    requires a == m - b * xm
    ensures (x - xm) * (y - a - b * x) == (x - xm) * (y - m) - b * ((x - xm) * (x - xm))
  {
    assert y - a - b * x == (y - m) - b * (x - xm);
  }

  /** The OLS residuals are uncorrelated with the centred index (the normal equation). */
  lemma ResidualsOrthogonal(ys: seq<real>)
    requires |ys| >= 2
    ensures Sum(|ys|, Product(Centered(Index(), IndexMean(|ys|)), Residual(ys, OlsIntercept(ys), OlsSlope(ys)))) == 0.0
  {
    CentredResidualSum(ys, Mean(ys), OlsIntercept(ys), OlsSlope(ys));
    IndexSpreadPositive(|ys|);
    SlopeAlgebra(Covariation(ys), IndexSpread(|ys|), OlsSlope(ys));
  }

  lemma SlopeAlgebra(cov: real, spread: real, b: real)
    requires spread > 0.0 && b == cov / spread
    ensures cov - b * spread == 0.0
  {
    assert b * spread == cov;
  }

  /** Σ i·e_i = Σ (i − ī)·e_i + ī·Σ e_i, for any e. */
  lemma IndexWeightedSum(n: nat, xm: real, e: nat -> real)
    ensures Sum(n, Product(Index(), e)) == Sum(n, Product(Centered(Index(), xm), e)) + xm * Sum(n, e)
  {
    IndexWeightedTerms(n, xm, e);
    SumLinear(n, Product(Centered(Index(), xm), e), e, Product(Index(), e), 1.0, xm);
  }

  lemma IndexWeightedTerms(n: nat, xm: real, e: nat -> real)
    ensures Linear(n, Product(Centered(Index(), xm), e), e, Product(Index(), e), 1.0, xm)
  {
    var dx := Centered(Index(), xm);
    forall i: nat | i < n
      ensures Product(Index(), e)(i) == 1.0 * Product(dx, e)(i) + xm * e(i)
    {
      assert (i as real) * e(i) == ((i as real) - xm) * e(i) + xm * e(i);
    }
  }

  /** Σ i·e_i = 0 for the OLS residuals e. */
  lemma IndexResidualsSumToZero(ys: seq<real>)
    requires |ys| >= 2
    ensures Sum(|ys|, Product(Index(), Residual(ys, OlsIntercept(ys), OlsSlope(ys)))) == 0.0
  {
    ResidualsSumToZero(ys);
    ResidualsOrthogonal(ys);
    IndexWeightedSum(|ys|, IndexMean(|ys|), Residual(ys, OlsIntercept(ys), OlsSlope(ys)));
  }

  /** a + b·i. */
  function Line(a: real, b: real): nat -> real
  {
    (i: nat) => a + b * (i as real)
  }

  function Plus(f: nat -> real, g: nat -> real): nat -> real
  {
    (i: nat) => f(i) + g(i)
  }

  /** Residuals with Σ e = Σ i·e = 0 are uncorrelated with every line. */
  lemma OrthogonalToLines(n: nat, e: nat -> real, p: real, q: real)
    requires Sum(n, e) == 0.0 && Sum(n, Product(Index(), e)) == 0.0
    ensures Sum(n, Product(e, Line(p, q))) == 0.0
  {
    LineTerms(n, e, p, q);
    SumLinear(n, e, Product(Index(), e), Product(e, Line(p, q)), p, q);
  }

  lemma LineTerms(n: nat, e: nat -> real, p: real, q: real)
    ensures Linear(n, e, Product(Index(), e), Product(e, Line(p, q)), p, q)
  {
    var ie := Product(Index(), e);
    var d := Line(p, q);
    forall i: nat | i < n
      ensures Product(e, d)(i) == p * e(i) + q * ie(i)
    {
      LineTerm(e(i), i as real, p, q);
    }
  }

  lemma LineTerm(ei: real, x: real, p: real, q: real)
    ensures ei * (p + q * x) == p * ei + q * (x * ei)
  {
  }

  /** The OLS residuals are uncorrelated with the gap between the OLS line and any other line. */
  lemma ResidualsOrthogonalToLines(ys: seq<real>, a: real, b: real)
    requires |ys| >= 2
    ensures var e := Residual(ys, OlsIntercept(ys), OlsSlope(ys));
      Sum(|ys|, Product(e, Line(OlsIntercept(ys) - a, OlsSlope(ys) - b))) == 0.0
  {
    ResidualsSumToZero(ys);
    IndexResidualsSumToZero(ys);
    OrthogonalToLines(|ys|, Residual(ys, OlsIntercept(ys), OlsSlope(ys)), OlsIntercept(ys) - a, OlsSlope(ys) - b);
  }

  /** If r = e + d and Σ e·d = 0 then Σ r² = Σ e² + Σ d² ≥ Σ e². */
  lemma PythagoreanBound(n: nat, r: nat -> real, e: nat -> real, d: nat -> real)
    requires forall i: nat :: i < n ==> r(i) == e(i) + d(i)
    requires Sum(n, Product(e, d)) == 0.0
    ensures Sum(n, Product(e, e)) <= Sum(n, Product(r, r))
  {
    var squares := Plus(Product(e, e), Product(d, d));
    assert Linear(n, Product(e, e), Product(d, d), squares, 1.0, 1.0);
    SumLinear(n, Product(e, e), Product(d, d), squares, 1.0, 1.0);
    SquareTerms(n, r, e, d);
    SumLinear(n, squares, Product(e, d), Product(r, r), 1.0, 2.0);
    SumNonnegative(n, Product(d, d));
  }

  lemma SquareTerms(n: nat, r: nat -> real, e: nat -> real, d: nat -> real)
    requires forall i: nat :: i < n ==> r(i) == e(i) + d(i)
    ensures Linear(n, Plus(Product(e, e), Product(d, d)), Product(e, d), Product(r, r), 1.0, 2.0)
  {
    forall i: nat | i < n
      ensures Product(r, r)(i) == 1.0 * Plus(Product(e, e), Product(d, d))(i) + 2.0 * Product(e, d)(i)
    {
      var ri, ei, di := r(i), e(i), d(i);
      assert ri * ri == ei * ei + di * di + 2.0 * (ei * di);
    }
  }

  /** The OLS line has the least residual sum of squares of all lines a + b·i. */
  lemma OlsMinimisesSquaredError(ys: seq<real>, a: real, b: real)
    requires |ys| >= 2
    ensures SquaredError(ys, OlsIntercept(ys), OlsSlope(ys)) <= SquaredError(ys, a, b)
  {
    var ah, bh := OlsIntercept(ys), OlsSlope(ys);
    var e := Residual(ys, ah, bh);
    var d := Line(ah - a, bh - b);
    var r := Residual(ys, a, b);
    ResidualsOrthogonalToLines(ys, a, b);
    LineGap(ys, a, b, ah, bh);
    PythagoreanBound(|ys|, r, e, d);
  }

  /** The residual of one line is the residual of another plus the gap between them. */
  lemma LineGap(ys: seq<real>, a: real, b: real, ah: real, bh: real)
    ensures forall i: nat :: i < |ys| ==>
      Residual(ys, a, b)(i) == Residual(ys, ah, bh)(i) + Line(ah - a, bh - b)(i)
  {
  }

  /** On a straight line a + b·i the mean is the line's value at the mean index. */
  lemma MeanOnLine(ys: seq<real>, a: real, b: real)
    requires |ys| >= 2
    requires forall i :: 0 <= i < |ys| ==> ys[i] == a + b * (i as real)
    ensures Mean(ys) == a + b * IndexMean(|ys|)
  {
    var n := |ys|;
    SumCongruent(n, At(ys), Line(a, b));
    SumOfLine(n, a, b);
    SumOfIndices(n);
    MeanAlgebra(n as real, a, b, Sum(n, Index()), Sum(n, At(ys)));
  }

  lemma MeanAlgebra(nr: real, a: real, b: real, sx: real, sy: real)
    requires nr > 0.0
    requires sx == nr * (nr - 1.0) / 2.0
    requires sy == nr * a + b * sx
    ensures sy / nr == a + b * ((nr - 1.0) / 2.0)
  {
    assert sy == nr * (a + b * ((nr - 1.0) / 2.0));
  }

  /** On a straight line a + b·i, Σ(i − ī)(y − m) = b·Σ(i − ī)² where m = a + b·ī. */
  lemma CovariationOnLine(ys: seq<real>, m: real, a: real, b: real)
    requires forall i :: 0 <= i < |ys| ==> ys[i] == a + b * (i as real)
    requires m == a + b * IndexMean(|ys|)
    ensures var dx := Centered(Index(), IndexMean(|ys|));
      Sum(|ys|, Product(dx, Centered(At(ys), m))) == b * Sum(|ys|, Product(dx, dx))
  {
    var dx := Centered(Index(), IndexMean(|ys|));
    CovariationTermsOnLine(ys, m, a, b);
    SumScaled(|ys|, Product(dx, dx), Product(dx, Centered(At(ys), m)), b);
  }

  lemma CovariationTermsOnLine(ys: seq<real>, m: real, a: real, b: real)
    requires forall i :: 0 <= i < |ys| ==> ys[i] == a + b * (i as real)
    requires m == a + b * IndexMean(|ys|)
    ensures var dx := Centered(Index(), IndexMean(|ys|));
      Scaled(|ys|, Product(dx, dx), Product(dx, Centered(At(ys), m)), b)
  {
    var xm := IndexMean(|ys|);
    var dx := Centered(Index(), xm);
    var dy := Centered(At(ys), m);
    forall i: nat | i < |ys|
      ensures Product(dx, dy)(i) == b * Product(dx, dx)(i)
    {
      var x, y := i as real, At(ys)(i);
      assert dx(i) == x - xm && dy(i) == y - m && y == a + b * x;
      LineCentred(x, y, xm, a, b);
    }
  }

  lemma LineCentred(x: real, y: real, xm: real, a: real, b: real)
    requires y == a + b * x
    ensures (x - xm) * (y - (a + b * xm)) == b * ((x - xm) * (x - xm))
  {
    assert y - (a + b * xm) == b * (x - xm);
  }

  /** On a straight line a + b·i the fit recovers the line exactly. */
  lemma OlsExactOnLine(ys: seq<real>, a: real, b: real)
    requires |ys| >= 2
    requires forall i :: 0 <= i < |ys| ==> ys[i] == a + b * (i as real)
    ensures OlsSlope(ys) == b
    ensures OlsIntercept(ys) == a
  {
    MeanOnLine(ys, a, b);
    CovariationOnLine(ys, Mean(ys), a, b);
    IndexSpreadPositive(|ys|);
    CancelSpread(Covariation(ys), IndexSpread(|ys|), b);
  }

  lemma CancelSpread(cov: real, spread: real, b: real)
    requires spread > 0.0
    requires cov == b * spread
    ensures cov / spread == b
  {
  }
}
