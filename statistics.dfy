/** The statistics engine: cumulative return, mean and sample standard
    deviation of the daily returns, Sharpe ratio and end value of a portfolio
    value series. Square roots are kept exact as signed square roots. */
module Statistics {
  import opened Common
  import opened Series
  import opened Returns

  /** `mean()`: the sum over the count. */
  function Mean(s: seq<real>): (m: real)
    requires |s| > 0
    ensures m * |s| as real == Sum(s)
  {
    QuotientTimesDivisor(Sum(s), |s| as real);
    Sum(s) / |s| as real
  }

  /** `daily_returns - dailyrfr`: the returns in excess of a constant rate. */
  function Excess(s: seq<real>, c: real): (r: seq<real>)
    ensures |r| == |s|
  {
    seq(|s|, i requires 0 <= i < |s| => s[i] - c)
  }

  /** The mean excess return is the mean return less the rate; with a rate
      of 0 it is the mean return itself. */
  lemma MeanExcess(s: seq<real>, c: real)
    requires |s| > 0
    ensures Mean(Excess(s, c)) == Mean(s) - c
    ensures c == 0.0 ==> Excess(s, c) == s
  {
    SumShift(s, c);
    var n := |s| as real;
    assert (Sum(s) - n * c) / n == Sum(s) / n - c;
  }

  /** The squared distance of each element from `m`. */
  function SquaredDeviations(s: seq<real>, m: real): (r: seq<real>)
    ensures |r| == |s|
  {
    seq(|s|, i requires 0 <= i < |s| => Square(s[i] - m))
  }

  /** The square of `std()`, which divides by N - 1. */
  function SampleVariance(s: seq<real>): (v: real)
    requires |s| >= 2
    ensures v >= 0.0
    ensures v * (|s| - 1) as real == Sum(SquaredDeviations(s, Mean(s)))
  {
    var total := Sum(SquaredDeviations(s, Mean(s)));
    SumNonnegative(SquaredDeviations(s, Mean(s)));
    QuotientTimesDivisor(total, (|s| - 1) as real);
    total / (|s| - 1) as real
  }

  /** The sample variance is never negative, and it is zero exactly when
      the series is constant. */
  lemma VarianceZeroIffConstant(s: seq<real>)
    requires |s| >= 2
    ensures SampleVariance(s) >= 0.0
    ensures SampleVariance(s) == 0.0 <==> forall i :: 0 <= i < |s| ==> s[i] == s[0]
  {
    var m := Mean(s);
    var d := SquaredDeviations(s, m);
    SumNonnegative(d);
    if forall i :: 0 <= i < |s| ==> s[i] == s[0] {
      SumConstant(s, s[0]);
      QuotientUnique(|s| as real, Sum(s), s[0]);
      forall i | 0 <= i < |s| ensures d[i] == 0.0 {
        assert s[i] - m == 0.0;
      }
      SumConstant(d, 0.0);
    }
    if SampleVariance(s) == 0.0 {
      QuotientZero(Sum(d), (|s| - 1) as real);
      assert Sum(d) == 0.0;
      forall i | 0 <= i < |s| ensures s[i] == m {
        assert d[i] == Square(s[i] - m) == 0.0;
        SquareZero(s[i] - m);
      }
    }
  }

  /** The real number `sqrt(square)`, negated when `negative` holds. */
  datatype SignedSqrt = SignedSqrt(negative: bool, square: real)

  /** `v` is the real number that `x` stands for. */
  ghost predicate Denotes(x: SignedSqrt, v: real)
  {
    v * v == x.square && (if x.negative then v <= 0.0 else v >= 0.0)
  }

  /** A signed square root stands for at most one real number. */
  lemma DenotesUnique(x: SignedSqrt, v: real, w: real)
    requires Denotes(x, v) && Denotes(x, w)
    ensures v == w
  {
    if v < w {
      if x.negative { SquareIncreasing(-w, -v); } else { SquareIncreasing(v, w); }
    } else if w < v {
      if x.negative { SquareIncreasing(-v, -w); } else { SquareIncreasing(w, v); }
    }
  }

  /** The non-negative square root of `x`. */
  function Sqrt(x: real): (r: SignedSqrt)
    requires x >= 0.0
    ensures forall v :: Denotes(r, v) <==> v >= 0.0 && v * v == x
  {
    SignedSqrt(false, x)
  }

  /** Multiplication by -1. */
  function Negate(x: SignedSqrt): (r: SignedSqrt)
    ensures forall v :: Denotes(x, v) ==> Denotes(r, -v)
  {
    SignedSqrt(!x.negative, x.square)
  }

  /** The Sharpe ratio `mean(dr - dailyRfr) / std(dr) * sqrt(sf)`, kept as
      the sign of the mean excess return and the square of the ratio. */
  function SharpeRatio(dr: seq<real>, dailyRfr: real, sf: real): (r: SignedSqrt)
    requires |dr| >= 2 && SampleVariance(dr) > 0.0 && sf > 0.0
    ensures r.negative <==> Mean(Excess(dr, dailyRfr)) < 0.0
    ensures r.square * SampleVariance(dr) == Mean(Excess(dr, dailyRfr)) * Mean(Excess(dr, dailyRfr)) * sf
  {
    var m := Mean(Excess(dr, dailyRfr));
    QuotientTimesDivisor(m * m * sf, SampleVariance(dr));
    SignedSqrt(m < 0.0, m * m * sf / SampleVariance(dr))
  }

  /** The signed square root that `SharpeRatio` returns stands for the
      source's formula: the mean excess return divided by the standard
      deviation, times the square root of the sampling frequency. */
  lemma SharpeRatioDenotes(dr: seq<real>, dailyRfr: real, sf: real, sddr: real, rootSf: real)
    requires |dr| >= 2 && SampleVariance(dr) > 0.0 && sf > 0.0
    requires Denotes(Sqrt(SampleVariance(dr)), sddr) && Denotes(Sqrt(sf), rootSf)
    ensures Denotes(SharpeRatio(dr, dailyRfr, sf), Mean(Excess(dr, dailyRfr)) / sddr * rootSf)
  {
    var m := Mean(Excess(dr, dailyRfr));
    var variance := SampleVariance(dr);
    assert sddr > 0.0;
    assert rootSf > 0.0;
    var q := m / sddr;
    assert q * sddr == m;
    var v := q * rootSf;
    assert q * q * variance == m * m by {
      assert q * q * (sddr * sddr) == (q * sddr) * (q * sddr);
    }
    assert q * q == m * m / variance;
    assert v * v == (q * q) * (rootSf * rootSf);
    assert v * v == m * m * sf / variance;
    assert m < 0.0 ==> q < 0.0;
    assert m >= 0.0 ==> q >= 0.0;
  }

  /** What `assess_portfolio` returns: cumulative return, average daily
      return, standard deviation of the daily returns, Sharpe ratio and end value. */
  datatype Stats = Stats(cr: real, adr: real, sddr: SignedSqrt, sr: SignedSqrt, ev: real)

  /** `port_val[-1] / port_val[0] - 1`. */
  function CumulativeReturn(pv: seq<real>): (cr: real)
    requires |pv| > 0 && pv[0] != 0.0
    ensures (1.0 + cr) * pv[0] == pv[|pv| - 1]
  {
    QuotientTimesDivisor(pv[|pv| - 1], pv[0]);
    pv[|pv| - 1] / pv[0] - 1.0
  }

  /** The cumulative return compounds the daily returns, and the end value
      is the start value grown by the ratio of the last value to the first. */
  lemma CumulativeReturnCompounds(pv: seq<real>, sv: real)
    requires |pv| > 0 && pv[0] != 0.0 && NonzeroPredecessors(pv)
    ensures 1.0 + CumulativeReturn(pv) == Growth(DailyReturns(pv))
    ensures (1.0 + CumulativeReturn(pv)) * sv == (pv[|pv| - 1] / pv[0]) * sv
  {
    GrowthCompoundsReturns(pv);
    var g := Growth(DailyReturns(pv));
    QuotientUnique(pv[0], pv[|pv| - 1], g);
    EqualTimes(1.0 + CumulativeReturn(pv), pv[|pv| - 1] / pv[0], sv);
  }

  /** Every figure of the statistics is a finite real. */
  predicate StatisticsDefined(pv: seq<real>, sf: real)
  {
    && sf > 0.0
    && |pv| >= 2
    && NonzeroPredecessors(pv)
    && SampleVariance(DailyReturns(pv)) > 0.0
  }

  /** The statistics of a portfolio value series `pv` with start value `sv`,
      daily risk-free rate `dailyRfr` and sampling frequency `sf`. */
  function PortfolioStatistics(pv: seq<real>, sv: real, dailyRfr: real, sf: real): (r: Result<Stats>)
    ensures r.Ok? <==> StatisticsDefined(pv, sf)
    ensures r.Ok? ==> r.value == StatisticsOf(pv, sv, dailyRfr, sf)
  {
    if |pv| == 0 then Err(EmptyTable)
    else if sf <= 0.0 then Err(InvalidSamplingFrequency)
    else if pv[0] == 0.0 || !NonzeroPredecessors(pv) then Err(DivisionByZero)
    else if |pv| < 2 then Err(UndefinedRatio)
    else
      var dr := DailyReturns(pv);
      VarianceZeroIffConstant(dr);
      if SampleVariance(dr) == 0.0 then Err(UndefinedRatio)
      else Ok(StatisticsOf(pv, sv, dailyRfr, sf))
  }

  /** The figures `assess_portfolio` computes once they are all finite:
      `1 + cr` compounds the daily returns, `adr` is their mean, `sddr`
      stands for the non-negative root of their sample variance (divisor
      N-1), `sr` is the Sharpe ratio and `ev` is `sv` grown by last over first. */
  function StatisticsOf(pv: seq<real>, sv: real, dailyRfr: real, sf: real): (s: Stats)
    requires StatisticsDefined(pv, sf)
    ensures 1.0 + s.cr == Growth(DailyReturns(pv))
    ensures s.ev == (pv[|pv| - 1] / pv[0]) * sv
    ensures s.adr == Mean(DailyReturns(pv))
    ensures forall v :: Denotes(s.sddr, v) <==> v >= 0.0 && v * v == SampleVariance(DailyReturns(pv))
  {
    var dr := DailyReturns(pv);
    var cr := CumulativeReturn(pv);
    CumulativeReturnCompounds(pv, sv);
    Stats(cr, Mean(dr), Sqrt(SampleVariance(dr)), SharpeRatio(dr, dailyRfr, sf), (1.0 + cr) * sv)
  }

  /** A portfolio whose value never changes has no Sharpe ratio. */
  lemma ConstantPortfolioUndefinedRatio(pv: seq<real>, sv: real, dailyRfr: real, sf: real)
    requires |pv| >= 2 && pv[0] != 0.0 && sf > 0.0
    requires forall i :: 0 <= i < |pv| ==> pv[i] == pv[0]
    ensures PortfolioStatistics(pv, sv, dailyRfr, sf) == Err(UndefinedRatio)
  {
    ConstantSeriesReturnsZero(pv);
    var dr := DailyReturns(pv);
    VarianceZeroIffConstant(dr);
  }

  /** Only the shape of the value series matters: scaling it by any nonzero
      factor, with any start value, leaves success and failure, the
      cumulative return, the average daily return, the volatility and the
      Sharpe ratio unchanged. */
  lemma StatisticsIgnoreScale(pv: seq<real>, c: real, sv: real, sv': real, dailyRfr: real, sf: real)
    requires c != 0.0
    ensures var a, b := PortfolioStatistics(pv, sv, dailyRfr, sf), PortfolioStatistics(Scale(c, pv), sv', dailyRfr, sf);
      && (a.Err? ==> b == a)
      && (a.Ok? ==> b.Ok? && a.value.cr == b.value.cr && a.value.adr == b.value.adr
                    && a.value.sddr == b.value.sddr && a.value.sr == b.value.sr)
  {
    var t := Scale(c, pv);
    assert forall i :: 0 <= i < |pv| ==> (t[i] == 0.0 <==> pv[i] == 0.0);
    if |pv| > 0 && NonzeroPredecessors(pv) {
      DailyReturnsIgnoreScale(pv, c);
      if pv[0] != 0.0 {
        QuotientCancels(c, pv[|pv| - 1], pv[0]);
      }
    }
  }

  /** At any daily risk-free rate the Sharpe ratio stands for the average
      daily return less that rate, over the volatility, times the square
      root of the sampling frequency. */
  lemma StatisticsSharpe(pv: seq<real>, sv: real, dailyRfr: real, sf: real, sddr: real, rootSf: real)
    requires PortfolioStatistics(pv, sv, dailyRfr, sf).Ok?
    requires Denotes(PortfolioStatistics(pv, sv, dailyRfr, sf).value.sddr, sddr)
    requires Denotes(Sqrt(sf), rootSf)
    ensures var s := PortfolioStatistics(pv, sv, dailyRfr, sf).value;
      Denotes(s.sr, (s.adr - dailyRfr) / sddr * rootSf)
  {
    var dr := DailyReturns(pv);
    MeanExcess(dr, dailyRfr);
    SharpeRatioDenotes(dr, dailyRfr, sf, sddr, rootSf);
  }

  /** With a daily risk-free rate of 0 the Sharpe ratio is the average daily
      return over the volatility, times the square root of the sampling
      frequency. */
  lemma ZeroRateSharpe(pv: seq<real>, sv: real, sf: real, sddr: real, rootSf: real)
    requires PortfolioStatistics(pv, sv, 0.0, sf).Ok?
    requires Denotes(PortfolioStatistics(pv, sv, 0.0, sf).value.sddr, sddr)
    requires Denotes(Sqrt(sf), rootSf)
    ensures var s := PortfolioStatistics(pv, sv, 0.0, sf).value;
      Denotes(s.sr, s.adr / sddr * rootSf)
  {
    StatisticsSharpe(pv, sv, 0.0, sf, sddr, rootSf);
    var s := PortfolioStatistics(pv, sv, 0.0, sf).value;
    assert s.adr - 0.0 == s.adr;
  }

  /** `x ** n` for a whole exponent `n`. */
  function Power(x: real, n: nat): real
  {
    if n == 0 then 1.0 else x * Power(x, n - 1)
  }

  /** `d` is the daily rate `(1 + rfr) ** (1 / sf) - 1` of the rate `rfr`
      over `sf` periods: `1 + d` is non-negative and compounds to `1 + rfr`
      over `sf` periods. */
  predicate IsDailyRate(rfr: real, sf: nat, d: real): (b: bool)
    ensures sf == 1 ==> (b <==> 1.0 + rfr >= 0.0 && d == rfr)
  {
    var growth := Power(1.0 + d, sf);
    assert sf == 1 ==> growth == (1.0 + d) * Power(1.0 + d, 0);
    1.0 + d >= 0.0 && growth == 1.0 + rfr
  }

  /** Every power of 1 is 1. */
  lemma {:induction false} PowerOfOne(n: nat)
    ensures Power(1.0, n) == 1.0
  {
    if n > 0 {
      PowerOfOne(n - 1);
    }
  }

  /** A positive power of a real above 1 is above 1. */
  lemma {:induction false} PowerAboveOne(x: real, n: nat)
    requires x > 1.0 && n > 0
    ensures Power(x, n) > 1.0
  {
    if n > 1 {
      PowerAboveOne(x, n - 1);
      ProductAboveOne(x, Power(x, n - 1));
    }
  }

  /** A positive power of a real in `[0, 1)` is in `[0, 1)`. */
  lemma {:induction false} PowerBelowOne(x: real, n: nat)
    requires 0.0 <= x < 1.0 && n > 0
    ensures 0.0 <= Power(x, n) < 1.0
  {
    if n == 1 {
      assert Power(x, 1) == x * Power(x, 0) == x * 1.0;
    } else {
      PowerBelowOne(x, n - 1);
      ProductBelowOne(x, Power(x, n - 1));
    }
  }

  /** A rate of 0 has the daily rate 0, and no other. */
  lemma ZeroRateIsZeroDaily(sf: nat)
    requires sf > 0
    ensures IsDailyRate(0.0, sf, 0.0)
    ensures forall d :: IsDailyRate(0.0, sf, d) ==> d == 0.0
  {
    PowerOfOne(sf);
    forall d | IsDailyRate(0.0, sf, d) ensures d == 0.0 {
      if d > 0.0 {
        PowerAboveOne(1.0 + d, sf);
      } else if d < 0.0 {
        PowerBelowOne(1.0 + d, sf);
      }
    }
  }
}
