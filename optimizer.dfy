/** `optimize_portfolio`: the problem handed to the constrained minimizer
    (the negated Sharpe ratio as objective, a uniform initial guess, one
    `[0, 1]` bound per symbol and the sum-to-one constraint) and the final
    report on the allocations it returns. */
module Optimizer {
  import opened Common
  import opened Series
  import opened Loader
  import opened Normalizer
  import opened Returns
  import opened Valuation
  import opened Statistics
  import opened Assessor

  /** The sampling frequency that `sharpe_ratio` and the final report assume. */
  const TradingDays: real := 252.0

  /** `[1. / n] * n`: `n` equal allocations that sum to 1. */
  function InitialGuess(n: nat): (r: seq<real>)
    requires n > 0
    ensures |r| == n
    ensures Sum(r) == 1.0
    ensures forall i, j :: 0 <= i < n && 0 <= j < n ==> r[i] == r[j]
  {
    var guess := seq(n, i requires 0 <= i < n => 1.0 / n as real);
    SumConstant(guess, 1.0 / n as real);
    ReciprocalTimes(n as real);
    guess
  }

  /** A lower and an upper bound on one allocation. */
  datatype Bound = Bound(lo: real, hi: real)

  /** `((0., 1.),) * n`: one `[0, 1]` bound per symbol. */
  function Bounds(n: nat): (r: seq<Bound>)
    ensures |r| == n
    ensures forall i :: 0 <= i < n ==> r[i].lo == 0.0 && r[i].hi == 1.0
  {
    seq(n, i requires 0 <= i < n => Bound(0.0, 1.0))
  }

  /** The equality constraint `1.0 - np.sum(allocs)`, which the minimizer
      drives to zero. */
  function EqualityConstraint(allocs: seq<real>): (r: real)
    ensures r == 0.0 <==> Sum(allocs) == 1.0
  {
    1.0 - Sum(allocs)
  }

  /** Each allocation lies within its bound. */
  predicate WithinBounds(allocs: seq<real>, bounds: seq<Bound>)
  {
    |allocs| == |bounds| && forall i :: 0 <= i < |allocs| ==> bounds[i].lo <= allocs[i] <= bounds[i].hi
  }

  /** The allocations meet the bounds and the equality constraint. */
  predicate Feasible(allocs: seq<real>, bounds: seq<Bound>)
  {
    WithinBounds(allocs, bounds) && EqualityConstraint(allocs) == 0.0
  }

  /** The initial guess is a feasible point of the problem. */
  lemma InitialGuessFeasible(n: nat)
    requires n > 0
    ensures Feasible(InitialGuess(n), Bounds(n))
  {
    var guess := InitialGuess(n);
    ReciprocalAtMostOne(n as real);
    assert guess[0] == 1.0 / n as real;
  }

  /** `sharpe_ratio(allocs, normed)`: the negated Sharpe ratio of the
      allocation-weighted sum of the normalized prices (no start value, a
      risk-free rate of 0 and 252 trading days), or the reason it is not a
      finite number. `width` is the number of columns of `normed`. */
  function SharpeObjective(allocs: seq<real>, normed: seq<seq<real>>, width: nat): (r: Result<SignedSqrt>)
    requires Rectangular(normed, width)
    ensures |allocs| != width ==> r == Err(DimensionMismatch)
    ensures r.Ok? ==> |allocs| == width && |normed| >= 2
  {
    if |allocs| != width then Err(DimensionMismatch)
    else
      var pv := WeightedValues(normed, allocs);
      if |pv| == 0 then Err(EmptyTable) else ObjectiveOfValues(pv)
  }

  /** What the minimizer is given. */
  datatype Problem = Problem(normed: seq<seq<real>>, width: nat, guess: seq<real>, bounds: seq<Bound>)

  /** The preparation in `optimize_portfolio`: load and normalize the
      prices of `syms` from day `sd` to day `ed` and set up the guess and
      the bounds. Loading fails first, then reading the first row of an
      empty table, then the reciprocal of the number of symbols; a zero
      first price makes the normalized table infinite or `NaN`. */
  function PrepareOptimization(store: PriceStore, sd: Date, ed: Date, syms: seq<Symbol>): (r: Result<Problem>)
    ensures r.Ok? ==> r.value.width == |syms| && Rectangular(r.value.normed, |syms|) && |r.value.normed| > 0
    ensures r.Ok? ==> forall j :: 0 <= j < |syms| ==> r.value.normed[0][j] == 1.0
    ensures r.Ok? ==> |r.value.guess| == |syms| && Feasible(r.value.guess, r.value.bounds)
    ensures r.Ok? ==> |syms| > 0 && r.value.guess == InitialGuess(|syms|)
    ensures var t := AlignedTable(store, syms, DateRange(sd, ed));
      r.Ok? <==> t.Ok? && |t.value.rows| > 0 && |syms| > 0 && NonzeroEntries(t.value.rows[0])
    ensures var t := AlignedTable(store, syms, DateRange(sd, ed));
      t.Ok? && |t.value.rows| == 0 ==> r == Err(EmptyTable)
    ensures var t := AlignedTable(store, syms, DateRange(sd, ed));
      t.Ok? && |t.value.rows| > 0 && |syms| == 0 ==> r == Err(NoSymbols)
    ensures var t := AlignedTable(store, syms, DateRange(sd, ed));
      t.Ok? && |t.value.rows| > 0 && |syms| > 0 && !NonzeroEntries(t.value.rows[0]) ==> r == Err(DivisionByZero)
    ensures r.Ok? ==> && AlignedTable(store, syms, DateRange(sd, ed)).Ok?
                      && var rows := AlignedTable(store, syms, DateRange(sd, ed)).value.rows;
                      && |rows| > 0 && Rectangular(rows, |rows[0]|) && NonzeroEntries(rows[0])
                      && r.value.normed == Normalize(rows)
                      && r.value.bounds == Bounds(|syms|)
    ensures AlignedTable(store, syms, DateRange(sd, ed)).Err? ==>
      r == Err(AlignedTable(store, syms, DateRange(sd, ed)).error)
  {
    match AlignedTable(store, syms, DateRange(sd, ed))
    case Err(e) => Err(e)
    case Ok(table) =>
      var rows := table.rows;
      if |rows| == 0 then Err(EmptyTable)
      else if |syms| == 0 then Err(NoSymbols)
      else if !NonzeroEntries(rows[0]) then Err(DivisionByZero)
      else
        InitialGuessFeasible(|syms|);
        Ok(Problem(Normalize(rows), |syms|, InitialGuess(|syms|), Bounds(|syms|)))
  }

  /** The objective is the negation of the Sharpe ratio that
      `assess_portfolio` reports for the same allocations with a risk-free
      rate of 0, 252 trading days and any nonzero start value: both are
      defined for exactly the same allocations. */
  lemma ObjectiveIsNegatedAssessedSharpe(store: PriceStore, sd: Date, ed: Date, syms: seq<Symbol>,
                                         allocs: seq<real>, sv: real)
    requires PrepareOptimization(store, sd, ed, syms).Ok? && sv != 0.0
    ensures var p := PrepareOptimization(store, sd, ed, syms).value;
      var o, a := SharpeObjective(allocs, p.normed, p.width), AssessPortfolio(store, sd, ed, syms, allocs, sv, 0.0, TradingDays);
      && (o.Ok? <==> a.Ok?)
      && (o.Ok? ==> o.value == Negate(a.value.sr))
  {
    var p := PrepareOptimization(store, sd, ed, syms).value;
    var rows := AlignedTable(store, syms, DateRange(sd, ed)).value.rows;
    if |allocs| == |syms| {
      var w := WeightedValues(p.normed, allocs);
      var pv := TableValues(rows, allocs, sv);
      PortfolioValuesFactor(p.normed, allocs, sv);
      assert pv == Scale(sv, w);
      assert AssessedValues(store, sd, ed, syms, allocs, sv, pv);
      AssessedStatistics(store, sd, ed, syms, allocs, sv, 0.0, TradingDays, pv);
      ObjectiveMatchesStatistics(w, sv);
    }
  }

  /** The objective of a weighted value series `w` matches the Sharpe ratio
      of the statistics of `w` scaled by a nonzero start value. */
  lemma ObjectiveMatchesStatistics(w: seq<real>, sv: real)
    requires |w| > 0 && sv != 0.0
    ensures var o, a := ObjectiveOfValues(w), PortfolioStatistics(Scale(sv, w), sv, 0.0, TradingDays);
      && (o.Ok? <==> a.Ok?)
      && (o.Ok? ==> o.value == Negate(a.value.sr))
  {
    var pv := Scale(sv, w);
    assert forall i :: 0 <= i < |w| ==> (pv[i] == 0.0 <==> w[i] == 0.0);
    if NonzeroPredecessors(w) {
      DailyReturnsIgnoreScale(w, sv);
      if |w| >= 2 {
        MeanExcess(DailyReturns(w), 0.0);
      }
    }
  }

  /** The part of `SharpeObjective` after the weighting. */
  function ObjectiveOfValues(pv: seq<real>): (r: Result<SignedSqrt>)
    requires |pv| > 0
    ensures r.Ok? <==> StatisticsDefined(pv, TradingDays)
  {
    if !NonzeroPredecessors(pv) then Err(DivisionByZero)
    else if |pv| < 2 then Err(UndefinedRatio)
    else
      var dr := DailyReturns(pv);
      var variance := SampleVariance(dr);
      VarianceZeroIffConstant(dr);
      if variance == 0.0 then Err(UndefinedRatio)
      else
        var m := Mean(dr);
        Ok(Negate(SignedSqrt(m < 0.0, m * m * TradingDays / variance)))
  }

  /** The signed square root that the objective returns stands for the
      source's `-(mean(daily_returns) / sddr * sqrt(252))`. */
  lemma ObjectiveDenotes(pv: seq<real>, sddr: real, rootDays: real)
    requires |pv| > 0 && ObjectiveOfValues(pv).Ok?
    requires Denotes(Sqrt(SampleVariance(DailyReturns(pv))), sddr) && Denotes(Sqrt(TradingDays), rootDays)
    ensures Denotes(ObjectiveOfValues(pv).value, -(Mean(DailyReturns(pv)) / sddr * rootDays))
  {
    var dr := DailyReturns(pv);
    MeanExcess(dr, 0.0);
    assert ObjectiveOfValues(pv).value == Negate(SharpeRatio(dr, 0.0, TradingDays));
    SharpeRatioDenotes(dr, 0.0, TradingDays, sddr, rootDays);
  }

  /** The final report: `assess_portfolio(sd, ed, syms, x, 1, 0, 252, ...)`
      on the allocations `x` the minimizer returns. */
  function FinalReport(store: PriceStore, sd: Date, ed: Date, syms: seq<Symbol>, x: seq<real>): (r: Result<Stats>)
    ensures r.Ok? ==> |x| == |syms| && Sum(x) != 0.0
  {
    AssessPortfolio(store, sd, ed, syms, x, 1.0, 0.0, TradingDays)
  }

  /** With a start value of 1 the reported end value is the growth of the
      portfolio value from the first day to the last. */
  lemma FinalReportEndValue(store: PriceStore, sd: Date, ed: Date, syms: seq<Symbol>, x: seq<real>, pv: seq<real>)
    requires AssessedValues(store, sd, ed, syms, x, 1.0, pv)
    requires FinalReport(store, sd, ed, syms, x).Ok?
    ensures FinalReport(store, sd, ed, syms, x).value.ev == pv[|pv| - 1] / pv[0]
  {
    AssessedStatistics(store, sd, ed, syms, x, 1.0, 0.0, TradingDays, pv);
  }
}
