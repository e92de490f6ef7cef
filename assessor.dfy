/** `assess_portfolio`: load and align the prices, normalize them, value the
    portfolio and compute its statistics. */
module Assessor {
  import opened Common
  import opened Series
  import opened Loader
  import opened Normalizer
  import opened Returns
  import opened Valuation
  import opened Statistics

  /** The portfolio value series of an aligned price table: normalized
      prices weighted by the allocations and scaled by the start value,
      summed per day. */
  function TableValues(rows: seq<seq<real>>, allocs: seq<real>, sv: real): (pv: seq<real>)
    requires |rows| > 0 && Rectangular(rows, |allocs|) && NonzeroEntries(rows[0])
    ensures |pv| == |rows|
    ensures pv[0] == sv * Sum(allocs)
  {
    PortfolioStartValue(Normalize(rows), allocs, sv);
    PortfolioValues(Normalize(rows), allocs, sv)
  }

  /** The statistics of a portfolio of `syms` held in proportions `allocs`
      from day `sd` to day `ed` with start value `sv`. `dailyRfr` is the
      daily risk-free rate `(1 + rfr) ** (1 / sf) - 1`.

      The checks come in the order in which the source would raise: a
      missing or repeated symbol while loading, an empty table when the
      first row is read, allocations of the wrong length when weighting,
      and a sampling frequency with no reciprocal or square root. Only then
      come the zero divisors and undefined ratios that make the source
      produce `inf` or `NaN`. */
  function AssessPortfolio(store: PriceStore, sd: Date, ed: Date, syms: seq<Symbol>, allocs: seq<real>,
                           sv: real, dailyRfr: real, sf: real): (r: Result<Stats>)
    ensures r.Ok? ==> (forall k :: 0 <= k < |syms| ==> SymbolToPath(syms[k]) in store) && Distinct(syms)
    ensures r.Ok? ==> |allocs| == |syms| && sf > 0.0
    ensures r.Ok? ==> sv != 0.0 && Sum(allocs) != 0.0
    ensures AlignedTable(store, syms, DateRange(sd, ed)).Err? ==>
      r == Err(AlignedTable(store, syms, DateRange(sd, ed)).error)
    ensures var t := AlignedTable(store, syms, DateRange(sd, ed));
      t.Ok? && |t.value.rows| == 0 ==> r == Err(EmptyTable)
    ensures var t := AlignedTable(store, syms, DateRange(sd, ed));
      t.Ok? && |t.value.rows| > 0 && |allocs| != |syms| ==> r == Err(DimensionMismatch)
    ensures var t := AlignedTable(store, syms, DateRange(sd, ed));
      t.Ok? && |t.value.rows| > 0 && |allocs| == |syms| && sf <= 0.0 ==> r == Err(InvalidSamplingFrequency)
    ensures var t := AlignedTable(store, syms, DateRange(sd, ed));
      t.Ok? && |t.value.rows| > 0 && |allocs| == |syms| && sf > 0.0 && !NonzeroEntries(t.value.rows[0]) ==>
        r == Err(DivisionByZero)
    ensures var t := AlignedTable(store, syms, DateRange(sd, ed));
      r.Ok? ==> t.Ok? && |t.value.rows| >= 2 && NonzeroEntries(t.value.rows[0])
  {
    AlignedTableOk(store, syms, DateRange(sd, ed));
    match AlignedTable(store, syms, DateRange(sd, ed))
    case Err(e) => Err(e)
    case Ok(table) =>
      var rows := table.rows;
      if |rows| == 0 then Err(EmptyTable)
      else if |allocs| != |syms| then Err(DimensionMismatch)
      else if sf <= 0.0 then Err(InvalidSamplingFrequency)
      else if !NonzeroEntries(rows[0]) then Err(DivisionByZero)
      else
        var pv := TableValues(rows, allocs, sv);
        NonzeroFactors(sv, Sum(allocs));
        PortfolioStatistics(pv, sv, dailyRfr, sf)
  }

  /** The value series that `AssessPortfolio` computes its statistics on. */
  predicate AssessedValues(store: PriceStore, sd: Date, ed: Date, syms: seq<Symbol>, allocs: seq<real>,
                           sv: real, pv: seq<real>)
  {
    var t := AlignedTable(store, syms, DateRange(sd, ed));
    && t.Ok? && |t.value.rows| > 0 && |allocs| == |syms| && NonzeroEntries(t.value.rows[0])
    && pv == TableValues(t.value.rows, allocs, sv)
  }

  /** Once the table is loaded, non-empty, matched by the allocations and
      free of zero first prices, and the sampling frequency is positive, the
      assessment is the statistics of its value series. */
  lemma AssessedStatistics(store: PriceStore, sd: Date, ed: Date, syms: seq<Symbol>, allocs: seq<real>,
                           sv: real, dailyRfr: real, sf: real, pv: seq<real>)
    requires AssessedValues(store, sd, ed, syms, allocs, sv, pv) && sf > 0.0
    ensures AssessPortfolio(store, sd, ed, syms, allocs, sv, dailyRfr, sf) == PortfolioStatistics(pv, sv, dailyRfr, sf)
  {
  }

  /** At any daily risk-free rate the reported Sharpe ratio stands for the
      reported average daily return less that rate, over the reported
      volatility, times the square root of the sampling frequency. */
  lemma AssessedSharpe(store: PriceStore, sd: Date, ed: Date, syms: seq<Symbol>, allocs: seq<real>,
                       sv: real, dailyRfr: real, sf: real, pv: seq<real>, a: Result<Stats>, sddr: real, rootSf: real)
    requires AssessedValues(store, sd, ed, syms, allocs, sv, pv)
    requires a == AssessPortfolio(store, sd, ed, syms, allocs, sv, dailyRfr, sf) && a.Ok?
    requires Denotes(a.value.sddr, sddr) && Denotes(Sqrt(sf), rootSf)
    ensures Denotes(a.value.sr, (a.value.adr - dailyRfr) / sddr * rootSf)
  {
    AssessedStatistics(store, sd, ed, syms, allocs, sv, dailyRfr, sf, pv);
    SameStatisticsSharpe(a, pv, sv, dailyRfr, sf, sddr, rootSf);
  }

  /** `StatisticsSharpe` for any outcome equal to `PortfolioStatistics`. */
  lemma SameStatisticsSharpe(a: Result<Stats>, pv: seq<real>, sv: real, dailyRfr: real, sf: real, sddr: real, rootSf: real)
    requires a == PortfolioStatistics(pv, sv, dailyRfr, sf) && a.Ok?
    requires Denotes(a.value.sddr, sddr) && Denotes(Sqrt(sf), rootSf)
    ensures Denotes(a.value.sr, (a.value.adr - dailyRfr) / sddr * rootSf)
  {
    StatisticsSharpe(pv, sv, dailyRfr, sf, sddr, rootSf);
  }

  /** With allocations summing to 1 the end value is the last portfolio value. */
  lemma EndValueIsLastValue(store: PriceStore, sd: Date, ed: Date, syms: seq<Symbol>, allocs: seq<real>,
                            sv: real, dailyRfr: real, sf: real, pv: seq<real>)
    requires Sum(allocs) == 1.0
    requires AssessedValues(store, sd, ed, syms, allocs, sv, pv)
    requires AssessPortfolio(store, sd, ed, syms, allocs, sv, dailyRfr, sf).Ok?
    ensures AssessPortfolio(store, sd, ed, syms, allocs, sv, dailyRfr, sf).value.ev == pv[|pv| - 1]
  {
    AssessedStatistics(store, sd, ed, syms, allocs, sv, dailyRfr, sf, pv);
    EndValueOfStatistics(AssessPortfolio(store, sd, ed, syms, allocs, sv, dailyRfr, sf), pv, sv, dailyRfr, sf);
  }

  /** A successful `PortfolioStatistics` of a series that starts at `sv`
      reports the last value as its end value. */
  lemma EndValueOfStatistics(a: Result<Stats>, pv: seq<real>, sv: real, dailyRfr: real, sf: real)
    requires a == PortfolioStatistics(pv, sv, dailyRfr, sf) && a.Ok? && pv[0] == sv
    ensures a.value.ev == pv[|pv| - 1]
  {
    QuotientTimesDivisor(pv[|pv| - 1], sv);
  }

  /** The start value cancels: any two nonzero start values give the same
      outcome, and on success the same cumulative return, average daily
      return, volatility and Sharpe ratio. */
  lemma StartValueCancels(store: PriceStore, sd: Date, ed: Date, syms: seq<Symbol>, allocs: seq<real>,
                          sv: real, sv': real, dailyRfr: real, sf: real)
    requires sv != 0.0 && sv' != 0.0
    ensures var a, b := AssessPortfolio(store, sd, ed, syms, allocs, sv, dailyRfr, sf),
                        AssessPortfolio(store, sd, ed, syms, allocs, sv', dailyRfr, sf);
      && (a.Err? ==> b == a)
      && (a.Ok? ==> b.Ok? && a.value.cr == b.value.cr && a.value.adr == b.value.adr
                    && a.value.sddr == b.value.sddr && a.value.sr == b.value.sr)
  {
    var t := AlignedTable(store, syms, DateRange(sd, ed));
    if t.Ok? && |t.value.rows| > 0 && |allocs| == |syms| && sf > 0.0 && NonzeroEntries(t.value.rows[0]) {
      var normed := Normalize(t.value.rows);
      var w := WeightedValues(normed, allocs);
      PortfolioValuesFactor(normed, allocs, sv);
      PortfolioValuesFactor(normed, allocs, sv');
      StatisticsIgnoreScale(w, sv, 1.0, sv, dailyRfr, sf);
      StatisticsIgnoreScale(w, sv', 1.0, sv', dailyRfr, sf);
    }
  }
}
