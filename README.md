# Portfolio assessor and optimizer setup, modelled in Dafny

This project models the statistics pipeline that `analysis.py` and
`optimization.py` both run. The second script repeats the first one's
helpers with the same computations, at lines 19-85. Its `assess_portfolio`
drops the printing and calls the end value `er`. The model builds that pipeline
once and proves properties about it.

The pipeline has these stages:

- **Loading (`get_data`).** For every calendar day between the start and
  end dates, left-join each symbol's adjusted-close column on date, then
  drop every day on which some symbol has no price.
- **Normalizing (`normalize_data`).** Divide each column by its first-row
  value.
- **Valuing the portfolio.** Weight the normalized prices by the
  allocations, scale them by the start value, and sum each row.
- **Statistics.** Compute the single-series daily returns and then the
  statistics of `assess_portfolio`: cumulative return, average daily return,
  standard deviation of the daily returns, Sharpe ratio and end value.
- **Optimizer setup.** The optimizer gets the `sharpe_ratio` objective, a
  uniform initial guess, one `[0, 1]` bound per symbol and the sum-to-one
  equality constraint. The report on the allocations it returns comes from
  `assess_portfolio` with a start value of 1.

Numbers are exact `real`s. A square root is kept as a `SignedSqrt`, a sign
plus the number under the root. The ghost predicate `Denotes` ties a
`SignedSqrt` to the one real number it stands for.

The model follows the source wherever pandas would raise. These cases
become an `Err` of the `Error` datatype, in the order the source reaches
them. The contracts of `Assessor.AssessPortfolio` and
`Optimizer.PrepareOptimization` state each case with its error:

- a missing price file and a repeated symbol, both met while joining;
- an empty table, met when the first row is read;
- allocations of the wrong length, met when weighting;
- a sampling frequency that has no reciprocal or square root.

After those come results that pandas would give as `inf` or `NaN`. These
also become an `Err`: `DivisionByZero` for a zero divisor, and
`UndefinedRatio` for a standard deviation that is zero or undefined
because there are fewer than two days.

An empty table after alignment is not an error of `get_data` itself.
It only fails when the first row is read (`df.ix[0,:]`, analysis.py:36),
and the model follows the code there.

Modules, one per file:

- `Common`: `Option`, `Error`, `Result`.
- `Series`: sums, scaling, arithmetic lemmas.
- `Loader`: `symbol_to_path` and `get_data`.
- `Normalizer`: `normalize_data`.
- `Returns`: `compute_daily_returns`.
- `Valuation`: `alloced`, `pos_vals` and `port_val`.
- `Statistics`: the statistics of `assess_portfolio`.
- `Assessor`: `assess_portfolio`.
- `Optimizer`: `sharpe_ratio` and `optimize_portfolio`.

The loop of `get_data` and the in-place write in `compute_daily_returns`
are methods: `Loader.JoinColumns`, `Loader.DropMissing`, `Loader.GetData`
and `Returns.ComputeDailyReturns`. `Loader.JoinColumns` is proved against
the cells a left join produces. The other three are proved equal to the
functions that the rest of the model uses.

## Model

| member | source | states |
|---|---|---|
| Loader.SymbolToPath | analysis.py:18-20 | the path is `data/`, then the symbol, then `.csv`, 9 characters longer than the symbol (also optimization.py:19-21) |
| Loader.SymbolToPathInjective | analysis.py:18-20 | two symbols with the same path are the same symbol |
| Loader.DateRange | analysis.py:49 | exactly the days from `sd` to `ed`, inclusive, in strictly increasing order; empty when `sd > ed` |
| Loader.KeptDates | analysis.py:31 | `dropna` keeps a date exactly when every symbol has a price on it, keeps no more dates than it was given, and keeps increasing order |
| Loader.AlignedRows | analysis.py:31 | `dropna` keeps at most one row per date, each with one entry per symbol; `Loader.AlignedRowsOfKeptDates` says which rows |
| Loader.AlignedRowsOfKeptDates | analysis.py:31 | there is one kept row per kept date; each kept date is complete, and its row holds that date's prices in symbol order |
| Loader.PriceRow | analysis.py:30 | on a complete day, entry `k` of the row is the price of symbol `k` |
| Loader.AlignedTable | analysis.py:22-32 | a loaded table has the requested columns in order and is rectangular; its dates are exactly the window's complete dates, in increasing order, and cell `[i][k]` is the price of symbol `k` on date `i` (also optimization.py:23-33) |
| Loader.LoadErrorFrom | analysis.py:25-30 | an error of the join loop is a missing price file, whose path is not in the data directory, or an overlapping column, whose symbol already appears earlier in the list; both name a symbol still to be joined |
| Loader.LoadErrorFromNone | analysis.py:25-30 | the join loop raises nothing exactly when every remaining symbol has a price file and was not joined before |
| Loader.AlignedTableOk | analysis.py:25-31 | loading succeeds exactly when every symbol has a price file and no symbol is requested twice |
| Loader.JoinColumns | analysis.py:24-30 | the join loop fails with the first missing file or repeated column, in symbol order; otherwise cell `[i][k]` holds what symbol `k`'s file has for date `i`, and `nan` or a missing date reads as missing |
| Loader.RowPresentIffComplete | analysis.py:31 | a joined row has no missing cell exactly when its date is complete, and it then holds that date's prices |
| Loader.KeptDatesStep | analysis.py:31 | one more date adds that date and its row to what `dropna` keeps exactly when the date is complete |
| Loader.DropMissing | analysis.py:31 | the `dropna` loop returns exactly the kept dates and kept rows |
| Loader.GetData | analysis.py:22-32 | the join loop followed by `dropna` computes the aligned table, or the load error |
| Normalizer.Normalize | analysis.py:34-36 | the table keeps its shape, every first-row entry is 1, and each entry times its column's first value gives back the price (also optimization.py:35-37) |
| Normalizer.NormalizeIdempotent | analysis.py:36 | normalizing a normalized table changes nothing |
| Normalizer.NormalizeIgnoresPriceLevel | analysis.py:34-36 | scaling any column by a nonzero factor leaves the normalized table unchanged |
| Returns.DailyReturns | analysis.py:38-42 | the returns have the length of the series, and the first return is 0 (also optimization.py:39-43) |
| Returns.ComputeDailyReturns | analysis.py:38-42 | dividing by the shifted series and then overwriting day 0 with 0 gives exactly `DailyReturns` |
| Returns.DailyReturnGrows | analysis.py:40 | for `i > 0`, `s[i-1] * (1 + r[i]) == s[i]`, which holds exactly when `r[i] == s[i]/s[i-1] - 1` |
| Returns.DailyReturnsPrefix | analysis.py:40 | the returns of a prefix are the prefix of the returns |
| Returns.GrowthCompoundsReturns | analysis.py:40-42 | compounding every daily return from the first value gives the last value |
| Returns.DailyReturnsIgnoreScale | analysis.py:53-55 | scaling the series by a nonzero factor leaves every daily return unchanged |
| Returns.ConstantSeriesReturnsZero | analysis.py:40-42 | a constant nonzero series has all daily returns 0 |
| Valuation.Allocate | analysis.py:52 | `normed * allocs` has one row per day and one column per allocation |
| Valuation.PositionValues | analysis.py:53 | `alloced * sv` keeps that shape |
| Valuation.RowSums | analysis.py:54 | `sum(axis=1)` gives one total per row |
| Valuation.PortfolioValues | analysis.py:51-54 | the portfolio value has one entry per day |
| Valuation.WeightedValues | optimization.py:96-97 | the objective's portfolio value has one entry per day |
| Valuation.PortfolioValuesFactor | analysis.py:52-54 | the portfolio value is the start value times the objective's weighted row sums (optimization.py:96-97) |
| Valuation.PortfolioStartValue | analysis.py:51-54 | on a normalized table the day-0 value is `sv * sum(allocs)`, so it is `sv` when the allocations sum to 1 |
| Valuation.PortfolioSingleSymbol | analysis.py:52-54 | with allocation 1 on one symbol and 0 on all others, the portfolio value is `sv` times that symbol's normalized prices |
| Statistics.Mean | analysis.py:59 | `mean()` times the count is the sum |
| Statistics.Excess | analysis.py:66 | `daily_returns - dailyrfr` has the length of the returns |
| Statistics.MeanExcess | analysis.py:64-66 | the mean excess return is the mean return less the daily rate; at rate 0 the excess returns are the returns |
| Statistics.SampleVariance | analysis.py:60 | the square of `std()` is non-negative, and times N-1 it is the sum of squared deviations from the mean |
| Statistics.VarianceZeroIffConstant | analysis.py:60 | the sample variance (divisor N-1) is never negative, and it is 0 exactly when the series is constant |
| Statistics.DenotesUnique | analysis.py:60 | a signed square root stands for at most one real |
| Statistics.Sqrt | analysis.py:60 | `sddr` stands for exactly the non-negative real whose square is the variance |
| Statistics.Negate | optimization.py:101 | `sr*-1` stands for the negation of what `sr` stands for |
| Statistics.SharpeRatio | analysis.py:66 | `sr` is kept as the sign of the mean excess return and a square that, times the variance, is the squared mean excess times `sf`; `Statistics.SharpeRatioDenotes` says which real it stands for |
| Statistics.SharpeRatioDenotes | analysis.py:66 | the Sharpe ratio stands for the mean excess return over `sddr`, times `sqrt(sf)` |
| Statistics.CumulativeReturn | analysis.py:58 | `1 + cr` times the first value is the last value |
| Statistics.CumulativeReturnCompounds | analysis.py:58-69 | `1 + cr` is the compounded daily returns, and `ev = (1+cr)*sv` is `sv` times `port_val[-1]/port_val[0]` |
| Statistics.PortfolioStatistics | analysis.py:55-69 | the statistics exist exactly when `sf > 0`, there are at least two days, no divisor is zero and the variance is positive; they are then `StatisticsOf` the series |
| Statistics.StatisticsOf | analysis.py:58-69 | `1 + cr` is the compounded growth, `adr` is the mean of the daily returns, `sddr` stands for exactly the non-negative root of their N-1 sample variance, and `ev` is `sv` times last over first |
| Statistics.StatisticsSharpe | analysis.py:59-66 | at any daily rate the Sharpe ratio stands for `(adr - dailyrfr) / sddr * sqrt(sf)` |
| Statistics.ConstantPortfolioUndefinedRatio | analysis.py:60-66 | a portfolio whose value never changes has an undefined Sharpe ratio |
| Statistics.StatisticsIgnoreScale | analysis.py:53-66 | scaling the value series by a nonzero factor gives the same outcome, and the same cr, adr, sddr and sr |
| Statistics.ZeroRateSharpe | analysis.py:59-66 | with daily rate 0 the Sharpe ratio stands for `adr / sddr * sqrt(sf)` |
| Statistics.IsDailyRate | analysis.py:64 | `dailyrfr` makes `1 + dailyrfr` non-negative and compounds to `1 + rfr` over `sf` periods; with `sf = 1` it is `rfr` itself |
| Statistics.ZeroRateIsZeroDaily | analysis.py:64 | 0 is the only daily rate that compounds to a rate of 0 |
| Assessor.TableValues | analysis.py:51-54 | the value series has one entry per day, and the day-0 entry is `sv * sum(allocs)` |
| Assessor.AssessPortfolio | analysis.py:44-69 | a load error is returned unchanged. For a loaded table the checks fail in source order: no row gives `EmptyTable`, then a length mismatch gives `DimensionMismatch`, then `sf <= 0` gives `InvalidSamplingFrequency`, then a zero first price gives `DivisionByZero`. A successful assessment needs every symbol to have a file, no symbol twice, at least two days, nonzero first prices, one allocation per symbol, `sf > 0`, a nonzero start value and allocations with a nonzero sum (also optimization.py:45-70) |
| Assessor.AssessedStatistics | analysis.py:49-69 | once loading, the table, the allocations, the first prices and `sf` pass, the assessment is `PortfolioStatistics` of the value series |
| Assessor.AssessedSharpe | analysis.py:59-66 | whatever the daily rate, the reported `sr` stands for the reported `(adr - dailyrfr) / sddr * sqrt(sf)` |
| Assessor.EndValueIsLastValue | analysis.py:58-69 | with allocations summing to 1, `ev` is the last portfolio value |
| Assessor.StartValueCancels | analysis.py:53-61 | any two nonzero start values give the same outcome, and the same cr, adr, sddr and sr |
| Optimizer.InitialGuess | optimization.py:112 | the guess has one entry per symbol, all entries are equal, and they sum to 1 |
| Optimizer.Bounds | optimization.py:113 | there is one `(0, 1)` bound per symbol |
| Optimizer.EqualityConstraint | optimization.py:118 | `1 - sum(allocs)` is zero exactly when the allocations sum to 1 |
| Optimizer.InitialGuessFeasible | optimization.py:112-118 | the initial guess is within the bounds and meets the equality constraint |
| Optimizer.SharpeObjective | optimization.py:89-101 | allocations of the wrong length fail with `DimensionMismatch`; a defined objective needs at least two days |
| Optimizer.ObjectiveOfValues | optimization.py:98-101 | the objective is defined exactly when the statistics of the weighted values are defined at 252 days |
| Optimizer.ObjectiveDenotes | optimization.py:98-101 | the objective stands for `-(mean(daily_returns) / sddr * sqrt(252))` |
| Optimizer.PrepareOptimization | optimization.py:105-113 | a problem is prepared exactly when the table loads, is non-empty, has at least one symbol and has nonzero first prices. Otherwise the load error is returned unchanged, no row gives `EmptyTable`, no symbol gives `NoSymbols`, and a zero first price gives `DivisionByZero`. Its table is that table normalized, so one column per symbol with a first row of 1s; its bounds are one `(0, 1)` per symbol, and its guess is `InitialGuess(len(syms))`, which is feasible |
| Optimizer.ObjectiveMatchesStatistics | optimization.py:96-101 | on any value series, the objective is defined exactly when the statistics of that series scaled by a nonzero start value are, and it is then the negated `sr` |
| Optimizer.ObjectiveIsNegatedAssessedSharpe | optimization.py:89-101 | for any allocations, the objective is defined exactly when `assess_portfolio` with rate 0, `sf = 252` and any nonzero `sv` succeeds, and it is then that run's `sr` negated (analysis.py:53-66) |
| Optimizer.FinalReport | optimization.py:121 | a successful report needs one allocation per symbol with a nonzero sum |
| Optimizer.FinalReportEndValue | optimization.py:121 | with `sv = 1` the reported end value is `port_val[-1] / port_val[0]` (optimization.py:59, 70) |

## Left out

- Reading the CSV files (`pd.read_csv`, parsing dates, choosing columns) is file I/O. The data directory is an input map from path to price file, and a price file maps a date to a price or to a cell read as `nan`.
- Dates are day numbers. Parsing them and the calendar of `pd.date_range` are not modelled.
- A CSV with the same date twice is not modelled. A price file holds at most one row per date.
- The SLSQP search (`spo.minimize`, optimization.py:116-118) is an external solver. Nothing is claimed about optimality, convergence or a failed solver run. Its result is the arbitrary input `x` of `Optimizer.FinalReport`.
- Plotting, the SPY comparison and every `print` (analysis.py:71-92, optimization.py:72-82 and 123-131) are not modelled. With `gen_plot` true the source also loads `data/SPY.csv` (analysis.py:76, optimization.py:77) and normalizes it. It can raise there: an IOError when the file is missing, or an IndexError when SPY has no date in the window. `optimize_portfolio` passes `gen_plot` on (optimization.py:121). The model does not capture these failures: it behaves as if `gen_plot` were false.
- Floating-point rounding is not modelled. Every number is an exact real.
- Results that pandas gives as `inf` or `NaN` are modelled as an `Err`. The model does not carry such values forward.
- Assessor.AssessPortfolio: pandas' NaN-skipping in `sum(axis=1)`, `mean()` and `std()` is not modelled. For example, a symbol with a zero first price and allocation 0 gives a `NaN` column in `normed * allocs`. The row sums skip that column, so the source reports finite statistics, while the model returns `Err(DivisionByZero)` for any zero first price. `Optimizer.PrepareOptimization` does the same.
- Statistics.SharpeRatio: a square root is not a Dafny operation. `sddr` and `sr` are kept as signed square roots, and `Denotes` states which real they stand for.
- Assessor.AssessPortfolio: takes the daily risk-free rate `(1 + rfr) ** (1 / sf) - 1` as the input `dailyRfr`, because fractional powers are not available. `Statistics.IsDailyRate` characterizes that rate only for a whole-number `sf`.
- Assessor.AssessPortfolio: the error that the source raises for `1 + rfr < 0` is not modelled, because `rfr` itself is not an input.
- Returns over a table with several columns are not modelled. The source comments that the day-0 overwrite only works for one column (analysis.py:41), and the model computes returns on a single series only.
- Returns.DailyReturns: its contract states only the length and day 0. The value of every later day is stated by `Returns.DailyReturnGrows`, and `Returns.ComputeDailyReturns` shows that the overwrite-in-place computation gives this function.
- Optimizer.SharpeObjective: the objective's table and the width it is evaluated with come from `Optimizer.PrepareOptimization`. Allocations of any length are still accepted and rejected as the source would.
