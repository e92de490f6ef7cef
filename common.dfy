/** Shared vocabulary of the portfolio pipeline: optional values, the failures
    the pipeline can end in, and a result type that carries either. */
module Common {

  /** A value that may be missing; `None` stands for pandas' NaN in a cell. */
  datatype Option<T> = None | Some(value: T)

  /** Why a run of the pipeline produced no figures. */
  datatype Error =
    /** `read_csv` found no price file for the symbol (an IOError). */
    | MissingPriceFile(symbol: string)
    /** The symbol was already a column when it was joined (a ValueError). */
    | ColumnOverlap(symbol: string)
    /** No date survived alignment, so there is no first row (an IndexError). */
    | EmptyTable
    /** The allocation vector does not have one entry per column (a ValueError). */
    | DimensionMismatch
    /** No symbols, so the uniform guess divides by zero (a ZeroDivisionError). */
    | NoSymbols
    /** A sampling frequency of zero or less has no real square root (a ZeroDivisionError or ValueError). */
    | InvalidSamplingFrequency
    /** A divisor in normalizing or in the returns is zero: float arithmetic would give inf or NaN. */
    | DivisionByZero
    /** The standard deviation of the daily returns is zero or undefined: the Sharpe ratio would be inf or NaN. */
    | UndefinedRatio

  datatype Result<T> = Ok(value: T) | Err(error: Error)
}
