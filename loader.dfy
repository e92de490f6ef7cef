/** The price loader: builds one table of adjusted-close prices with a row per
    date of the window on which every requested symbol has a price, and a
    column per symbol in the order requested. */
module Loader {
  import opened Common
  import opened Series

  type Symbol = string

  /** A calendar day, as a day number: consecutive days differ by one. */
  type Date = int

  /** The 'Adj Close' column of one price file, by date; `None` is a cell read as 'nan'. */
  type PriceFile = map<Date, Option<real>>

  /** The data directory: the price files there, by path. */
  type PriceStore = map<string, PriceFile>

  /** The aligned price table: `rows[i][k]` is the price of `symbols[k]` on `dates[i]`. */
  datatype PriceTable = PriceTable(dates: seq<Date>, symbols: seq<Symbol>, rows: seq<seq<real>>)

  /** The path of a symbol's price file: the symbol between "data/" and ".csv". */
  function SymbolToPath(symbol: Symbol): (path: string)
    ensures |path| == |symbol| + 9
    ensures path[..5] == "data/" && path[5..|path| - 4] == symbol && path[|path| - 4..] == ".csv"
  {
    "data/" + symbol + ".csv"
  }

  /** Different symbols never share a price file. */
  lemma SymbolToPathInjective(a: Symbol, b: Symbol)
    ensures SymbolToPath(a) == SymbolToPath(b) ==> a == b
  {
    if SymbolToPath(a) == SymbolToPath(b) {
      var p := SymbolToPath(a);
      assert a == p[5..|p| - 4] == b;
    }
  }

  /** The dates are in increasing order without repeats. */
  predicate StrictlyIncreasing(ds: seq<Date>)
  {
    forall i, j :: 0 <= i < j < |ds| ==> ds[i] < ds[j]
  }

  /** Every calendar day from `sd` to `ed`, both included, in order (empty when `sd > ed`). */
  function DateRange(sd: Date, ed: Date): (r: seq<Date>)
    ensures StrictlyIncreasing(r)
    ensures forall d :: d in r <==> sd <= d <= ed
    decreases ed - sd
  {
    if sd > ed then []
    else
      var p := DateRange(sd, ed - 1);
      assert forall i :: 0 <= i < |p| ==> p[i] in p;
      p + [ed]
  }

  /** The cell a left join on date finds in one file: missing dates read as NaN. */
  function Lookup(file: PriceFile, d: Date): Option<real>
  {
    if d in file then file[d] else None
  }

  /** The price of `symbol` on day `d`, if its file exists and holds a number there. */
  function Price(store: PriceStore, symbol: Symbol, d: Date): Option<real>
  {
    var path := SymbolToPath(symbol);
    if path in store then Lookup(store[path], d) else None
  }

  /** Every requested symbol has a price on day `d`: the row survives `dropna`. */
  predicate Complete(store: PriceStore, symbols: seq<Symbol>, d: Date)
  {
    forall k :: 0 <= k < |symbols| ==> Price(store, symbols[k], d).Some?
  }

  /** The prices of all symbols on a complete day, in the order of `symbols`. */
  function PriceRow(store: PriceStore, symbols: seq<Symbol>, d: Date): (row: seq<real>)
    requires Complete(store, symbols, d)
    ensures |row| == |symbols|
    ensures forall k :: 0 <= k < |symbols| ==> Price(store, symbols[k], d) == Some(row[k])
  {
    seq(|symbols|, k requires 0 <= k < |symbols| => Price(store, symbols[k], d).value)
  }

  /** The dates that `dropna` keeps, in their original order. */
  function KeptDates(store: PriceStore, symbols: seq<Symbol>, dates: seq<Date>): (kept: seq<Date>)
    ensures |kept| <= |dates|
    ensures forall d :: d in kept <==> d in dates && Complete(store, symbols, d)
    ensures StrictlyIncreasing(dates) ==> StrictlyIncreasing(kept)
  {
    if |dates| == 0 then []
    else
      var d := dates[|dates| - 1];
      var p := dates[..|dates| - 1];
      assert dates == p + [d];
      var k := KeptDates(store, symbols, p);
      assert StrictlyIncreasing(dates) ==> forall i :: 0 <= i < |k| ==> k[i] < d by {
        if StrictlyIncreasing(dates) {
          forall i | 0 <= i < |k| ensures k[i] < d {
            assert k[i] in k;
            var a :| 0 <= a < |p| && p[a] == k[i];
            assert dates[a] == k[i];
          }
        }
      }
      k + (if Complete(store, symbols, d) then [d] else [])
  }

  /** The price rows that `dropna` keeps, one per kept date. */
  function AlignedRows(store: PriceStore, symbols: seq<Symbol>, dates: seq<Date>): (rows: seq<seq<real>>)
    ensures |rows| <= |dates|
    ensures Rectangular(rows, |symbols|)
  {
    if |dates| == 0 then []
    else
      var d := dates[|dates| - 1];
      AlignedRows(store, symbols, dates[..|dates| - 1]) + (if Complete(store, symbols, d) then [PriceRow(store, symbols, d)] else [])
  }

  /** The kept rows are the price rows of the kept dates, position by position. */
  lemma {:induction false} AlignedRowsOfKeptDates(store: PriceStore, symbols: seq<Symbol>, dates: seq<Date>)
    ensures var kept := KeptDates(store, symbols, dates);
      && |AlignedRows(store, symbols, dates)| == |kept|
      && forall m :: 0 <= m < |kept| ==> Complete(store, symbols, kept[m]) && AlignedRows(store, symbols, dates)[m] == PriceRow(store, symbols, kept[m])
  {
    if |dates| > 0 {
      AlignedRowsOfKeptDates(store, symbols, dates[..|dates| - 1]);
    }
  }

  /** The first failure of the join loop from symbol `j` on: a missing price
      file, or a symbol that is already a column. */
  function LoadErrorFrom(store: PriceStore, symbols: seq<Symbol>, j: nat): (r: Option<Error>)
    requires j <= |symbols|
    decreases |symbols| - j
    ensures r.Some? ==> r.value.MissingPriceFile? || r.value.ColumnOverlap?
    ensures r.Some? ==> r.value.symbol in symbols[j..]
    ensures r.Some? && r.value.MissingPriceFile? ==> SymbolToPath(r.value.symbol) !in store
    ensures r.Some? && r.value.ColumnOverlap? ==> exists k :: j <= k < |symbols| && symbols[k] == r.value.symbol && r.value.symbol in symbols[..k]
  {
    if j == |symbols| then None
    else if SymbolToPath(symbols[j]) !in store then Some(MissingPriceFile(symbols[j]))
    else if symbols[j] in symbols[..j] then Some(ColumnOverlap(symbols[j]))
    else LoadErrorFrom(store, symbols, j + 1)
  }

  /** No symbol is requested twice. */
  predicate Distinct(symbols: seq<Symbol>)
  {
    forall a, b :: 0 <= a < b < |symbols| ==> symbols[a] != symbols[b]
  }

  /** The aligned table that `get_data` returns for `symbols` over `dates`. */
  function AlignedTable(store: PriceStore, symbols: seq<Symbol>, dates: seq<Date>): (r: Result<PriceTable>)
    ensures r.Ok? ==> r.value.symbols == symbols && |r.value.rows| == |r.value.dates|
    ensures r.Ok? ==> Rectangular(r.value.rows, |symbols|)
    ensures r.Ok? ==> forall d :: d in r.value.dates <==> d in dates && Complete(store, symbols, d)
    ensures r.Ok? ==> forall i, k :: 0 <= i < |r.value.rows| && 0 <= k < |symbols| ==>
      Price(store, symbols[k], r.value.dates[i]) == Some(r.value.rows[i][k])
    ensures r.Ok? && StrictlyIncreasing(dates) ==> StrictlyIncreasing(r.value.dates)
  {
    match LoadErrorFrom(store, symbols, 0)
    case Some(e) => Err(e)
    case None =>
      AlignedRowsOfKeptDates(store, symbols, dates);
      Ok(PriceTable(KeptDates(store, symbols, dates), symbols, AlignedRows(store, symbols, dates)))
  }

  /** The join loop fails exactly when some symbol has no price file or is requested twice. */
  lemma {:induction false} LoadErrorFromNone(store: PriceStore, symbols: seq<Symbol>, j: nat)
    requires j <= |symbols|
    decreases |symbols| - j
    ensures LoadErrorFrom(store, symbols, j).None? <==>
      forall k :: j <= k < |symbols| ==> SymbolToPath(symbols[k]) in store && symbols[k] !in symbols[..k]
  {
    if j < |symbols| {
      LoadErrorFromNone(store, symbols, j + 1);
    }
  }

  /** Loading succeeds exactly when every symbol has a price file and no symbol is requested twice. */
  lemma AlignedTableOk(store: PriceStore, symbols: seq<Symbol>, dates: seq<Date>)
    ensures AlignedTable(store, symbols, dates).Ok? <==>
      (forall k :: 0 <= k < |symbols| ==> SymbolToPath(symbols[k]) in store) && Distinct(symbols)
  {
    LoadErrorFromNone(store, symbols, 0);
    if forall k :: 0 <= k < |symbols| ==> symbols[k] !in symbols[..k] {
      forall a, b | 0 <= a < b < |symbols| ensures symbols[a] != symbols[b] {
        assert symbols[..b][a] == symbols[a];
      }
    }
  }

  /** The cells of the joined table: `df[i][k]` is what the left join put for
      `symbols[k]` on `dates[i]`. */
  predicate JoinedCells(store: PriceStore, symbols: seq<Symbol>, dates: seq<Date>, df: seq<seq<Option<real>>>, width: nat)
    requires width <= |symbols|
  {
    && |df| == |dates|
    && (forall i :: 0 <= i < |df| ==> |df[i]| == width)
    && (forall i, k :: 0 <= i < |df| && 0 <= k < width ==> df[i][k] == Price(store, symbols[k], dates[i]))
  }

  /** The join loop of `get_data`: start from one empty row per date and
      left-join one column per symbol, failing on a missing file or a repeated column. */
  method JoinColumns(store: PriceStore, symbols: seq<Symbol>, dates: seq<Date>) returns (r: Result<seq<seq<Option<real>>>>)
    ensures r.Err? <==> LoadErrorFrom(store, symbols, 0).Some?
    ensures r.Err? ==> r.error == LoadErrorFrom(store, symbols, 0).value
    ensures r.Ok? ==> JoinedCells(store, symbols, dates, r.value, |symbols|)
  {
    var df: seq<seq<Option<real>>> := seq(|dates|, _ => []);
    var j := 0;
    while j < |symbols|
      invariant j <= |symbols|
      invariant LoadErrorFrom(store, symbols, 0) == LoadErrorFrom(store, symbols, j)
      invariant JoinedCells(store, symbols, dates, df, j)
    {
      var path := SymbolToPath(symbols[j]);
      if path !in store {
        return Err(MissingPriceFile(symbols[j]));
      }
      if symbols[j] in symbols[..j] {
        return Err(ColumnOverlap(symbols[j]));
      }
      var file := store[path];
      df := seq(|df|, i requires 0 <= i < |df| => df[i] + [Lookup(file, dates[i])]);
      j := j + 1;
    }
    r := Ok(df);
  }

  /** `dropna`: keep the rows in which every cell holds a price, in order. */
  method DropMissing(ghost store: PriceStore, ghost symbols: seq<Symbol>, dates: seq<Date>, df: seq<seq<Option<real>>>)
    returns (kept: seq<Date>, rows: seq<seq<real>>)
    requires JoinedCells(store, symbols, dates, df, |symbols|)
    ensures kept == KeptDates(store, symbols, dates)
    ensures rows == AlignedRows(store, symbols, dates)
  {
    kept, rows := [], [];
    var i := 0;
    while i < |df|
      invariant i <= |df|
      invariant kept == KeptDates(store, symbols, dates[..i])
      invariant rows == AlignedRows(store, symbols, dates[..i])
    {
      KeptDatesStep(store, symbols, dates, i);
      RowPresentIffComplete(store, symbols, dates, df, i);
      if Present(df[i]) {
        kept := kept + [dates[i]];
        rows := rows + [Values(df[i])];
      }
      i := i + 1;
    }
    assert dates[..|dates|] == dates;
  }

  /** No cell of the row is NaN. */
  predicate Present(cells: seq<Option<real>>)
  {
    forall k :: 0 <= k < |cells| ==> cells[k].Some?
  }

  /** The prices in a row without NaN. */
  function Values(cells: seq<Option<real>>): (row: seq<real>)
    requires Present(cells)
  {
    seq(|cells|, k requires 0 <= k < |cells| => cells[k].value)
  }

  /** A joined row has no NaN exactly when its date is complete, and then it holds that date's prices. */
  lemma RowPresentIffComplete(store: PriceStore, symbols: seq<Symbol>, dates: seq<Date>, df: seq<seq<Option<real>>>, i: nat)
    requires JoinedCells(store, symbols, dates, df, |symbols|)
    requires i < |df|
    ensures Present(df[i]) <==> Complete(store, symbols, dates[i])
    ensures Present(df[i]) ==> Values(df[i]) == PriceRow(store, symbols, dates[i])
  {
    assert forall k :: 0 <= k < |symbols| ==> df[i][k] == Price(store, symbols[k], dates[i]);
  }

  /** One more date extends the kept dates, and the kept rows, by that date exactly when it is complete. */
  lemma KeptDatesStep(store: PriceStore, symbols: seq<Symbol>, dates: seq<Date>, i: nat)
    requires i < |dates|
    ensures KeptDates(store, symbols, dates[..i + 1]) ==
      KeptDates(store, symbols, dates[..i]) + (if Complete(store, symbols, dates[i]) then [dates[i]] else [])
    ensures AlignedRows(store, symbols, dates[..i + 1]) ==
      AlignedRows(store, symbols, dates[..i]) + (if Complete(store, symbols, dates[i]) then [PriceRow(store, symbols, dates[i])] else [])
  {
    assert dates[..i + 1][..i] == dates[..i];
  }

  /** `get_data`: the join loop followed by `dropna`. */
  method GetData(store: PriceStore, symbols: seq<Symbol>, dates: seq<Date>) returns (r: Result<PriceTable>)
    ensures r == AlignedTable(store, symbols, dates)
  {
    var joined := JoinColumns(store, symbols, dates);
    if joined.Err? {
      return Err(joined.error);
    }
    var kept, rows := DropMissing(store, symbols, dates, joined.value);
    r := Ok(PriceTable(kept, symbols, rows));
  }
}
