/** The normalizer: rescales every column of a table so that its first row
    is 1, which makes series comparable whatever their price level. */
module Normalizer {
  import opened Series

  /** No entry of the row is zero, so every column can be divided by it. */
  predicate NonzeroEntries(row: seq<real>)
  {
    forall j :: 0 <= j < |row| ==> row[j] != 0.0
  }

  /** `normalize_data`: each column divided by its value in the first row. */
  function Normalize(rows: seq<seq<real>>): (r: seq<seq<real>>)
    requires |rows| > 0 && Rectangular(rows, |rows[0]|) && NonzeroEntries(rows[0])
    ensures |r| == |rows| && Rectangular(r, |rows[0]|)
    ensures forall j :: 0 <= j < |rows[0]| ==> r[0][j] == 1.0
    ensures forall i, j :: 0 <= i < |rows| && 0 <= j < |rows[0]| ==> r[i][j] * rows[0][j] == rows[i][j]
  {
    seq(|rows|, i requires 0 <= i < |rows| =>
      seq(|rows[i]|, j requires 0 <= j < |rows[i]| => rows[i][j] / rows[0][j]))
  }

  /** A normalized table is a fixed point: normalizing it again changes nothing. */
  lemma NormalizeIdempotent(rows: seq<seq<real>>)
    requires |rows| > 0 && Rectangular(rows, |rows[0]|) && NonzeroEntries(rows[0])
    ensures var n := Normalize(rows);
      NonzeroEntries(n[0]) && Normalize(n) == n
  {
    var n := Normalize(rows);
    var w := |rows[0]|;
    forall i | 0 <= i < |n| ensures Normalize(n)[i] == n[i] {
      assert forall j :: 0 <= j < w ==> Normalize(n)[i][j] == n[i][j] / 1.0;
    }
  }

  /** Each column multiplied by its own factor. */
  function ScaleColumns(rows: seq<seq<real>>, factors: seq<real>): (r: seq<seq<real>>)
    requires Rectangular(rows, |factors|)
    ensures |r| == |rows| && Rectangular(r, |factors|)
  {
    seq(|rows|, i requires 0 <= i < |rows| =>
      seq(|factors|, j requires 0 <= j < |factors| => factors[j] * rows[i][j]))
  }

  /** The price level of a column does not matter: a column scaled by any
      nonzero factor normalizes to the same series. */
  lemma NormalizeIgnoresPriceLevel(rows: seq<seq<real>>, factors: seq<real>)
    requires |rows| > 0 && Rectangular(rows, |factors|) && NonzeroEntries(rows[0])
    requires NonzeroEntries(factors)
    ensures var s := ScaleColumns(rows, factors);
      NonzeroEntries(s[0]) && Normalize(s) == Normalize(rows)
  {
    var s := ScaleColumns(rows, factors);
    forall j | 0 <= j < |factors| ensures s[0][j] != 0.0 {
      assert s[0][j] == factors[j] * rows[0][j];
    }
    forall i | 0 <= i < |rows| ensures Normalize(s)[i] == Normalize(rows)[i] {
      forall j | 0 <= j < |factors| ensures Normalize(s)[i][j] == Normalize(rows)[i][j] {
        var c, a, b := factors[j], rows[i][j], rows[0][j];
        assert Normalize(s)[i][j] == (c * a) / (c * b);
        QuotientCancels(c, a, b);
      }
    }
  }
}
