/** The returns calculator: turns a value series into its day-over-day
    fractional changes, with the first day's return defined as zero. */
module Returns {
  import opened Common
  import opened Series

  /** Every value that some later value is divided by, that is every value
      but the last, is nonzero. */
  predicate NonzeroPredecessors(s: seq<real>)
  {
    forall i :: 0 <= i < |s| - 1 ==> s[i] != 0.0
  }

  /** `compute_daily_returns` on one series: the fractional change from
      each day to the next, with day 0 defined as 0. */
  function DailyReturns(s: seq<real>): (r: seq<real>)
    requires NonzeroPredecessors(s)
    ensures |r| == |s|
    ensures |s| > 0 ==> r[0] == 0.0
  {
    seq(|s|, i requires 0 <= i < |s| => if i == 0 then 0.0 else s[i] / s[i - 1] - 1.0)
  }

  /** Day `i` grows the value of day `i - 1` by the factor `1 + r[i]`. */
  lemma DailyReturnGrows(s: seq<real>, i: nat)
    requires NonzeroPredecessors(s) && 1 <= i < |s|
    ensures s[i - 1] * (1.0 + DailyReturns(s)[i]) == s[i]
  {
    var q := s[i] / s[i - 1];
    assert DailyReturns(s)[i] == q - 1.0;
    assert s[i - 1] * q == s[i];
  }

  /** `compute_daily_returns` as the source runs it: the quotient by the
      shifted series, whose first cell is NaN, then day 0 overwritten by 0. */
  method ComputeDailyReturns(s: seq<real>) returns (r: seq<real>)
    requires NonzeroPredecessors(s)
    ensures r == DailyReturns(s)
  {
    var n := |s|;
    var dr := new Option<real>[n](_ => None);
    if n > 0 {
      for i := 1 to n
        invariant forall k :: 1 <= k < i ==> dr[k] == Some(s[k] / s[k - 1] - 1.0)
      {
        dr[i] := Some(s[i] / s[i - 1] - 1.0);
      }
      dr[0] := Some(0.0);
    }
    assert forall k :: 0 <= k < n ==> dr[k] == Some(DailyReturns(s)[k]);
    var cells := dr[..];
    r := seq(n, i requires 0 <= i < n && cells[i].Some? => cells[i].value);
  }

  /** The product of the growth factors `1 + r[i]`. */
  function Growth(r: seq<real>): real
  {
    if |r| == 0 then 1.0 else Growth(r[..|r| - 1]) * (1.0 + r[|r| - 1])
  }

  /** The daily returns of a prefix are the prefix of the daily returns. */
  lemma DailyReturnsPrefix(s: seq<real>, n: nat)
    requires NonzeroPredecessors(s) && n <= |s|
    ensures NonzeroPredecessors(s[..n]) && DailyReturns(s[..n]) == DailyReturns(s)[..n]
  {
  }

  /** Compounding the daily returns from the first value gives the last value. */
  lemma {:induction false} GrowthCompoundsReturns(s: seq<real>)
    requires |s| > 0 && NonzeroPredecessors(s)
    ensures s[0] * Growth(DailyReturns(s)) == s[|s| - 1]
  {
    var n := |s|;
    var r := DailyReturns(s);
    if n == 1 {
      assert r[..0] == [];
    } else {
      var p := s[..n - 1];
      DailyReturnsPrefix(s, n - 1);
      assert r[..n - 1] == DailyReturns(p);
      GrowthCompoundsReturns(p);
      var g, f := Growth(DailyReturns(p)), 1.0 + r[n - 1];
      assert Growth(r) == g * f;
      assert s[0] * g == s[n - 2];
      DailyReturnGrows(s, n - 1);
      assert s[n - 2] * f == s[n - 1];
      assert s[0] * (g * f) == (s[0] * g) * f;
    }
  }

  /** Returns do not depend on the scale of the series: scaling by any
      nonzero factor leaves every daily return as it was. */
  lemma DailyReturnsIgnoreScale(s: seq<real>, c: real)
    requires c != 0.0 && NonzeroPredecessors(s)
    ensures NonzeroPredecessors(Scale(c, s)) && DailyReturns(Scale(c, s)) == DailyReturns(s)
  {
    var t := Scale(c, s);
    forall i | 0 <= i < |s| - 1 ensures t[i] != 0.0 && t[i + 1] / t[i] == s[i + 1] / s[i] {
      QuotientCancels(c, s[i + 1], s[i]);
    }
  }

  /** A constant nonzero series has every daily return zero. */
  lemma ConstantSeriesReturnsZero(s: seq<real>)
    requires |s| > 0 && s[0] != 0.0
    requires forall i :: 0 <= i < |s| ==> s[i] == s[0]
    ensures NonzeroPredecessors(s)
    ensures forall i :: 0 <= i < |s| ==> DailyReturns(s)[i] == 0.0
  {
    forall i | 1 <= i < |s| ensures s[i] / s[i - 1] == 1.0 {
      assert s[i] == s[i - 1] == s[0];
    }
  }
}
