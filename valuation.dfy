/** The portfolio valuator: weights the normalized prices by the
    allocations, scales them by the start value and sums each day's positions
    into the value of the portfolio. */
module Valuation {
  import opened Series

  /** `normed * allocs`: each column weighted by its symbol's allocation. */
  function Allocate(normed: seq<seq<real>>, allocs: seq<real>): (r: seq<seq<real>>)
    requires Rectangular(normed, |allocs|)
    ensures |r| == |normed| && Rectangular(r, |allocs|)
  {
    seq(|normed|, i requires 0 <= i < |normed| =>
      seq(|allocs|, j requires 0 <= j < |allocs| => normed[i][j] * allocs[j]))
  }

  /** `alloced * sv`: the money held in each stock on each day, which is
      normalized price times allocation times start value. */
  function PositionValues(normed: seq<seq<real>>, allocs: seq<real>, sv: real): (r: seq<seq<real>>)
    requires Rectangular(normed, |allocs|)
    ensures |r| == |normed| && Rectangular(r, |allocs|)
  {
    var alloced := Allocate(normed, allocs);
    seq(|alloced|, i requires 0 <= i < |alloced| => Scale(sv, alloced[i]))
  }

  /** `sum(axis=1)`: the total of each row. */
  function RowSums(t: seq<seq<real>>): (r: seq<real>)
    ensures |r| == |t|
  {
    seq(|t|, i requires 0 <= i < |t| => Sum(t[i]))
  }

  /** `port_val` in `assess_portfolio`: the value of the whole portfolio on each day. */
  function PortfolioValues(normed: seq<seq<real>>, allocs: seq<real>, sv: real): (r: seq<real>)
    requires Rectangular(normed, |allocs|)
    ensures |r| == |normed|
  {
    RowSums(PositionValues(normed, allocs, sv))
  }

  /** `port_val` in the `sharpe_ratio` objective: the weighted row sums, with no start value. */
  function WeightedValues(normed: seq<seq<real>>, allocs: seq<real>): (r: seq<real>)
    requires Rectangular(normed, |allocs|)
    ensures |r| == |normed|
  {
    RowSums(Allocate(normed, allocs))
  }

  /** The start value factors out of the portfolio value: it is the start
      value times the weighted sum of the normalized prices. */
  lemma PortfolioValuesFactor(normed: seq<seq<real>>, allocs: seq<real>, sv: real)
    requires Rectangular(normed, |allocs|)
    ensures PortfolioValues(normed, allocs, sv) == Scale(sv, WeightedValues(normed, allocs))
  {
    var alloced := Allocate(normed, allocs);
    forall i | 0 <= i < |normed| ensures PortfolioValues(normed, allocs, sv)[i] == sv * WeightedValues(normed, allocs)[i] {
      SumScale(sv, alloced[i]);
    }
    var sw := Scale(sv, WeightedValues(normed, allocs));
    assert |PortfolioValues(normed, allocs, sv)| == |sw|;
    assert forall i :: 0 <= i < |sw| ==> PortfolioValues(normed, allocs, sv)[i] == sw[i];
  }

  /** On a normalized first day the portfolio is worth the start value times
      the sum of the allocations, so exactly the start value when they sum to 1. */
  lemma PortfolioStartValue(normed: seq<seq<real>>, allocs: seq<real>, sv: real)
    requires Rectangular(normed, |allocs|) && |normed| > 0
    requires forall j :: 0 <= j < |allocs| ==> normed[0][j] == 1.0
    ensures PortfolioValues(normed, allocs, sv)[0] == sv * Sum(allocs)
    ensures Sum(allocs) == 1.0 ==> PortfolioValues(normed, allocs, sv)[0] == sv
  {
    var alloced := Allocate(normed, allocs);
    assert alloced[0] == allocs by {
      forall j | 0 <= j < |allocs| ensures alloced[0][j] == allocs[j] {
        assert normed[0][j] * allocs[j] == 1.0 * allocs[j];
      }
    }
    var p := PositionValues(normed, allocs, sv)[0];
    assert p == Scale(sv, allocs);
    SumScale(sv, allocs);
    assert Sum(p) == sv * Sum(allocs);
  }

  /** The prices of column `k`. */
  function Column(t: seq<seq<real>>, k: nat): (c: seq<real>)
    requires forall i :: 0 <= i < |t| ==> k < |t[i]|
    ensures |c| == |t|
  {
    seq(|t|, i requires 0 <= i < |t| => t[i][k])
  }

  /** With all weight on symbol `k`, the portfolio is the start value times
      that symbol's normalized prices. */
  lemma PortfolioSingleSymbol(normed: seq<seq<real>>, allocs: seq<real>, sv: real, k: nat)
    requires Rectangular(normed, |allocs|) && k < |allocs|
    requires allocs[k] == 1.0 && forall j :: 0 <= j < |allocs| && j != k ==> allocs[j] == 0.0
    ensures PortfolioValues(normed, allocs, sv) == Scale(sv, Column(normed, k))
  {
    PortfolioValuesFactor(normed, allocs, sv);
    var alloced := Allocate(normed, allocs);
    var w := WeightedValues(normed, allocs);
    forall i | 0 <= i < |normed| ensures w[i] == normed[i][k] {
      assert forall j :: 0 <= j < |allocs| && j != k ==> alloced[i][j] == normed[i][j] * 0.0;
      SumSingleEntry(alloced[i], k);
      assert alloced[i][k] == normed[i][k] * 1.0;
    }
    assert w == Column(normed, k);
  }
}
