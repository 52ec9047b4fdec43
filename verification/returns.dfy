/** The equity-curve summary: initial value, current value and total
    return in percent, over exact reals. */
module Returns {

  /** One row of the equity curve. */
  datatype EquityRow = EquityRow(date: string, equity: real)

  /** Percentage change from `first` to `last`. Recovering `last` from
      `first` and the return is the inverse the percentage is defined by. */
  function TotalReturn(first: real, last: real): (r: real)
    requires first != 0.0
    ensures last == first * (1.0 + r / 100.0)
  {
    (last - first) / first * 100.0
  }

  /** For a positive starting value the sign of the return is the sign of
      the change: zero exactly when unchanged, positive exactly on a gain. */
  lemma ReturnSign(first: real, last: real)
    requires first > 0.0
    ensures TotalReturn(first, last) == 0.0 <==> last == first
    ensures TotalReturn(first, last) > 0.0 <==> last > first
    ensures TotalReturn(first, last) < 0.0 <==> last < first
  {
    var r := TotalReturn(first, last);
    assert last - first == first * (r / 100.0);
  }

  /** A curve that goes from 100 to 110 has returned 10 percent. */
  lemma ReturnExample()
    ensures TotalReturn(100.0, 110.0) == 10.0
  {
  }

  /** The values the three metrics above the chart are meant to show. */
  datatype Summary = Summary(initial: real, current: real, totalReturn: real)

  /** First row's equity, last row's equity and the return between them. */
  function Summarize(curve: seq<EquityRow>): (s: Summary)
    requires |curve| > 0 && curve[0].equity != 0.0
    ensures s.initial == curve[0].equity && s.current == curve[|curve| - 1].equity
    ensures s.current == s.initial * (1.0 + s.totalReturn / 100.0)
    ensures |curve| == 1 ==> s.totalReturn == 0.0
  {
    var initial := curve[0].equity;
    var current := curve[|curve| - 1].equity;
    Summary(initial, current, TotalReturn(initial, current))
  }

  /** Rows between the first and the last do not affect the summary. */
  lemma SummaryUsesEndpoints(curve: seq<EquityRow>, middle: seq<EquityRow>)
    requires |curve| >= 2 && curve[0].equity != 0.0
    ensures Summarize(curve[..1] + middle + curve[|curve| - 1..]) == Summarize(curve)
  {
    var c := curve[..1] + middle + curve[|curve| - 1..];
    assert c[0] == curve[0];
    assert c[|c| - 1] == curve[|curve| - 1];
  }
}
