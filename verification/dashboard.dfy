/**
 The dashboard as a whole, reduced to its derived state: the KPI cards and
 the series the revenue chart plots, for a given selected range.
 */
module Dashboard {
  import opened DashboardTypes
  import opened RangeFilter
  import opened Kpis
  import opened Formatting

  /** What the page shows that is computed rather than copied. */
  datatype View = View(cards: seq<Kpi>, chart: seq<RevenuePoint>)

  /** The derived state for the selected range. The cards are computed from
      the whole series, once; only the chart follows the range. */
  function Render(series: seq<RevenuePoint>, cs: seq<ChannelPoint>, range: RangeTag): (v: View)
    requires Derivable(series, cs)
    ensures |v.cards| == 4
    ensures |v.chart| == Min(Window(range), |series|)
    ensures v.chart == series[|series| - |v.chart|..]
    ensures v.cards[0].value == Currency(series[|series| - 1].mrr)
  {
    View(DeriveKpis(series, cs), SlicedRevenue(series, range))
  }

  /** Switching the range redraws the chart but leaves every card as it was,
      even when the narrower range hides the periods the cards are built on. */
  lemma RangeChangesOnlyChart(series: seq<RevenuePoint>, cs: seq<ChannelPoint>, a: RangeTag, b: RangeTag)
    requires Derivable(series, cs)
    ensures Render(series, cs, a).cards == Render(series, cs, b).cards
    ensures Render(series, cs, a).chart == Render(series, cs, b).chart <==> Min(Window(a), |series|) == Min(Window(b), |series|)
  {
  }

  /** The MRR and ARR cards show one and the same delta line, green exactly
      when MRR did not fall (for a positive previous MRR), with a "+" exactly
      when it rose; the two rate cards show none. */
  lemma CardDeltaLines(series: seq<RevenuePoint>, cs: seq<ChannelPoint>)
    requires Derivable(series, cs) && series[|series| - 2].mrr > 0.0
    ensures var k := DeriveKpis(series, cs);
      var last := series[|series| - 1].mrr;
      var prev := series[|series| - 2].mrr;
      && CardDeltaTone(k[0]) == CardDeltaTone(k[1]) == Some(if last >= prev then Emerald else Rose)
      && SignPrefix(k[0].delta.value) == (if last > prev then "+" else "")
      && CardDeltaTone(k[2]).None? && CardDeltaTone(k[3]).None?
  {
  }
}
