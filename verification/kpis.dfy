/**
 KPI derivation: the four headline cards (MRR, ARR, conversion rate, churn)
 computed from the two most recent revenue periods and the channel funnels.
 The dashboard performs no checks before dividing; the preconditions below
 name the inputs for which each division is defined.
 */
module Kpis {
  import opened DashboardTypes

  /** The channel figures that the conversion rate sums across channels. */
  datatype Measure = Leads | Signups

  function MeasureOf(c: ChannelPoint, m: Measure): real {
    match m
    case Leads => c.leads
    case Signups => c.signups
  }

  /** `cs.reduce((a, c) => a + c.<m>, 0)`: a left fold from 0. */
  function Total(cs: seq<ChannelPoint>, m: Measure): (r: real)
    ensures |cs| == 1 ==> r == MeasureOf(cs[0], m)
    ensures (forall i :: 0 <= i < |cs| ==> MeasureOf(cs[i], m) >= 0.0) ==> r >= 0.0
    decreases |cs|
  {
    if |cs| == 0 then 0.0 else Total(cs[..|cs| - 1], m) + MeasureOf(cs[|cs| - 1], m)
  }

  /** Period-over-period change of MRR in percent, from the last two points. */
  function MrrDelta(series: seq<RevenuePoint>): (r: real)
    requires |series| >= 2 && series[|series| - 2].mrr != 0.0
    ensures var prev := series[|series| - 2].mrr;
      series[|series| - 1].mrr == prev + prev * r / 100.0
  {
    var last := series[|series| - 1];
    var prev := series[|series| - 2];
    (last.mrr - prev.mrr) / prev.mrr * 100.0
  }

  /** Blended conversion rate in percent over all channels. */
  function ConversionRate(cs: seq<ChannelPoint>): (r: real)
    requires Total(cs, Leads) != 0.0
    ensures r * Total(cs, Leads) == 100.0 * Total(cs, Signups)
  {
    Total(cs, Signups) / Total(cs, Leads) * 100.0
  }

  /** Revenue churn of one period in percent: the churned amount as a share
      of the revenue base before churn. */
  function ChurnRate(p: RevenuePoint): (r: real)
    requires p.mrr + Abs(p.churnMrr) != 0.0
    ensures r * (p.mrr + Abs(p.churnMrr)) == 100.0 * Abs(p.churnMrr)
  {
    Abs(p.churnMrr) / (p.mrr + Abs(p.churnMrr)) * 100.0
  }

  /** What the dashboard needs of its data before it divides: two periods of
      history, a non-zero previous MRR, some leads, and a non-zero churn base. */
  predicate Derivable(series: seq<RevenuePoint>, cs: seq<ChannelPoint>) {
    && |series| >= 2
    && series[|series| - 2].mrr != 0.0
    && Total(cs, Leads) != 0.0
    && series[|series| - 1].mrr + Abs(series[|series| - 1].churnMrr) != 0.0
  }

  /** The four KPI cards, in display order. ARR is the latest MRR annualised
      and carries the MRR card's delta rather than one of its own; the two
      rate cards carry no delta. */
  function DeriveKpis(series: seq<RevenuePoint>, cs: seq<ChannelPoint>): (r: seq<Kpi>)
    requires Derivable(series, cs)
    ensures |r| == 4
    ensures r[0].id == "mrr" && r[1].id == "arr" && r[2].id == "conv" && r[3].id == "churn"
    ensures r[0].caption == "MRR" && r[1].caption == "ARR"
    ensures r[2].caption == "Conversion Rate" && r[3].caption == "Churn"
    ensures r[0].value == Currency(series[|series| - 1].mrr)
    ensures r[1].value == Currency(12.0 * r[0].value.amount)
    ensures r[0].delta.Some? && r[1].delta == r[0].delta
    ensures var prev := series[|series| - 2].mrr;
      series[|series| - 1].mrr == prev + prev * r[0].delta.value / 100.0
    ensures r[2].delta.None? && r[3].delta.None?
    ensures r[2].value.Percent? && r[2].value.decimals == 1
    ensures r[2].value.amount * Total(cs, Leads) == 100.0 * Total(cs, Signups)
    ensures r[3].value.Percent? && r[3].value.decimals == 2
    ensures var last := series[|series| - 1];
      r[3].value.amount * (last.mrr + Abs(last.churnMrr)) == 100.0 * Abs(last.churnMrr)
  {
    var last := series[|series| - 1];
    var mrrDelta := MrrDelta(series);
    var arr := last.mrr * 12.0;
    [
      Kpi("mrr", "MRR", Currency(last.mrr), Some(mrrDelta)),
      Kpi("arr", "ARR", Currency(arr), Some(mrrDelta)),
      Kpi("conv", "Conversion Rate", Percent(ConversionRate(cs), 1), None),
      Kpi("churn", "Churn", Percent(ChurnRate(last), 2), None)
    ]
  }

  // ---------- MRR delta ----------

  /** With a positive previous MRR the delta has the sign of the change:
      growth shows as a positive delta, decline as a negative one, and a flat
      period as exactly zero. */
  lemma MrrDeltaSign(series: seq<RevenuePoint>)
    requires |series| >= 2 && series[|series| - 2].mrr > 0.0
    ensures var d := MrrDelta(series);
      var last := series[|series| - 1].mrr;
      var prev := series[|series| - 2].mrr;
      && (d > 0.0 <==> last > prev)
      && (d == 0.0 <==> last == prev)
      && (d < 0.0 <==> last < prev)
  {
  }

  /** The KPIs look only at the last two periods: any earlier history can be
      prepended without changing a single card. */
  lemma KpisUseLatestTwoPeriods(history: seq<RevenuePoint>, series: seq<RevenuePoint>, cs: seq<ChannelPoint>)
    requires Derivable(series, cs)
    ensures Derivable(history + series, cs)
    ensures DeriveKpis(history + series, cs) == DeriveKpis(series, cs)
  {
  }

  // ---------- Conversion rate ----------

  /** Totals distribute over concatenation. */
  lemma {:induction false} TotalAppend(a: seq<ChannelPoint>, b: seq<ChannelPoint>, m: Measure)
    ensures Total(a + b, m) == Total(a, m) + Total(b, m)
    decreases |b|
  {
    if |b| == 0 {
      assert a + b == a;
    } else {
      var b' := b[..|b| - 1];
      assert (a + b)[..|a + b| - 1] == a + b';
      TotalAppend(a, b', m);
    }
  }

  /** Taking one channel out of the list takes its figure out of the total. */
  lemma TotalRemoveAt(b: seq<ChannelPoint>, j: nat, m: Measure)
    requires j < |b|
    ensures Total(b, m) == Total(b[..j] + b[j + 1..], m) + MeasureOf(b[j], m)
  {
    var x := b[j];
    assert b == (b[..j] + [x]) + b[j + 1..];
    TotalAppend(b[..j] + [x], b[j + 1..], m);
    TotalAppend(b[..j], [x], m);
    TotalAppend(b[..j], b[j + 1..], m);
    assert Total([x], m) == MeasureOf(x, m) by {
      assert [x][..0] == [];
    }
  }

  /** Taking the element at `j` out of a sequence takes one copy of it out of
      the sequence's multiset. */
  lemma MultisetRemoveAt<T>(b: seq<T>, j: nat)
    requires j < |b|
    ensures multiset(b[..j] + b[j + 1..]) == multiset(b) - multiset{b[j]}
  {
    assert b == b[..j] + [b[j]] + b[j + 1..];
  }

  /** Totals do not depend on the order of the channels. */
  lemma {:induction false} TotalPermutation(a: seq<ChannelPoint>, b: seq<ChannelPoint>, m: Measure)
    requires multiset(a) == multiset(b)
    ensures Total(a, m) == Total(b, m)
    decreases |a|
  {
    if |a| == 0 {
      assert |b| == |multiset(b)| == 0;
    } else {
      var x := a[|a| - 1];
      var a' := a[..|a| - 1];
      assert a == a' + [x];
      assert x in multiset(b);
      var j :| 0 <= j < |b| && b[j] == x;
      var rest := b[..j] + b[j + 1..];
      MultisetRemoveAt(b, j);
      assert multiset(a') == multiset(a) - multiset{x};
      TotalPermutation(a', rest, m);
      TotalRemoveAt(b, j, m);
    }
  }

  /** Reordering the channels changes neither whether the conversion rate is
      defined nor its value. */
  lemma ConversionRateOrderInvariant(a: seq<ChannelPoint>, b: seq<ChannelPoint>)
    requires multiset(a) == multiset(b)
    ensures Total(a, Leads) != 0.0 <==> Total(b, Leads) != 0.0
    ensures Total(a, Leads) != 0.0 ==> ConversionRate(a) == ConversionRate(b)
  {
    TotalPermutation(a, b, Leads);
    TotalPermutation(a, b, Signups);
  }

  /** Every channel has no more signups than leads, and neither is negative. */
  predicate PlausibleFunnels(cs: seq<ChannelPoint>) {
    forall i :: 0 <= i < |cs| ==> 0.0 <= cs[i].signups <= cs[i].leads
  }

  /** Plausible funnels add up to plausible totals. */
  lemma {:induction false} TotalsOfPlausibleFunnels(cs: seq<ChannelPoint>)
    requires PlausibleFunnels(cs)
    ensures 0.0 <= Total(cs, Signups) <= Total(cs, Leads)
    decreases |cs|
  {
    if |cs| > 0 {
      TotalsOfPlausibleFunnels(cs[..|cs| - 1]);
    }
  }

  /** With plausible funnels and at least one lead the blended conversion
      rate is a percentage between 0 and 100. */
  lemma ConversionRateBounded(cs: seq<ChannelPoint>)
    requires PlausibleFunnels(cs) && Total(cs, Leads) > 0.0
    ensures 0.0 <= ConversionRate(cs) <= 100.0
  {
    TotalsOfPlausibleFunnels(cs);
    ShareBounded(Total(cs, Signups), Total(cs, Leads));
  }

  /** A part of a positive whole is a fraction between 0 and 1 of it. */
  lemma ShareBounded(part: real, whole: real)
    requires 0.0 <= part <= whole && whole > 0.0
    ensures 0.0 <= part / whole <= 1.0
  {
  }

  // ---------- Churn ----------

  /** With a non-negative MRR the churn rate is a percentage between 0 and
      100; it is 0 exactly when nothing churned and 100 exactly when the
      remaining MRR is zero. */
  lemma ChurnRateBounded(p: RevenuePoint)
    requires p.mrr >= 0.0 && p.mrr + Abs(p.churnMrr) > 0.0
    ensures 0.0 <= ChurnRate(p) <= 100.0
    ensures ChurnRate(p) == 0.0 <==> p.churnMrr == 0.0
    ensures ChurnRate(p) == 100.0 <==> p.mrr == 0.0
  {
    ShareBounded(Abs(p.churnMrr), p.mrr + Abs(p.churnMrr));
  }

  // ---------- ARR and the cards together ----------

  /** ARR is twelve times the latest MRR, and the MRR and ARR cards show the
      same delta, the MRR period-over-period change. */
  lemma ArrAnnualisesMrr(series: seq<RevenuePoint>, cs: seq<ChannelPoint>)
    requires Derivable(series, cs)
    ensures var k := DeriveKpis(series, cs);
      && k[1].value.amount == 12.0 * series[|series| - 1].mrr
      && k[0].delta == k[1].delta == Some(MrrDelta(series))
  {
  }

  /** The cards do not depend on the order of the channels. */
  lemma KpisChannelOrderInvariant(series: seq<RevenuePoint>, a: seq<ChannelPoint>, b: seq<ChannelPoint>)
    requires Derivable(series, a) && multiset(a) == multiset(b)
    ensures Derivable(series, b)
    ensures DeriveKpis(series, a) == DeriveKpis(series, b)
  {
    ConversionRateOrderInvariant(a, b);
  }
}
