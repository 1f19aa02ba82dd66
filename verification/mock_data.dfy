/**
 The dashboard's built-in data set, and what the derivations make of it.
 */
module MockData {
  import opened DashboardTypes
  import opened RangeFilter
  import opened Kpis

  /** Nine months of revenue, January to September 2025. */
  const Revenue: seq<RevenuePoint> := [
    RevenuePoint("2025-01", 12400.0, 4100.0, -900.0),
    RevenuePoint("2025-02", 13950.0, 4550.0, -1000.0),
    RevenuePoint("2025-03", 15110.0, 4680.0, -820.0),
    RevenuePoint("2025-04", 16200.0, 4970.0, -980.0),
    RevenuePoint("2025-05", 17580.0, 5220.0, -840.0),
    RevenuePoint("2025-06", 18910.0, 5510.0, -820.0),
    RevenuePoint("2025-07", 20150.0, 5740.0, -940.0),
    RevenuePoint("2025-08", 21590.0, 6030.0, -790.0),
    RevenuePoint("2025-09", 22940.0, 6420.0, -870.0)
  ]

  /** Five acquisition channels. */
  const Channels: seq<ChannelPoint> := [
    ChannelPoint("SEO", 840.0, 210.0, 48000.0),
    ChannelPoint("Ads", 610.0, 130.0, 35500.0),
    ChannelPoint("Affiliate", 320.0, 95.0, 22700.0),
    ChannelPoint("Social", 540.0, 120.0, 23900.0),
    ChannelPoint("Events", 180.0, 60.0, 15400.0)
  ]

  /** The "3m" range shows July to September; the default "6m" range shows
      April to September; "12m" shows all nine months. */
  lemma RangesOnBuiltInSeries()
    ensures |SlicedRevenue(Revenue, ThreeMonths)| == 3
    ensures SlicedRevenue(Revenue, ThreeMonths)[0].date == "2025-07"
    ensures SlicedRevenue(Revenue, ThreeMonths)[2].date == "2025-09"
    ensures SlicedRevenue(Revenue, DefaultRange) == Revenue[3..]
    ensures SlicedRevenue(Revenue, TwelveMonths) == Revenue
  {
  }

  /** The built-in data meets every condition the KPI cards divide under,
      and yields a conversion rate of 615 / 2490 and a churn rate of
      870 / 23810, each times 100. */
  lemma KpisOfBuiltInData()
    ensures Derivable(Revenue, Channels)
    ensures Total(Channels, Signups) == 615.0 && Total(Channels, Leads) == 2490.0
    ensures ConversionRate(Channels) == 615.0 / 2490.0 * 100.0
    ensures ChurnRate(Revenue[8]) == 870.0 / 23810.0 * 100.0
    ensures DeriveKpis(Revenue, Channels)[1].value == Currency(275280.0)
  {
    PrefixTotals(Channels, 1, 840.0, 210.0);
    PrefixTotals(Channels, 2, 1450.0, 340.0);
    PrefixTotals(Channels, 3, 1770.0, 435.0);
    PrefixTotals(Channels, 4, 2310.0, 555.0);
    PrefixTotals(Channels, 5, 2490.0, 615.0);
    assert Channels[..5] == Channels;
  }

  /** One step of adding up a prefix of a channel list. */
  lemma PrefixTotals(cs: seq<ChannelPoint>, k: nat, leads: real, signups: real)
    requires 0 < k <= |cs|
    requires Total(cs[..k - 1], Leads) + cs[k - 1].leads == leads
    requires Total(cs[..k - 1], Signups) + cs[k - 1].signups == signups
    ensures Total(cs[..k], Leads) == leads && Total(cs[..k], Signups) == signups
  {
    assert cs[..k][..k - 1] == cs[..k - 1];
  }

  /** Doubling MRR from 100 to 200 is a delta of 100 percent. */
  lemma DoublingIsHundredPercent()
    ensures MrrDelta([RevenuePoint("a", 100.0, 0.0, 0.0), RevenuePoint("b", 200.0, 0.0, 0.0)]) == 100.0
  {
  }

  /** 50 signups from 200 leads over two channels is a 25 percent conversion. */
  lemma TwoChannelConversion()
    ensures ConversionRate([ChannelPoint("x", 100.0, 20.0, 0.0), ChannelPoint("y", 100.0, 30.0, 0.0)]) == 25.0
  {
  }

  /** A two-period series is shown whole under the widest range. */
  lemma ShortSeriesShownWhole(series: seq<RevenuePoint>)
    requires |series| == 2
    ensures SlicedRevenue(series, TwelveMonths) == series
  {
  }
}
