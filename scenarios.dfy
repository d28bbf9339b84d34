/** Concrete reports: the response example of the report schema, a series of
    three entries, a tie between equal amounts, and the aggregation arithmetic
    of the repository's report test. Each is stated over any entries with the
    given series and amounts. */
module Scenarios {
  import opened Values
  import opened Schemas
  import opened Rounding
  import opened Services
  import opened ReportFacts

  /** The response example of the report schema: two entries in two
      different series. */
  lemma TwoSeriesReport(es: seq<SummaryEntry>, reportLabel: Option<string>, asOf: Option<Timestamp>)
    requires |es| == 2 && es[0].series != es[1].series
    requires es[0].headlineAmount == 5400.25 && es[1].headlineAmount == 6154364210.48
    ensures var r := SummaryReportOf(es, reportLabel, asOf);
      && r.totalModels == 2
      && r.overallHeadlineTotal == 6154369610.73
      && |r.seriesSummary| == 2
      && r.seriesSummary[0].series == es[0].series && r.seriesSummary[0].modelCount == 1
      && r.seriesSummary[1].series == es[1].series && r.seriesSummary[1].modelCount == 1
  {
    assert es[..1][..0] == [] && es[..2] == es;
    assert SeriesOrder(es[..1]) == [es[0].series];
    assert SeriesOrder(es) == [es[0].series, es[1].series];
    assert GroupOf(es[..1], es[0].series) == [es[0]];
    assert GroupOf(es, es[0].series) == [es[0]];
    assert GroupOf(es[..1], es[1].series) == [];
    assert GroupOf(es, es[1].series) == [es[1]];
    AggregatesAt(es, SeriesOrder(es));
    assert Total(es[..1]) == 5400.25;
    assert Total(es) == 6154369610.73;
    Round2OfCents(615436961073);
  }

  /** Three entries of one series form a single group. */
  lemma ThreeEntriesOneGroup(es: seq<SummaryEntry>)
    requires |es| == 3 && es[0].series == es[1].series == es[2].series
    ensures SeriesOrder(es) == [es[0].series] && GroupOf(es, es[0].series) == es
  {
    var s := es[0].series;
    assert es[..1][..0] == [] && es[..2][..1] == es[..1] && es[..3] == es;
    assert SeriesOrder(es[..1]) == [s];
    assert SeriesOrder(es[..2]) == [s];
    assert GroupOf(es[..1], s) == es[..1];
    assert GroupOf(es[..2], s) == es[..2];
  }

  /** The statistics of the amounts 100, 300, 200. */
  lemma ThreeEntriesStatistics(es: seq<SummaryEntry>)
    requires |es| == 3
    requires es[0].headlineAmount == 100.0 && es[1].headlineAmount == 300.0 && es[2].headlineAmount == 200.0
    ensures Total(es) == 600.0 && Average(es) == 200.0
    ensures MinAmount(es) == 100.0 && MaxAmount(es) == 300.0
    ensures TopIndex(es) == 1 && BottomIndex(es) == 0
  {
    assert es[..2][..1] == es[..1] && es[..1][..0] == [];
    assert Total(es[..1]) == 100.0 && Total(es[..2]) == 400.0;
    assert TopIndex(es) == 1;
    assert BottomIndex(es) == 0;
  }

  lemma WholeAmountsStayWhole()
    ensures Round2(600.0) == 600.0 && Round2(200.0) == 200.0
    ensures Round2(100.0) == 100.0 && Round2(300.0) == 300.0
  {
    Round2OfCents(60000);
    Round2OfCents(20000);
    Round2OfCents(10000);
    Round2OfCents(30000);
  }

  /** The aggregate of the three-entry example. */
  lemma OneSeriesGroup(es: seq<SummaryEntry>)
    requires |es| == 3 && es[0].series == es[1].series == es[2].series
    requires es[0].headlineAmount == 100.0 && es[1].headlineAmount == 300.0 && es[2].headlineAmount == 200.0
    ensures SeriesOrder(es) == [es[0].series] && GroupOf(es, es[0].series) == es
    ensures AggregateOf(es[0].series, es) == SummarySeriesAggregate(es[0].series, 3, 600.0, 200.0, 100.0, 300.0,
      SummarySeriesHighlight(es[1].model, 300.0), SummarySeriesHighlight(es[0].model, 100.0))
  {
    ThreeEntriesOneGroup(es);
    ThreeEntriesStatistics(es);
    WholeAmountsStayWhole();
  }

  /** Three entries of one series with amounts 100, 300 and 200: total 600,
      average 200, and the highlights are the entries with 300 and with 100. */
  lemma OneSeriesReport(es: seq<SummaryEntry>, reportLabel: Option<string>, asOf: Option<Timestamp>)
    requires |es| == 3 && es[0].series == es[1].series == es[2].series
    requires es[0].headlineAmount == 100.0 && es[1].headlineAmount == 300.0 && es[2].headlineAmount == 200.0
    ensures SummaryReportOf(es, reportLabel, asOf).seriesSummary
      == [SummarySeriesAggregate(es[0].series, 3, 600.0, 200.0, 100.0, 300.0,
            SummarySeriesHighlight(es[1].model, 300.0), SummarySeriesHighlight(es[0].model, 100.0))]
  {
    OneSeriesGroup(es);
    AggregatesAt(es, SeriesOrder(es));
  }

  /** Two entries of one series with equal amounts: both highlights name the
      first of them. */
  lemma TiesGoToTheFirstEntry(es: seq<SummaryEntry>, reportLabel: Option<string>, asOf: Option<Timestamp>)
    requires |es| == 2 && es[0].series == es[1].series && es[0].headlineAmount == es[1].headlineAmount
    ensures var ss := SummaryReportOf(es, reportLabel, asOf).seriesSummary;
      |ss| == 1 && ss[0].topModel.model == es[0].model && ss[0].bottomModel.model == es[0].model
  {
    var s := es[0].series;
    assert es[..1][..0] == [] && es[..2] == es;
    assert SeriesOrder(es[..1]) == [s];
    assert SeriesOrder(es) == [s];
    assert GroupOf(es[..1], s) == es[..1];
    assert GroupOf(es, s) == es;
    assert TopIndex(es) == 0;
    assert BottomIndex(es) == 0;
    AggregatesAt(es, SeriesOrder(es));
  }

  /** The arithmetic of the repository's report test: two pre-built entries
      under the label "Quarterly Consolidated". */
  lemma QuarterlyConsolidatedReport(es: seq<SummaryEntry>, asOf: Option<Timestamp>)
    requires |es| == 2
    requires es[0].headlineAmount == 24726.78 && es[1].headlineAmount == 6154364210.48
    ensures var r := SummaryReportOf(es, Some("Quarterly Consolidated"), asOf);
      && r.reportLabel == "Quarterly Consolidated"
      && r.totalModels == 2
      && r.overallHeadlineTotal == 6154388937.26
  {
    assert es[..1][..0] == [] && es[..2] == es;
    assert Total(es[..1]) == 24726.78;
    assert Total(es) == 6154388937.26;
    Round2OfCents(615438893726);
  }
}
