/** What the response of `build_summary_report` promises about its input:
    counts and totals that add up, one aggregate per series in first-seen
    order, stable top/bottom highlights, echoed entries, exactness for
    amounts in whole cents and independence of the input order. */
module ReportFacts {
  import opened Values
  import opened Schemas
  import opened Rounding
  import opened Services

  // ---------------------------------------------------------------------------
  // The aggregate list
  // ---------------------------------------------------------------------------

  /** Aggregate `k` is the aggregate of the `k`-th listed series. */
  lemma {:induction false} AggregatesAt(es: seq<SummaryEntry>, order: seq<string>)
    requires forall s :: s in order ==> |GroupOf(es, s)| > 0
    ensures |Aggregates(es, order)| == |order|
    ensures forall k :: 0 <= k < |order| ==>
      Aggregates(es, order)[k] == AggregateOf(order[k], GroupOf(es, order[k]))
  {
    if |order| > 0 {
      var prefix := order[..|order| - 1];
      assert forall s :: s in prefix ==> s in order;
      AggregatesAt(es, prefix);
      var aggs := Aggregates(es, order);
      assert aggs == Aggregates(es, prefix) + [AggregateOf(order[|order| - 1], GroupOf(es, order[|order| - 1]))];
      forall k | 0 <= k < |order| ensures aggs[k] == AggregateOf(order[k], GroupOf(es, order[k])) {
        if k < |prefix| {
          assert aggs[k] == Aggregates(es, prefix)[k];
          assert prefix[k] == order[k];
        }
      }
    }
  }

  /** The sum of the `model_count` fields of a list of aggregates. */
  function SumModelCounts(aggs: seq<SummarySeriesAggregate>): int {
    if |aggs| == 0 then 0 else SumModelCounts(aggs[..|aggs| - 1]) + aggs[|aggs| - 1].modelCount
  }

  lemma {:induction false} AggregatesCount(es: seq<SummaryEntry>, order: seq<string>)
    requires forall s :: s in order ==> |GroupOf(es, s)| > 0
    ensures SumModelCounts(Aggregates(es, order)) == SumCounts(es, order)
  {
    if |order| > 0 {
      var prefix := order[..|order| - 1];
      assert forall s :: s in prefix ==> s in order;
      AggregatesCount(es, prefix);
      var aggs := Aggregates(es, order);
      assert aggs[..|aggs| - 1] == Aggregates(es, prefix);
    }
  }

  // ---------------------------------------------------------------------------
  // Counts and totals
  // ---------------------------------------------------------------------------

  /** `total_models` is the number of entries and the sum of the series'
      `model_count`s; `overall_headline_total` is the rounded sum of the exact
      series totals; every entry is echoed. */
  lemma ReportTotals(es: seq<SummaryEntry>, reportLabel: Option<string>, asOf: Option<Timestamp>)
    ensures var r := SummaryReportOf(es, reportLabel, asOf);
      && r.totalModels == |es|
      && SumModelCounts(r.seriesSummary) == |es|
      && r.overallHeadlineTotal == Round2(SumTotals(es, SeriesOrder(es)))
      && |r.entries| == |es|
  {
    SeriesOrderGroupsNonEmpty(es);
    AggregatesCount(es, SeriesOrder(es));
    GroupingPartitions(es);
  }

  /** The label falls back to the default, the timestamp is echoed. */
  lemma ReportHeader(es: seq<SummaryEntry>, reportLabel: Option<string>, asOf: Option<Timestamp>)
    ensures var r := SummaryReportOf(es, reportLabel, asOf);
      && r.asOf == asOf
      && r.reportLabel != ""
      && (reportLabel.Some? && reportLabel.value != "" ==> r.reportLabel == reportLabel.value)
      && (reportLabel.None? || reportLabel.value == "" ==> r.reportLabel == DefaultReportLabel)
  {
  }

  // ---------------------------------------------------------------------------
  // Series structure
  // ---------------------------------------------------------------------------

  /** The series summary lists the series of the input in first-seen order. */
  lemma ReportSeriesOrder(es: seq<SummaryEntry>, reportLabel: Option<string>, asOf: Option<Timestamp>)
    ensures var ss := SummaryReportOf(es, reportLabel, asOf).seriesSummary;
      && |ss| == |SeriesOrder(es)|
      && forall k :: 0 <= k < |ss| ==> ss[k].series == SeriesOrder(es)[k]
  {
    SeriesOrderGroupsNonEmpty(es);
    AggregatesAt(es, SeriesOrder(es));
  }

  // Facts about a list whose series are those of `SeriesOrder(es)`, position
  // by position.

  predicate ListsSeriesOf(es: seq<SummaryEntry>, ss: seq<SummarySeriesAggregate>) {
    && |ss| == |SeriesOrder(es)|
    && forall k :: 0 <= k < |ss| ==> ss[k].series == SeriesOrder(es)[k]
  }

  /** No series is listed twice. */
  predicate ListedOnce(ss: seq<SummarySeriesAggregate>) {
    forall a, b :: 0 <= a < b < |ss| ==> ss[a].series != ss[b].series
  }

  /** Every entry's series is listed. */
  predicate CoversEntries(es: seq<SummaryEntry>, ss: seq<SummarySeriesAggregate>) {
    forall i :: 0 <= i < |es| ==> exists k :: 0 <= k < |ss| && ss[k].series == es[i].series
  }

  /** Every listed series has an entry. */
  predicate ListsOnlyEntrySeries(es: seq<SummaryEntry>, ss: seq<SummarySeriesAggregate>) {
    forall k :: 0 <= k < |ss| ==> exists i :: 0 <= i < |es| && es[i].series == ss[k].series
  }

  lemma ListedSeriesOnce(es: seq<SummaryEntry>, ss: seq<SummarySeriesAggregate>)
    requires ListsSeriesOf(es, ss)
    ensures ListedOnce(ss)
  {
    SeriesOrderDistinct(es);
  }

  lemma ListedCoversEntries(es: seq<SummaryEntry>, ss: seq<SummarySeriesAggregate>)
    requires ListsSeriesOf(es, ss)
    ensures CoversEntries(es, ss)
  {
    var order := SeriesOrder(es);
    SeriesOrderCovers(es);
    forall i | 0 <= i < |es| ensures exists k :: 0 <= k < |ss| && ss[k].series == es[i].series {
      var k :| 0 <= k < |order| && order[k] == es[i].series;
      assert ss[k].series == es[i].series;
    }
  }

  lemma ListedHaveEntries(es: seq<SummaryEntry>, ss: seq<SummarySeriesAggregate>)
    requires ListsSeriesOf(es, ss)
    ensures ListsOnlyEntrySeries(es, ss)
  {
    var order := SeriesOrder(es);
    SeriesOrderCovers(es);
    forall k | 0 <= k < |ss| ensures exists i :: 0 <= i < |es| && es[i].series == ss[k].series {
      assert order[k] in order;
      var i :| 0 <= i < |es| && es[i].series == order[k];
      assert es[i].series == ss[k].series;
    }
  }

  /** Every entry of a later listed series comes after some entry of each
      earlier listed series. */
  predicate InFirstSeenOrder(es: seq<SummaryEntry>, ss: seq<SummarySeriesAggregate>) {
    forall a, b, i :: 0 <= a < b < |ss| && 0 <= i < |es| && es[i].series == ss[b].series ==>
      exists j :: 0 <= j < i && es[j].series == ss[a].series
  }

  lemma ListedFirstSeen(es: seq<SummaryEntry>, ss: seq<SummarySeriesAggregate>)
    requires ListsSeriesOf(es, ss)
    ensures InFirstSeenOrder(es, ss)
  {
    var order := SeriesOrder(es);
    SeriesOrderIsFirstSeen(es);
    forall a, b, i | 0 <= a < b < |ss| && 0 <= i < |es| && es[i].series == ss[b].series
      ensures exists j :: 0 <= j < i && es[j].series == ss[a].series
    {
      assert es[i].series == order[b];
      var j :| 0 <= j < i && es[j].series == order[a];
      assert es[j].series == ss[a].series;
    }
  }

  /** The series summary lists each series once, every entry's series, only
      series with an entry, in first-seen order. */
  lemma ReportSeriesArePartition(es: seq<SummaryEntry>, reportLabel: Option<string>, asOf: Option<Timestamp>)
    ensures var ss := SummaryReportOf(es, reportLabel, asOf).seriesSummary;
      ListedOnce(ss) && CoversEntries(es, ss) && ListsOnlyEntrySeries(es, ss) && InFirstSeenOrder(es, ss)
  {
    var ss := SummaryReportOf(es, reportLabel, asOf).seriesSummary;
    ReportSeriesOrder(es, reportLabel, asOf);
    ListedSeriesOnce(es, ss);
    ListedCoversEntries(es, ss);
    ListedHaveEntries(es, ss);
    ListedFirstSeen(es, ss);
  }

  /** Aggregate `k` summarises exactly the entries of its series: their
      count (the number of positions of the series), rounded total and
      average, min <= average <= max, and as highlights the first entry in
      input order with the largest and with the smallest amount. */
  lemma ReportAggregate(es: seq<SummaryEntry>, reportLabel: Option<string>, asOf: Option<Timestamp>, k: int)
    requires 0 <= k < |SeriesOrder(es)|
    ensures var ss := SummaryReportOf(es, reportLabel, asOf).seriesSummary;
      k < |ss| &&
      var agg := ss[k];
      var g := GroupOf(es, agg.series);
      && agg.series == SeriesOrder(es)[k]
      && agg.modelCount == |g| == |SeriesPositions(es, agg.series)| >= 1
      && agg.headlineTotal == Round2(Total(g))
      && agg.headlineAverage == Round2(Total(g) / |g| as real)
      && agg.headlineMin <= agg.headlineAverage <= agg.headlineMax
      && agg.topModel.headlineAmount == agg.headlineMax
      && agg.bottomModel.headlineAmount == agg.headlineMin
      && (exists i :: IsFirstMax(es, agg.series, i)
            && agg.topModel == SummarySeriesHighlight(es[i].model, Round2(es[i].headlineAmount)))
      && (exists i :: IsFirstMin(es, agg.series, i)
            && agg.bottomModel == SummarySeriesHighlight(es[i].model, Round2(es[i].headlineAmount)))
  {
    var s := SeriesOrder(es)[k];
    SeriesOrderGroupsNonEmpty(es);
    AggregatesAt(es, SeriesOrder(es));
    var g := GroupOf(es, s);
    AggregateFacts(s, g);
    GroupIsSubsequence(es, s);
    TopIsFirstMaxInInput(es, s);
    BottomIsFirstMinInInput(es, s);
  }

  // ---------------------------------------------------------------------------
  // The entry echo
  // ---------------------------------------------------------------------------

  /** Entry results echo the input entries in order, each amount within half
      a cent of the input amount. */
  lemma ReportEchoesEntries(es: seq<SummaryEntry>, reportLabel: Option<string>, asOf: Option<Timestamp>)
    ensures var out := SummaryReportOf(es, reportLabel, asOf).entries;
      && |out| == |es|
      && forall i :: 0 <= i < |es| ==>
        && out[i].series == es[i].series && out[i].model == es[i].model
        && out[i].currency == es[i].currency && out[i].details == es[i].details
        && out[i].headlineAmount == Round2(es[i].headlineAmount)
        && -0.005 <= out[i].headlineAmount - es[i].headlineAmount <= 0.005
  {
  }

  // ---------------------------------------------------------------------------
  // Whole cents
  // ---------------------------------------------------------------------------

  /** `x` is a whole number of cents. */
  predicate InCents(x: real) {
    (x * 100.0).Floor as real == x * 100.0
  }

  /** Every figure of an aggregate is a whole number of cents. */
  predicate AggregateInCents(agg: SummarySeriesAggregate) {
    && InCents(agg.headlineTotal) && InCents(agg.headlineAverage)
    && InCents(agg.headlineMin) && InCents(agg.headlineMax)
    && InCents(agg.topModel.headlineAmount) && InCents(agg.bottomModel.headlineAmount)
  }

  lemma AggregateOfInCents(series: string, group: seq<SummaryEntry>)
    requires |group| > 0
    ensures AggregateInCents(AggregateOf(series, group))
  {
  }

  lemma AggregateAtInCents(es: seq<SummaryEntry>, k: int)
    requires 0 <= k < |SeriesOrder(es)|
    ensures SeriesOrderGroupsNonEmptyHolds(es)
    ensures k < |Aggregates(es, SeriesOrder(es))| && AggregateInCents(Aggregates(es, SeriesOrder(es))[k])
  {
    SeriesOrderGroupsNonEmpty(es);
    AggregatesAt(es, SeriesOrder(es));
    var s := SeriesOrder(es)[k];
    AggregateOfInCents(s, GroupOf(es, s));
  }

  /** Every listed series has a non-empty group, so its aggregate exists. */
  predicate SeriesOrderGroupsNonEmptyHolds(es: seq<SummaryEntry>) {
    forall s :: s in SeriesOrder(es) ==> |GroupOf(es, s)| > 0
  }

  lemma SeriesSummaryInCents(es: seq<SummaryEntry>, reportLabel: Option<string>, asOf: Option<Timestamp>)
    ensures var ss := SummaryReportOf(es, reportLabel, asOf).seriesSummary;
      forall k :: 0 <= k < |ss| ==> AggregateInCents(ss[k])
  {
    var ss := SummaryReportOf(es, reportLabel, asOf).seriesSummary;
    ReportSeriesOrder(es, reportLabel, asOf);
    forall k | 0 <= k < |ss| ensures AggregateInCents(ss[k]) {
      AggregateAtInCents(es, k);
    }
  }

  lemma EntriesInCents(es: seq<SummaryEntry>, reportLabel: Option<string>, asOf: Option<Timestamp>)
    ensures var out := SummaryReportOf(es, reportLabel, asOf).entries;
      forall i :: 0 <= i < |out| ==> InCents(out[i].headlineAmount)
  {
    ReportEchoesEntries(es, reportLabel, asOf);
  }

  lemma OverallInCents(es: seq<SummaryEntry>, reportLabel: Option<string>, asOf: Option<Timestamp>)
    ensures InCents(SummaryReportOf(es, reportLabel, asOf).overallHeadlineTotal)
  {
    var t := Round2(Total(es));
    assert InCents(t);
  }

  /** Every amount of report `r` is a whole number of cents. */
  predicate ReportInCents(r: SummaryReportResponse) {
    && InCents(r.overallHeadlineTotal)
    && (forall k :: 0 <= k < |r.seriesSummary| ==> AggregateInCents(r.seriesSummary[k]))
    && (forall i :: 0 <= i < |r.entries| ==> InCents(r.entries[i].headlineAmount))
  }

  /** Every amount a report carries is rounded to two decimals: the overall
      total, each series' total, average, minimum, maximum and highlights,
      and each echoed entry. */
  lemma ReportFiguresInCents(es: seq<SummaryEntry>, reportLabel: Option<string>, asOf: Option<Timestamp>)
    ensures ReportInCents(SummaryReportOf(es, reportLabel, asOf))
  {
    OverallInCents(es, reportLabel, asOf);
    SeriesSummaryInCents(es, reportLabel, asOf);
    EntriesInCents(es, reportLabel, asOf);
  }

  lemma Round2KeepsCents(x: real)
    requires InCents(x)
    ensures Round2(x) == x
  {
    var c := (x * 100.0).Floor;
    Round2OfCents(c);
    assert c as real / 100.0 == x;
  }

  lemma IntegerFloor(n: int)
    ensures (n as real).Floor == n
  {
  }

  lemma {:induction false} TotalInCents(es: seq<SummaryEntry>)
    requires forall i :: 0 <= i < |es| ==> InCents(es[i].headlineAmount)
    ensures InCents(Total(es))
  {
    if |es| > 0 {
      var init := es[..|es| - 1];
      assert forall i :: 0 <= i < |init| ==> init[i] == es[i];
      TotalInCents(init);
      var a := (Total(init) * 100.0).Floor;
      var b := (es[|es| - 1].headlineAmount * 100.0).Floor;
      assert Total(es) * 100.0 == (a + b) as real;
      IntegerFloor(a + b);
    }
  }

  /** When every amount is a whole number of cents, rounding changes nothing:
      the overall total and every series total are exact, and every entry
      result carries its input amount. */
  lemma ReportExactInCents(es: seq<SummaryEntry>, reportLabel: Option<string>, asOf: Option<Timestamp>)
    requires forall i :: 0 <= i < |es| ==> InCents(es[i].headlineAmount)
    ensures var r := SummaryReportOf(es, reportLabel, asOf);
      && r.overallHeadlineTotal == Total(es)
      && (forall i :: 0 <= i < |r.entries| ==> r.entries[i].headlineAmount == es[i].headlineAmount)
      && (forall k :: 0 <= k < |r.seriesSummary| ==>
            r.seriesSummary[k].headlineTotal == Total(GroupOf(es, r.seriesSummary[k].series)))
  {
    var r := SummaryReportOf(es, reportLabel, asOf);
    TotalInCents(es);
    Round2KeepsCents(Total(es));
    forall i | 0 <= i < |r.entries| ensures r.entries[i].headlineAmount == es[i].headlineAmount {
      Round2KeepsCents(es[i].headlineAmount);
    }
    ReportSeriesOrder(es, reportLabel, asOf);
    forall k | 0 <= k < |r.seriesSummary|
      ensures r.seriesSummary[k].headlineTotal == Total(GroupOf(es, r.seriesSummary[k].series))
    {
      var s := r.seriesSummary[k].series;
      ReportAggregate(es, reportLabel, asOf, k);
      GroupMembers(es, s);
      var g := GroupOf(es, s);
      forall j | 0 <= j < |g| ensures InCents(g[j].headlineAmount) {
        assert g[j] in g;
        var i :| 0 <= i < |es| && es[i] == g[j];
      }
      TotalInCents(g);
      Round2KeepsCents(Total(g));
    }
  }

  /** The entries a client sends back when it resubmits a report's entry
      results: each result read as a summary entry. */
  function Resubmitted(out: seq<SummaryEntryResult>): seq<SummaryEntry> {
    seq(|out|, i requires 0 <= i < |out| =>
      SummaryEntry(out[i].series, out[i].model, out[i].headlineAmount, out[i].currency, out[i].details))
  }

  /** With every amount in whole cents, resubmitting the echoed entries
      rebuilds the same report: the same overall total, the same series
      summary and the same entries. */
  lemma RoundTripInCents(es: seq<SummaryEntry>, reportLabel: Option<string>, asOf: Option<Timestamp>)
    requires forall i :: 0 <= i < |es| ==> InCents(es[i].headlineAmount)
    ensures var r := SummaryReportOf(es, reportLabel, asOf);
      SummaryReportOf(Resubmitted(r.entries), reportLabel, asOf) == r
  {
    var r := SummaryReportOf(es, reportLabel, asOf);
    ReportExactInCents(es, reportLabel, asOf);
    ReportEchoesEntries(es, reportLabel, asOf);
    assert Resubmitted(r.entries) == es;
  }

  lemma SubCentRounding()
    ensures Round2(0.008) == 0.01 && Round2(0.004) == 0.0 && Round2(0.0) == 0.0
  {
    assert NearestEven(0.8) == 1;
    assert NearestEven(0.4) == 0;
    Round2OfCents(0);
  }

  lemma TwoEntryTotal(es: seq<SummaryEntry>)
    requires |es| == 2
    ensures Total(es) == es[0].headlineAmount + es[1].headlineAmount
  {
    assert es[..1][..0] == [];
    assert Total(es[..1]) == es[0].headlineAmount;
  }

  /** Off whole cents the round trip fails: two entries of 0.004 in one
      series total 0.01 after rounding, but their echoed amounts are 0.0, so
      the resubmitted report totals 0.0. */
  lemma RoundTripLosesSubCents(es: seq<SummaryEntry>, reportLabel: Option<string>, asOf: Option<Timestamp>)
    requires |es| == 2 && es[0].series == es[1].series
    requires es[0].headlineAmount == 0.004 && es[1].headlineAmount == 0.004
    ensures var r := SummaryReportOf(es, reportLabel, asOf);
      var r' := SummaryReportOf(Resubmitted(r.entries), reportLabel, asOf);
      && r.overallHeadlineTotal == 0.01
      && r'.overallHeadlineTotal == 0.0
  {
    SubCentRounding();
    TwoEntryTotal(es);
    var r := SummaryReportOf(es, reportLabel, asOf);
    assert r.overallHeadlineTotal == Round2(Total(es));
    var es' := Resubmitted(r.entries);
    assert r.entries[0].headlineAmount == Round2(0.004);
    assert r.entries[1].headlineAmount == Round2(0.004);
    TwoEntryTotal(es');
    assert SummaryReportOf(es', reportLabel, asOf).overallHeadlineTotal == Round2(Total(es'));
  }

  // ---------------------------------------------------------------------------
  // Input order
  // ---------------------------------------------------------------------------

  /** Taking entry `j` out of a list takes its amount off the total. */
  lemma {:induction false} TotalRemove(b: seq<SummaryEntry>, j: int)
    requires 0 <= j < |b|
    ensures Total(b) == Total(b[..j] + b[j + 1..]) + b[j].headlineAmount
  {
    var init := b[..|b| - 1];
    if j < |init| {
      TotalRemove(init, j);
      var rest := b[..j] + b[j + 1..];
      var rest' := init[..j] + init[j + 1..];
      assert rest == rest' + [b[|b| - 1]];
      assert rest[..|rest| - 1] == rest';
      assert init[j] == b[j];
    } else {
      assert b[..j] + b[j + 1..] == init;
    }
  }

  lemma MultisetRemove(b: seq<SummaryEntry>, j: int)
    requires 0 <= j < |b|
    ensures multiset(b[..j] + b[j + 1..]) == multiset(b) - multiset{b[j]}
  {
    assert b == b[..j] + [b[j]] + b[j + 1..];
    assert multiset(b) == multiset(b[..j]) + multiset{b[j]} + multiset(b[j + 1..]);
  }

  /** In exact arithmetic the total does not depend on the entry order. */
  lemma {:induction false} TotalPermutation(a: seq<SummaryEntry>, b: seq<SummaryEntry>)
    requires multiset(a) == multiset(b)
    ensures Total(a) == Total(b)
    decreases |a|
  {
    if |a| > 0 {
      var x := a[|a| - 1];
      var a' := a[..|a| - 1];
      assert a == a' + [x];
      assert multiset(a') == multiset(a) - multiset{x};
      assert x in multiset(b);
      var j :| 0 <= j < |b| && b[j] == x;
      MultisetRemove(b, j);
      TotalRemove(b, j);
      TotalPermutation(a', b[..j] + b[j + 1..]);
    } else {
      assert |multiset(b)| == 0;
    }
  }

  /** Reordering the entries changes neither `total_models` nor
      `overall_headline_total`. */
  lemma ReportTotalsIgnoreOrder(es: seq<SummaryEntry>, other: seq<SummaryEntry>,
                                reportLabel: Option<string>, asOf: Option<Timestamp>)
    requires multiset(es) == multiset(other)
    ensures SummaryReportOf(es, reportLabel, asOf).totalModels == SummaryReportOf(other, reportLabel, asOf).totalModels
    ensures SummaryReportOf(es, reportLabel, asOf).overallHeadlineTotal
         == SummaryReportOf(other, reportLabel, asOf).overallHeadlineTotal
  {
    TotalPermutation(es, other);
    assert |es| == |multiset(es)| == |multiset(other)| == |other|;
  }
}
