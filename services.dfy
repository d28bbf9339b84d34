/** The aggregator `build_summary_report` (app/services.py): grouping by
    series in first-seen order, per-series statistics with stable top/bottom
    selection, the entry echo and the label default. */
module Services {
  import opened Values
  import opened Schemas
  import opened Rounding

  // ---------------------------------------------------------------------------
  // Statistics over a list of entries (the pure sub-expressions)
  // ---------------------------------------------------------------------------

  /** `sum(e.headline_amount for e in es)`, in exact arithmetic. */
  function Total(es: seq<SummaryEntry>): real {
    if |es| == 0 then 0.0 else Total(es[..|es| - 1]) + es[|es| - 1].headlineAmount
  }

  /** `min(headline_values)`. */
  function MinAmount(es: seq<SummaryEntry>): (m: real)
    requires |es| > 0
    ensures forall i :: 0 <= i < |es| ==> m <= es[i].headlineAmount
    ensures exists i :: 0 <= i < |es| && es[i].headlineAmount == m
  {
    if |es| == 1 then es[0].headlineAmount
    else
      var init := es[..|es| - 1];
      var m := MinAmount(init);
      assert forall i :: 0 <= i < |init| ==> init[i] == es[i];
      if es[|es| - 1].headlineAmount < m then es[|es| - 1].headlineAmount else m
  }

  /** `max(headline_values)`. */
  function MaxAmount(es: seq<SummaryEntry>): (m: real)
    requires |es| > 0
    ensures forall i :: 0 <= i < |es| ==> es[i].headlineAmount <= m
    ensures exists i :: 0 <= i < |es| && es[i].headlineAmount == m
  {
    if |es| == 1 then es[0].headlineAmount
    else
      var init := es[..|es| - 1];
      var m := MaxAmount(init);
      assert forall i :: 0 <= i < |init| ==> init[i] == es[i];
      if es[|es| - 1].headlineAmount > m then es[|es| - 1].headlineAmount else m
  }

  /** The position `max(es, key=headline_amount)` picks: the running
      maximum is replaced only by a strictly larger amount, so the result is
      the first maximal entry. */
  function TopIndex(es: seq<SummaryEntry>): (k: nat)
    requires |es| > 0
    ensures k < |es|
    ensures forall i :: 0 <= i < |es| ==> es[i].headlineAmount <= es[k].headlineAmount
    ensures forall i :: 0 <= i < k ==> es[i].headlineAmount < es[k].headlineAmount
  {
    if |es| == 1 then 0
    else
      var init := es[..|es| - 1];
      var b := TopIndex(init);
      assert forall i :: 0 <= i < |init| ==> init[i] == es[i];
      if es[|es| - 1].headlineAmount > es[b].headlineAmount then |es| - 1 else b
  }

  /** The position `min(es, key=headline_amount)` picks: the first minimal entry. */
  function BottomIndex(es: seq<SummaryEntry>): (k: nat)
    requires |es| > 0
    ensures k < |es|
    ensures forall i :: 0 <= i < |es| ==> es[k].headlineAmount <= es[i].headlineAmount
    ensures forall i :: 0 <= i < k ==> es[k].headlineAmount < es[i].headlineAmount
  {
    if |es| == 1 then 0
    else
      var init := es[..|es| - 1];
      var b := BottomIndex(init);
      assert forall i :: 0 <= i < |init| ==> init[i] == es[i];
      if es[|es| - 1].headlineAmount < es[b].headlineAmount then |es| - 1 else b
  }

  // ---------------------------------------------------------------------------
  // Grouping
  // ---------------------------------------------------------------------------

  /** The distinct series of `es` in first-seen order: the key order of the
      `grouped` dictionary. */
  function SeriesOrder(es: seq<SummaryEntry>): seq<string> {
    if |es| == 0 then []
    else
      var prior := SeriesOrder(es[..|es| - 1]);
      var s := es[|es| - 1].series;
      if s in prior then prior else prior + [s]
  }

  /** The entries of `es` in series `s`, in input order: `grouped[s]`. */
  function GroupOf(es: seq<SummaryEntry>, s: string): seq<SummaryEntry> {
    if |es| == 0 then []
    else GroupOf(es[..|es| - 1], s) + (if es[|es| - 1].series == s then [es[|es| - 1]] else [])
  }

  /** `headline_total / model_count`, from the unrounded total. */
  function Average(group: seq<SummaryEntry>): real
    requires |group| > 0
  {
    Total(group) / (|group| as real)
  }

  /** One `SummarySeriesAggregate`, built from the entries of one series. */
  function AggregateOf(series: string, group: seq<SummaryEntry>): SummarySeriesAggregate
    requires |group| > 0
  {
    var total := Total(group);
    var count := |group|;
    var average := Average(group);
    var top := group[TopIndex(group)];
    var bottom := group[BottomIndex(group)];
    SummarySeriesAggregate(
      series, count,
      Round2(total), Round2(average), Round2(MinAmount(group)), Round2(MaxAmount(group)),
      SummarySeriesHighlight(top.model, Round2(top.headlineAmount)),
      SummarySeriesHighlight(bottom.model, Round2(bottom.headlineAmount)))
  }

  /** One `SummaryEntryResult`: the entry echoed with its amount rounded. */
  function EntryResultOf(e: SummaryEntry): SummaryEntryResult {
    SummaryEntryResult(e.series, e.model, Round2(e.headlineAmount), e.currency, e.details)
  }

  /** `payload.report_label or "SEBIT Summary Report"`. */
  function LabelOrDefault(reportLabel: Option<string>): (r: string)
    ensures r != ""
    ensures reportLabel.Some? && reportLabel.value != "" ==> r == reportLabel.value
    ensures reportLabel.None? || reportLabel.value == "" ==> r == DefaultReportLabel
  {
    if reportLabel.Some? && reportLabel.value != "" then reportLabel.value else DefaultReportLabel
  }

  // ---------------------------------------------------------------------------
  // Facts about grouping
  // ---------------------------------------------------------------------------

  lemma {:induction false} SeriesOrderDistinct(es: seq<SummaryEntry>)
    ensures forall a, b :: 0 <= a < b < |SeriesOrder(es)| ==> SeriesOrder(es)[a] != SeriesOrder(es)[b]
  {
    if |es| > 0 {
      SeriesOrderDistinct(es[..|es| - 1]);
    }
  }

  /** The series order lists exactly the series that occur in `es`. */
  lemma {:induction false} SeriesOrderCovers(es: seq<SummaryEntry>)
    ensures forall i :: 0 <= i < |es| ==> es[i].series in SeriesOrder(es)
    ensures forall s :: s in SeriesOrder(es) ==> exists i :: 0 <= i < |es| && es[i].series == s
  {
    if |es| > 0 {
      var init := es[..|es| - 1];
      SeriesOrderCovers(init);
      assert forall i :: 0 <= i < |init| ==> init[i] == es[i];
      forall s | s in SeriesOrder(es) ensures exists i :: 0 <= i < |es| && es[i].series == s {
        if s in SeriesOrder(init) {
          var i :| 0 <= i < |init| && init[i].series == s;
          assert es[i].series == s;
        } else {
          assert es[|es| - 1].series == s;
        }
      }
    }
  }

  /** The group of `s` holds exactly the entries of `es` in series `s`. */
  lemma {:induction false} GroupMembers(es: seq<SummaryEntry>, s: string)
    ensures forall x :: x in GroupOf(es, s) <==> x in es && x.series == s
  {
    if |es| > 0 {
      var init := es[..|es| - 1];
      GroupMembers(init, s);
      assert es == init + [es[|es| - 1]];
    }
  }

  /** `idx` lists the positions in `es` of the entries of series `s`: all of
      them, each once, in increasing order. */
  predicate PositionsOf(es: seq<SummaryEntry>, s: string, idx: seq<int>) {
    && (forall k :: 0 <= k < |idx| ==> 0 <= idx[k] < |es| && es[idx[k]].series == s)
    && (forall k, l :: 0 <= k < l < |idx| ==> idx[k] < idx[l])
    && (forall i :: 0 <= i < |es| && es[i].series == s ==> i in idx)
  }

  lemma PositionsExtend(es: seq<SummaryEntry>, s: string, prior: seq<int>)
    requires |es| > 0 && PositionsOf(es[..|es| - 1], s, prior)
    ensures PositionsOf(es, s, if es[|es| - 1].series == s then prior + [|es| - 1] else prior)
  {
    var init := es[..|es| - 1];
    assert forall i :: 0 <= i < |init| ==> es[i] == init[i];
  }

  /** The positions of the entries of series `s`, in input order. */
  function SeriesPositions(es: seq<SummaryEntry>, s: string): (idx: seq<int>)
    ensures PositionsOf(es, s, idx)
  {
    if |es| == 0 then []
    else
      var prior := SeriesPositions(es[..|es| - 1], s);
      PositionsExtend(es, s, prior);
      if es[|es| - 1].series == s then prior + [|es| - 1] else prior
  }

  /** `grouped[s]` is the subsequence of the input at the positions of
      series `s`: same length, same entries, input order kept. */
  lemma {:induction false} GroupIsSubsequence(es: seq<SummaryEntry>, s: string)
    ensures |GroupOf(es, s)| == |SeriesPositions(es, s)|
    ensures forall k :: 0 <= k < |GroupOf(es, s)| ==> GroupOf(es, s)[k] == es[SeriesPositions(es, s)[k]]
  {
    if |es| > 0 {
      var init := es[..|es| - 1];
      GroupIsSubsequence(init, s);
      var g, p := GroupOf(init, s), SeriesPositions(init, s);
      assert forall k :: 0 <= k < |p| ==> 0 <= p[k] < |init|;
      assert forall k :: 0 <= k < |p| ==> es[p[k]] == init[p[k]];
      var last := es[|es| - 1];
      if last.series == s {
        assert GroupOf(es, s) == g + [last];
        assert SeriesPositions(es, s) == p + [|es| - 1];
      } else {
        assert GroupOf(es, s) == g;
        assert SeriesPositions(es, s) == p;
      }
    }
  }

  /** Each entry occurs in `grouped[s]` as often as in the input if it is in
      series `s`, and not at all otherwise. */
  lemma {:induction false} GroupMultiset(es: seq<SummaryEntry>, s: string)
    ensures forall x :: multiset(GroupOf(es, s))[x] == if x.series == s then multiset(es)[x] else 0
  {
    if |es| > 0 {
      var init := es[..|es| - 1];
      var e := es[|es| - 1];
      GroupMultiset(init, s);
      assert es == init + [e];
      assert multiset(es) == multiset(init) + multiset{e};
      if e.series == s {
        assert multiset(GroupOf(es, s)) == multiset(GroupOf(init, s)) + multiset{e};
      } else {
        assert GroupOf(es, s) == GroupOf(init, s);
      }
    }
  }

  /** A series has a non-empty group exactly when it occurs in the series order. */
  lemma GroupNonEmptyIffListed(es: seq<SummaryEntry>, s: string)
    ensures |GroupOf(es, s)| > 0 <==> s in SeriesOrder(es)
  {
    SeriesOrderCovers(es);
    GroupMembers(es, s);
    if s in SeriesOrder(es) {
      var i :| 0 <= i < |es| && es[i].series == s;
      assert es[i] in GroupOf(es, s);
    }
  }

  lemma SeriesOrderGroupsNonEmpty(es: seq<SummaryEntry>)
    ensures forall s :: s in SeriesOrder(es) ==> |GroupOf(es, s)| > 0
  {
    forall s | s in SeriesOrder(es) ensures |GroupOf(es, s)| > 0 {
      GroupNonEmptyIffListed(es, s);
    }
  }

  /** Series appear in first-seen order: every entry of a later series is
      preceded by some entry of each earlier series. */
  predicate FirstSeenOrder(es: seq<SummaryEntry>, order: seq<string>) {
    forall a, b, i :: 0 <= a < b < |order| && 0 <= i < |es| && es[i].series == order[b] ==>
      exists k :: 0 <= k < i && es[k].series == order[a]
  }

  /** A pair of series both seen before the last entry keeps its order at
      an earlier entry. */
  lemma FirstSeenEarlier(es: seq<SummaryEntry>, a: int, b: int, i: int)
    requires |es| > 0
    requires FirstSeenOrder(es[..|es| - 1], SeriesOrder(es[..|es| - 1]))
    requires 0 <= a < b < |SeriesOrder(es[..|es| - 1])| && 0 <= i < |es| - 1
    requires es[i].series == SeriesOrder(es[..|es| - 1])[b]
    ensures exists k :: 0 <= k < i && es[k].series == SeriesOrder(es[..|es| - 1])[a]
  {
    var init := es[..|es| - 1];
    assert init[i] == es[i];
    var k :| 0 <= k < i && init[k].series == SeriesOrder(init)[a];
    assert es[k] == init[k];
  }

  /** Every listed series has an entry. */
  lemma ListedSeriesHasEntry(es: seq<SummaryEntry>, s: string)
    requires s in SeriesOrder(es)
    ensures exists i :: 0 <= i < |es| && es[i].series == s
  {
    SeriesOrderCovers(es);
  }

  /** ... and at the last entry, whose series was seen before. */
  lemma FirstSeenAtLast(es: seq<SummaryEntry>, a: int, b: int)
    requires |es| > 0
    requires FirstSeenOrder(es[..|es| - 1], SeriesOrder(es[..|es| - 1]))
    requires 0 <= a < b < |SeriesOrder(es[..|es| - 1])|
    requires es[|es| - 1].series == SeriesOrder(es[..|es| - 1])[b]
    ensures exists k :: 0 <= k < |es| - 1 && es[k].series == SeriesOrder(es[..|es| - 1])[a]
  {
    var init := es[..|es| - 1];
    var prior := SeriesOrder(init);
    ListedSeriesHasEntry(init, prior[b]);
    var i0 :| 0 <= i0 < |init| && init[i0].series == prior[b];
    assert es[i0] == init[i0];
    FirstSeenEarlier(es, a, b, i0);
  }

  /** A pair of series both seen before the last entry keeps its order. */
  lemma FirstSeenOld(es: seq<SummaryEntry>, a: int, b: int, i: int)
    requires |es| > 0
    requires FirstSeenOrder(es[..|es| - 1], SeriesOrder(es[..|es| - 1]))
    requires 0 <= a < b < |SeriesOrder(es[..|es| - 1])| && 0 <= i < |es|
    requires es[i].series == SeriesOrder(es[..|es| - 1])[b]
    ensures exists k :: 0 <= k < i && es[k].series == SeriesOrder(es[..|es| - 1])[a]
  {
    if i == |es| - 1 {
      FirstSeenAtLast(es, a, b);
    } else {
      FirstSeenEarlier(es, a, b, i);
    }
  }

  /** A series first seen at the last entry comes after every earlier one. */
  lemma FirstSeenNew(es: seq<SummaryEntry>, a: int, i: int)
    requires |es| > 0
    requires es[|es| - 1].series !in SeriesOrder(es[..|es| - 1])
    requires 0 <= a < |SeriesOrder(es[..|es| - 1])| && 0 <= i < |es|
    requires es[i].series == es[|es| - 1].series
    ensures exists k :: 0 <= k < i && es[k].series == SeriesOrder(es[..|es| - 1])[a]
  {
    var init := es[..|es| - 1];
    var prior := SeriesOrder(init);
    SeriesOrderCovers(init);
    assert prior[a] in prior;
    var k :| 0 <= k < |init| && init[k].series == prior[a];
    assert es[k] == init[k];
  }

  lemma {:induction false} SeriesOrderIsFirstSeen(es: seq<SummaryEntry>)
    ensures FirstSeenOrder(es, SeriesOrder(es))
  {
    if |es| > 0 {
      SeriesOrderIsFirstSeen(es[..|es| - 1]);
      var order := SeriesOrder(es);
      forall a, b, i | 0 <= a < b < |order| && 0 <= i < |es| && es[i].series == order[b]
        ensures exists k :: 0 <= k < i && es[k].series == order[a]
      {
        var prior := SeriesOrder(es[..|es| - 1]);
        assert order[a] == prior[a];
        if b < |prior| {
          FirstSeenOld(es, a, b, i);
        } else {
          FirstSeenNew(es, a, i);
        }
      }
    }
  }

  /** Grouping partitions the entries: the group sizes add up to the number
      of entries, and the exact group totals add up to the overall total. */
  function SumCounts(es: seq<SummaryEntry>, order: seq<string>): int {
    if |order| == 0 then 0 else SumCounts(es, order[..|order| - 1]) + |GroupOf(es, order[|order| - 1])|
  }

  function SumTotals(es: seq<SummaryEntry>, order: seq<string>): real {
    if |order| == 0 then 0.0 else SumTotals(es, order[..|order| - 1]) + Total(GroupOf(es, order[|order| - 1]))
  }

  /** Adding one entry to the input adds it to exactly the listed series it belongs to. */
  lemma {:induction false} SumsAfterAppend(es: seq<SummaryEntry>, e: SummaryEntry, order: seq<string>)
    requires forall a, b :: 0 <= a < b < |order| ==> order[a] != order[b]
    ensures SumCounts(es + [e], order) == SumCounts(es, order) + (if e.series in order then 1 else 0)
    ensures SumTotals(es + [e], order) == SumTotals(es, order) + (if e.series in order then e.headlineAmount else 0.0)
  {
    var es' := es + [e];
    assert es'[..|es'| - 1] == es;
    if |order| > 0 {
      var init := order[..|order| - 1];
      var last := order[|order| - 1];
      SumsAfterAppend(es, e, init);
      assert order == init + [last];
      assert e.series in order <==> e.series in init || e.series == last;
      assert e.series == last ==> e.series !in init;
      var g := GroupOf(es, last);
      if e.series == last {
        assert GroupOf(es', last) == g + [e];
        assert (g + [e])[..|g + [e]| - 1] == g;
      } else {
        assert GroupOf(es', last) == g;
      }
    }
  }

  lemma {:induction false} GroupingPartitions(es: seq<SummaryEntry>)
    ensures SumCounts(es, SeriesOrder(es)) == |es|
    ensures SumTotals(es, SeriesOrder(es)) == Total(es)
  {
    if |es| > 0 {
      var init := es[..|es| - 1];
      var e := es[|es| - 1];
      var prior := SeriesOrder(init);
      GroupingPartitions(init);
      SeriesOrderDistinct(init);
      assert es == init + [e];
      SumsAfterAppend(init, e, prior);
      if e.series !in prior {
        GroupNonEmptyIffListed(init, e.series);
        NewSeriesSums(init, e, prior);
      }
    }
  }

  /** A series first seen at the appended entry contributes exactly that entry. */
  lemma NewSeriesSums(es: seq<SummaryEntry>, e: SummaryEntry, prior: seq<string>)
    requires GroupOf(es, e.series) == []
    ensures SumCounts(es + [e], prior + [e.series]) == SumCounts(es + [e], prior) + 1
    ensures SumTotals(es + [e], prior + [e.series]) == SumTotals(es + [e], prior) + e.headlineAmount
  {
    var order := prior + [e.series];
    assert order[..|order| - 1] == prior;
    assert (es + [e])[..|es|] == es;
    assert GroupOf(es + [e], e.series) == [e];
    assert Total([e]) == e.headlineAmount by { assert [e][..0] == []; }
  }

  // ---------------------------------------------------------------------------
  // Facts about one series aggregate
  // ---------------------------------------------------------------------------

  lemma {:induction false} TotalBounds(es: seq<SummaryEntry>, lo: real, hi: real)
    requires forall i :: 0 <= i < |es| ==> lo <= es[i].headlineAmount <= hi
    ensures |es| as real * lo <= Total(es) <= |es| as real * hi
  {
    if |es| > 0 {
      var init := es[..|es| - 1];
      assert forall i :: 0 <= i < |init| ==> init[i] == es[i];
      TotalBounds(init, lo, hi);
      assert |es| as real * lo == |init| as real * lo + lo;
      assert |es| as real * hi == |init| as real * hi + hi;
    }
  }

  lemma QuotientBounds(t: real, n: real, lo: real, hi: real)
    requires n > 0.0 && n * lo <= t <= n * hi
    ensures lo <= t / n <= hi
  {
    var q := t / n;
    assert q * n == t;
  }

  lemma AverageWithin(group: seq<SummaryEntry>, lo: real, hi: real)
    requires |group| > 0
    requires forall i :: 0 <= i < |group| ==> lo <= group[i].headlineAmount <= hi
    ensures lo <= Average(group) <= hi
  {
    TotalBounds(group, lo, hi);
    QuotientBounds(Total(group), |group| as real, lo, hi);
  }

  /** The exact average of a group lies between its minimum and maximum. */
  lemma AverageBetweenMinAndMax(group: seq<SummaryEntry>)
    requires |group| > 0
    ensures MinAmount(group) <= Average(group) <= MaxAmount(group)
  {
    AverageWithin(group, MinAmount(group), MaxAmount(group));
  }

  /** What each series aggregate promises: at least one model; rounded
      minimum, average and maximum in order; the highlighted top and bottom
      amounts are the group's maximum and minimum. */
  lemma AggregateFacts(series: string, group: seq<SummaryEntry>)
    requires |group| > 0
    ensures var agg := AggregateOf(series, group);
      && agg.series == series
      && agg.modelCount == |group| >= 1
      && agg.headlineMin <= agg.headlineAverage <= agg.headlineMax
      && agg.topModel.headlineAmount == agg.headlineMax
      && agg.bottomModel.headlineAmount == agg.headlineMin
      && agg.headlineTotal == Round2(Total(group))
  {
    AverageBetweenMinAndMax(group);
    var avg := Average(group);
    Round2Monotone(MinAmount(group), avg);
    Round2Monotone(avg, MaxAmount(group));
  }

  /** Entry `i` is the first entry of series `s` with the largest amount. */
  predicate IsFirstMax(es: seq<SummaryEntry>, s: string, i: int) {
    && 0 <= i < |es| && es[i].series == s
    && (forall k :: 0 <= k < |es| && es[k].series == s ==> es[k].headlineAmount <= es[i].headlineAmount)
    && (forall k :: 0 <= k < i && es[k].series == s ==> es[k].headlineAmount < es[i].headlineAmount)
  }

  /** Entry `i` is the first entry of series `s` with the smallest amount. */
  predicate IsFirstMin(es: seq<SummaryEntry>, s: string, i: int) {
    && 0 <= i < |es| && es[i].series == s
    && (forall k :: 0 <= k < |es| && es[k].series == s ==> es[i].headlineAmount <= es[k].headlineAmount)
    && (forall k :: 0 <= k < i && es[k].series == s ==> es[i].headlineAmount < es[k].headlineAmount)
  }

  /** Appending an entry moves the position to it exactly when it beats
      the entry at the current position. */
  lemma TopIndexAppend(g: seq<SummaryEntry>, e: SummaryEntry)
    requires |g| > 0
    ensures TopIndex(g + [e]) == if e.headlineAmount > g[TopIndex(g)].headlineAmount then |g| else TopIndex(g)
  {
    assert (g + [e])[..|g|] == g;
  }

  lemma FirstMaxExtend(es: seq<SummaryEntry>, s: string, i: int)
    requires |es| > 0 && es[|es| - 1].series == s
    requires IsFirstMax(es[..|es| - 1], s, i)
    ensures es[|es| - 1].headlineAmount > es[i].headlineAmount ==> IsFirstMax(es, s, |es| - 1)
    ensures es[|es| - 1].headlineAmount <= es[i].headlineAmount ==> IsFirstMax(es, s, i)
  {
    var init := es[..|es| - 1];
    assert forall k :: 0 <= k < |init| ==> init[k] == es[k];
  }

  /** One more entry of series `s` after a non-empty group: the choice
      moves to the new entry exactly when it beats the current one. */
  lemma TopStep(es: seq<SummaryEntry>, s: string, i: int)
    requires |es| > 0 && es[|es| - 1].series == s
    requires |GroupOf(es[..|es| - 1], s)| > 0
    requires var g := GroupOf(es[..|es| - 1], s); IsFirstMax(es[..|es| - 1], s, i) && es[i] == g[TopIndex(g)]
    ensures exists j :: IsFirstMax(es, s, j) && es[j] == GroupOf(es, s)[TopIndex(GroupOf(es, s))]
  {
    var e := es[|es| - 1];
    var g := GroupOf(es[..|es| - 1], s);
    var g' := GroupOf(es, s);
    assert g' == g + [e];
    TopIndexAppend(g, e);
    FirstMaxExtend(es, s, i);
    if e.headlineAmount > es[i].headlineAmount {
      assert g'[TopIndex(g')] == e;
      assert IsFirstMax(es, s, |es| - 1);
    } else {
      assert g'[TopIndex(g')] == es[i];
      assert IsFirstMax(es, s, i);
    }
  }


  lemma FirstMaxSkip(es: seq<SummaryEntry>, s: string, i: int)
    requires |es| > 0 && es[|es| - 1].series != s
    requires IsFirstMax(es[..|es| - 1], s, i)
    ensures IsFirstMax(es, s, i)
  {
    var init := es[..|es| - 1];
    assert forall k :: 0 <= k < |init| ==> init[k] == es[k];
  }

  /** An entry of another series leaves the choice for series `s` where it was. */
  lemma TopSkip(es: seq<SummaryEntry>, s: string, i: int)
    requires |es| > 0 && es[|es| - 1].series != s
    requires var g := GroupOf(es[..|es| - 1], s); |g| > 0 && IsFirstMax(es[..|es| - 1], s, i) && es[i] == g[TopIndex(g)]
    ensures |GroupOf(es, s)| > 0 && IsFirstMax(es, s, i) && es[i] == GroupOf(es, s)[TopIndex(GroupOf(es, s))]
  {
    FirstMaxSkip(es, s, i);
    assert GroupOf(es, s) == GroupOf(es[..|es| - 1], s);
  }

  /** The first entry of series `s` is chosen. */
  lemma TopFirst(es: seq<SummaryEntry>, s: string)
    requires |es| > 0 && es[|es| - 1].series == s
    requires |GroupOf(es[..|es| - 1], s)| == 0
    ensures IsFirstMax(es, s, |es| - 1) && es[|es| - 1] == GroupOf(es, s)[TopIndex(GroupOf(es, s))]
  {
    var init := es[..|es| - 1];
    assert forall k :: 0 <= k < |init| ==> init[k] == es[k];
    GroupMembers(init, s);
    assert GroupOf(es, s) == [es[|es| - 1]];
  }

  /** The entry chosen for series `s` is the first entry in input order
      with the series' largest amount. */
  lemma {:induction false} TopIsFirstMaxInInput(es: seq<SummaryEntry>, s: string)
    requires |GroupOf(es, s)| > 0
    ensures exists i :: IsFirstMax(es, s, i) && es[i] == GroupOf(es, s)[TopIndex(GroupOf(es, s))]
  {
    var init := es[..|es| - 1];
    if |GroupOf(init, s)| == 0 {
      assert es[|es| - 1].series == s;
      TopFirst(es, s);
    } else {
      TopIsFirstMaxInInput(init, s);
      var i :| IsFirstMax(init, s, i) && init[i] == GroupOf(init, s)[TopIndex(GroupOf(init, s))];
      assert es[i] == init[i];
      if es[|es| - 1].series != s {
        TopSkip(es, s, i);
      } else {
        TopStep(es, s, i);
      }
    }
  }

  /** Appending an entry moves the position to it exactly when it undercuts
      the entry at the current position. */
  lemma BottomIndexAppend(g: seq<SummaryEntry>, e: SummaryEntry)
    requires |g| > 0
    ensures BottomIndex(g + [e]) == if e.headlineAmount < g[BottomIndex(g)].headlineAmount then |g| else BottomIndex(g)
  {
    assert (g + [e])[..|g|] == g;
  }

  lemma FirstMinExtend(es: seq<SummaryEntry>, s: string, i: int)
    requires |es| > 0 && es[|es| - 1].series == s
    requires IsFirstMin(es[..|es| - 1], s, i)
    ensures es[|es| - 1].headlineAmount < es[i].headlineAmount ==> IsFirstMin(es, s, |es| - 1)
    ensures es[|es| - 1].headlineAmount >= es[i].headlineAmount ==> IsFirstMin(es, s, i)
  {
    var init := es[..|es| - 1];
    assert forall k :: 0 <= k < |init| ==> init[k] == es[k];
  }

  /** One more entry of series `s` after a non-empty group: the choice
      moves to the new entry exactly when it undercuts the current one. */
  lemma BottomStep(es: seq<SummaryEntry>, s: string, i: int)
    requires |es| > 0 && es[|es| - 1].series == s
    requires |GroupOf(es[..|es| - 1], s)| > 0
    requires var g := GroupOf(es[..|es| - 1], s); IsFirstMin(es[..|es| - 1], s, i) && es[i] == g[BottomIndex(g)]
    ensures exists j :: IsFirstMin(es, s, j) && es[j] == GroupOf(es, s)[BottomIndex(GroupOf(es, s))]
  {
    var e := es[|es| - 1];
    var g := GroupOf(es[..|es| - 1], s);
    var g' := GroupOf(es, s);
    assert g' == g + [e];
    BottomIndexAppend(g, e);
    FirstMinExtend(es, s, i);
    if e.headlineAmount < es[i].headlineAmount {
      assert g'[BottomIndex(g')] == e;
      assert IsFirstMin(es, s, |es| - 1);
    } else {
      assert g'[BottomIndex(g')] == es[i];
      assert IsFirstMin(es, s, i);
    }
  }


  lemma FirstMinSkip(es: seq<SummaryEntry>, s: string, i: int)
    requires |es| > 0 && es[|es| - 1].series != s
    requires IsFirstMin(es[..|es| - 1], s, i)
    ensures IsFirstMin(es, s, i)
  {
    var init := es[..|es| - 1];
    assert forall k :: 0 <= k < |init| ==> init[k] == es[k];
  }

  /** An entry of another series leaves the choice for series `s` where it was. */
  lemma BottomSkip(es: seq<SummaryEntry>, s: string, i: int)
    requires |es| > 0 && es[|es| - 1].series != s
    requires var g := GroupOf(es[..|es| - 1], s); |g| > 0 && IsFirstMin(es[..|es| - 1], s, i) && es[i] == g[BottomIndex(g)]
    ensures |GroupOf(es, s)| > 0 && IsFirstMin(es, s, i) && es[i] == GroupOf(es, s)[BottomIndex(GroupOf(es, s))]
  {
    FirstMinSkip(es, s, i);
    assert GroupOf(es, s) == GroupOf(es[..|es| - 1], s);
  }

  /** The first entry of series `s` is chosen. */
  lemma BottomFirst(es: seq<SummaryEntry>, s: string)
    requires |es| > 0 && es[|es| - 1].series == s
    requires |GroupOf(es[..|es| - 1], s)| == 0
    ensures IsFirstMin(es, s, |es| - 1) && es[|es| - 1] == GroupOf(es, s)[BottomIndex(GroupOf(es, s))]
  {
    var init := es[..|es| - 1];
    assert forall k :: 0 <= k < |init| ==> init[k] == es[k];
    GroupMembers(init, s);
    assert GroupOf(es, s) == [es[|es| - 1]];
  }

  /** The entry chosen for series `s` is the first entry in input order
      with the series' smallest amount. */
  lemma {:induction false} BottomIsFirstMinInInput(es: seq<SummaryEntry>, s: string)
    requires |GroupOf(es, s)| > 0
    ensures exists i :: IsFirstMin(es, s, i) && es[i] == GroupOf(es, s)[BottomIndex(GroupOf(es, s))]
  {
    var init := es[..|es| - 1];
    if |GroupOf(init, s)| == 0 {
      assert es[|es| - 1].series == s;
      BottomFirst(es, s);
    } else {
      BottomIsFirstMinInInput(init, s);
      var i :| IsFirstMin(init, s, i) && init[i] == GroupOf(init, s)[BottomIndex(GroupOf(init, s))];
      assert es[i] == init[i];
      if es[|es| - 1].series != s {
        BottomSkip(es, s, i);
      } else {
        BottomStep(es, s, i);
      }
    }
  }

  // ---------------------------------------------------------------------------
  // The report
  // ---------------------------------------------------------------------------

  /** One aggregate per listed series, in the order of `order`. */
  function Aggregates(es: seq<SummaryEntry>, order: seq<string>): seq<SummarySeriesAggregate>
    requires forall s :: s in order ==> |GroupOf(es, s)| > 0
  {
    if |order| == 0 then []
    else Aggregates(es, order[..|order| - 1]) + [AggregateOf(order[|order| - 1], GroupOf(es, order[|order| - 1]))]
  }

  /** The response `build_summary_report` assembles from a list of entries. */
  function SummaryReportOf(es: seq<SummaryEntry>, reportLabel: Option<string>, asOf: Option<Timestamp>): SummaryReportResponse {
    SeriesOrderGroupsNonEmpty(es);
    SummaryReportResponse(
      LabelOrDefault(reportLabel), asOf, |es|, Round2(Total(es)),
      Aggregates(es, SeriesOrder(es)),
      seq(|es|, i requires 0 <= i < |es| => EntryResultOf(es[i])))
  }

  /** One more listed series: its aggregate is appended. */
  lemma AggregatesStep(es: seq<SummaryEntry>, order: seq<string>, k: int)
    requires 0 <= k < |order| && forall s :: s in order ==> |GroupOf(es, s)| > 0
    ensures forall s :: s in order[..k + 1] ==> |GroupOf(es, s)| > 0
    ensures Aggregates(es, order[..k + 1]) == Aggregates(es, order[..k]) + [AggregateOf(order[k], GroupOf(es, order[k]))]
  {
    assert order[..k + 1][..k] == order[..k];
    assert forall s :: s in order[..k + 1] ==> s in order;
  }

  /** The grouping loop: `grouped[entry.series].append(entry)` for each entry,
      with `order` recording the key order of `grouped`. */
  method GroupEntries(entries: seq<SummaryEntry>) returns (grouped: map<string, seq<SummaryEntry>>, order: seq<string>)
    ensures order == SeriesOrder(entries)
    ensures forall s :: s in grouped <==> s in order
    ensures forall s :: s in grouped ==> grouped[s] == GroupOf(entries, s)
  {
    grouped := map[];
    order := [];
    var i := 0;
    while i < |entries|
      invariant 0 <= i <= |entries|
      invariant order == SeriesOrder(entries[..i])
      invariant forall s :: s in grouped <==> s in order
      invariant forall s :: s in grouped ==> grouped[s] == GroupOf(entries[..i], s)
    {
      var entry := entries[i];
      assert entries[..i + 1][..i] == entries[..i];
      if entry.series in grouped {
        grouped := grouped[entry.series := grouped[entry.series] + [entry]];
      } else {
        GroupNonEmptyIffListed(entries[..i], entry.series);
        grouped := grouped[entry.series := [entry]];
        order := order + [entry.series];
      }
      i := i + 1;
    }
    assert entries[..i] == entries;
  }

  /** The summarising loop: one aggregate per key of `grouped`, in key order. */
  method SummariseSeries(entries: seq<SummaryEntry>, grouped: map<string, seq<SummaryEntry>>, order: seq<string>)
    returns (seriesSummary: seq<SummarySeriesAggregate>)
    requires forall s :: s in order ==> |GroupOf(entries, s)| > 0
    requires forall s :: s in order ==> s in grouped && grouped[s] == GroupOf(entries, s)
    ensures seriesSummary == Aggregates(entries, order)
  {
    seriesSummary := [];
    var k := 0;
    while k < |order|
      invariant 0 <= k <= |order|
      invariant seriesSummary == Aggregates(entries, order[..k])
    {
      var series := order[k];
      var seriesEntries := grouped[series];
      AggregatesStep(entries, order, k);
      seriesSummary := seriesSummary + [AggregateOf(series, seriesEntries)];
      k := k + 1;
    }
    assert order[..k] == order;
  }

  /** The body of `build_summary_report` once it holds a list of entries:
      the grouping loop, the summarising loop and the entry echo. */
  method Aggregate(entries: seq<SummaryEntry>, reportLabel: Option<string>, asOf: Option<Timestamp>)
    returns (report: SummaryReportResponse)
    ensures report == SummaryReportOf(entries, reportLabel, asOf)
  {
    var totalModels := |entries|;
    var overallTotal := Total(entries);
    var grouped, order := GroupEntries(entries);
    SeriesOrderGroupsNonEmpty(entries);
    var seriesSummary := SummariseSeries(entries, grouped, order);
    var responseEntries := seq(|entries|, j requires 0 <= j < |entries| => EntryResultOf(entries[j]));
    report := SummaryReportResponse(
      LabelOrDefault(reportLabel), asOf, totalModels, Round2(overallTotal), seriesSummary, responseEntries);
  }

  /** `build_summary_report` as written: it reads `payload.entries` directly.
      An absent list makes `len(None)` raise; an empty list yields an empty
      report even when `model_outputs` holds outputs. */
  method BuildSummaryReportAsWritten(payload: SummaryReportRequest) returns (r: Result<SummaryReportResponse, Error>)
    ensures payload.entries.None? ==> r == Failure(EntriesNotSupplied)
    ensures payload.entries.Some? ==>
      r == Success(SummaryReportOf(payload.entries.value, payload.reportLabel, payload.asOf))
  {
    if payload.entries.None? {
      return Failure(EntriesNotSupplied);
    }
    var report := Aggregate(payload.entries.value, payload.reportLabel, payload.asOf);
    return Success(report);
  }

  /** `build_summary_report` taking its entries from `resolve_entries`, as the
      request type documents: the pre-built entries when given, otherwise the
      converted model outputs, whose conversion error is passed on. */
  method BuildSummaryReport(payload: SummaryReportRequest) returns (r: Result<SummaryReportResponse, Error>)
    requires HasSources(payload)
    ensures ResolveEntries(payload).Failure? ==> r == Failure(ResolveEntries(payload).error)
    ensures ResolveEntries(payload).Success? ==>
      r == Success(SummaryReportOf(ResolveEntries(payload).value, payload.reportLabel, payload.asOf))
    ensures r.Failure? ==> r.error.UnknownModel? || r.error.InvalidDetailPayload?
  {
    ResolveFailures(payload);
    var resolved := ResolveEntries(payload);
    if resolved.Failure? {
      return Failure(resolved.error);
    }
    var report := Aggregate(resolved.value, payload.reportLabel, payload.asOf);
    return Success(report);
  }
}
