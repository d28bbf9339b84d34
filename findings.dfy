/** `build_summary_report` reads `payload.entries` although the request type
    lets callers send only `model_outputs` and offers `resolve_entries` to
    turn them into entries. */
module Findings {
  import opened Values
  import opened Schemas
  import opened Services
  import opened ReportFacts

  /** A request the request type accepts without pre-built entries still
      carries model outputs (and, when they convert, as many entries), yet
      the aggregator as written sees no entries: with `entries` absent it
      fails with `EntriesNotSupplied`, with `entries` empty it reports zero
      models. */
  lemma AsWrittenIgnoresModelOutputs(req: SummaryReportRequest)
    requires ValidateRequest(req).Success?
    requires !Supplied(req.entries)
    ensures Supplied(req.modelOutputs)
    ensures ResolveEntries(req).Success? ==> |ResolveEntries(req).value| == |req.modelOutputs.value| > 0
    ensures req.entries.Some? ==> SummaryReportOf(req.entries.value, req.reportLabel, req.asOf).totalModels == 0
  {
    if req.entries.Some? {
      ReportTotals(req.entries.value, req.reportLabel, req.asOf);
    }
  }

  /** Reading the entries through `resolve_entries`, every accepted request
      whose outputs convert yields a report counting every one of its
      sources, so the report is never empty. */
  lemma ResolvedReportCountsEverySource(req: SummaryReportRequest)
    requires HasSources(req)
    ensures var resolved := ResolveEntries(req);
      resolved.Success? ==>
        var total := SummaryReportOf(resolved.value, req.reportLabel, req.asOf).totalModels;
        && total == (if Supplied(req.entries) then |req.entries.value| else |req.modelOutputs.value|)
        && total > 0
  {
    var resolved := ResolveEntries(req);
    if resolved.Success? {
      ReportTotals(resolved.value, req.reportLabel, req.asOf);
    }
  }
}
