# SEBIT summary aggregation — a verified Dafny model

The SEBIT summary service takes the outputs of up to fourteen SEBIT
valuation models and condenses them into one report. Each model belongs to
one of six series (Asset & Depreciation, Expense & Profitability, Capital &
Risk Derivatives, Advanced Analytics, Insurance & Service Revenue,
Probability Revaluation). A request carries either pre-built summary entries or raw
model outputs. Each raw output is checked against its model's detail schema
and turned into an entry by reading the model's designated headline field.

The aggregator groups the entries by series in first-seen order. For each
series it reports:
- the count;
- the total, average, minimum and maximum of the headline amounts, rounded
  to two decimals;
- the first entry with the largest amount and the first entry with the
  smallest amount.

It also reports the overall count, the overall rounded total and every input
entry echoed with its amount rounded.

This project models that core:
- the model registry and the fourteen detail schemas;
- `SummaryEntry.from_model_output`;
- the request's validation;
- `resolve_entries`;
- `build_summary_report`.

It then proves what these promise.

Files, one module each:

- `values.dfy` (`Values`) — `Option`, `Result`, the JSON-like `Value` a raw payload holds, and the `Timestamp` the request echoes.
- `registry.dfy` (`Registry`) — the fourteen detail shapes and `MODEL_REGISTRY`. It proves facts about the table: 14 models keyed by their own identifier, 6 series, distinct field names, and each headline key declared as a float field of its model's schema.
- `schemas.dfy` (`Schemas`) — detail validation, `from_model_output`, the request checks (`min_length=1`, `_validate_sources`), `resolve_entries` and the response records.
- `rounding.dfy` (`Rounding`) — `round(x, 2)`: nearest hundredth, ties to even.
- `services.dfy` (`Services`) — the aggregator. `Aggregate` is the imperative body. `GroupEntries` is the loop that fills the `grouped` dictionary and records its key order. `SummariseSeries` is the loop that appends one aggregate per key. `Aggregate` is proved equal to the specification function `SummaryReportOf`. Around it sit the as-written and the corrected `build_summary_report`.
- `report_facts.dfy` (`ReportFacts`) — what a report promises about its input.
- `scenarios.dfy` (`Scenarios`) — concrete reports, each stated over any entries with the given series and amounts: the response example of the report schema (app/schemas.py:457-519), a series of three entries, a tie between equal amounts, and the aggregation arithmetic of the repository's report test (tests/test_summary.py).
- `findings.dfy` (`Findings`) — the entry-source defect described under Findings.

Amounts are exact reals. Python's `round(x, 2)` is modelled as rounding the
exact value to the nearest hundredth, with ties to even.

Facts about the code that shape the model:
- The registry uses six distinct series labels (app/schemas.py:200-285; `Registry.RegistrySeries`).
- The missing-headline branch of `from_model_output` (app/schemas.py:311-315)
  is unreachable for every registered model. The headline key is a required
  float field of every detail class, so the detail class at line 310 already
  rejects an absent or null headline, as an invalid detail payload naming
  that field (`Schemas.MissingHeadlineIsReported`,
  `Schemas.BuildEntrySucceedsIffValid`).
- `model_outputs` has `min_length=1` (app/schemas.py:391-395), so an empty
  `model_outputs` list is rejected even when entries are supplied.
- When both sources are supplied, a non-empty `entries` list wins
  (app/schemas.py:403-405).
- Resubmitting a report's echoed entries rebuilds the same report only when
  every amount is a whole number of cents (`ReportFacts.RoundTripInCents`).
  Otherwise the echo has already rounded each amount, and the totals can
  change: two entries of 0.004 report 0.01, their echo reports 0.0
  (`ReportFacts.RoundTripLosesSubCents`).

## Model

| member | source | states |
|---|---|---|
| Registry.ModelRegistry | app/schemas.py:200-285 | `MODEL_REGISTRY`: for each of the fourteen model identifiers, its series label, its detail class and its headline key |
| Registry.DdaShape | app/schemas.py:15-20 | the declared fields of `DdaDetails`, in order, with their types and which have a default |
| Registry.LamShape | app/schemas.py:23-28 | the declared fields of `LamDetails`, in order, with their types and which have a default |
| Registry.RvmShape | app/schemas.py:31-39 | the declared fields of `RvmDetails`, in order, with their types and which have a default |
| Registry.CeemShape | app/schemas.py:42-53 | the declared fields of `CeemDetails`, in order, with their types and which have a default |
| Registry.BdmShape | app/schemas.py:56-63 | the declared fields of `BdmDetails`, in order, with their types and which have a default |
| Registry.BelmShape | app/schemas.py:66-73 | the declared fields of `BelmDetails`, in order, with their types and which have a default |
| Registry.CprmShape | app/schemas.py:76-87 | the declared fields of `CprmDetails`, in order, with their types and which have a default |
| Registry.QuarterAdjustmentShape | app/schemas.py:90-94 | the fields of one quarterly adjustment item, with their types |
| Registry.CocimShape | app/schemas.py:97-105 | the declared fields of `CocimDetails`, in order, with their types and which have a default |
| Registry.FarexShape | app/schemas.py:108-116 | the declared fields of `FarexDetails`, in order, with their types and which have a default |
| Registry.TctBeamShape | app/schemas.py:119-126 | the declared fields of `TctBeamDetails`, in order, with their types and which have a default |
| Registry.CpmrvShape | app/schemas.py:129-136 | the declared fields of `CpmrvDetails`, in order, with their types and which have a default |
| Registry.DcbpraShape | app/schemas.py:139-150 | the declared fields of `DcbpraDetails`, in order, with their types and which have a default |
| Registry.PsrasShape | app/schemas.py:153-161 | the declared fields of `PsrasDetails`, in order, with their types and which have a default |
| Registry.LsmrvShape | app/schemas.py:164-171 | the declared fields of `LsmrvDetails`, in order, with their types and which have a default |
| Schemas.ScalarFits | app/schemas.py:15-171 | a value has a scalar field's type: text for `str`, a float or an int for `float`, an int for `int`, a boolean for `bool` |
| Schemas.ItemFits | app/schemas.py:90-94 | a value is a record holding every field of a nested item with a value of its type |
| Schemas.ScalarValue | app/schemas.py:310 | the value the validated instance stores for a scalar: an int given for a float field becomes a float |
| Schemas.KindValue | app/schemas.py:310 | the value the validated instance stores for a field of each kind, nested items reduced to their declared fields |
| Schemas.FieldValue | app/schemas.py:310 | the stored value of a declared field, or `[]` from `default_factory=list` when it is absent |
| Schemas.Supplied | app/schemas.py:399 | Python truthiness of an optional list: present and non-empty |
| Schemas.HasSources | app/schemas.py:397-401 | the `_validate_sources` guard: `entries` or `model_outputs` is supplied |
| Services.Average | app/services.py:30 | `headline_total / model_count` from the unrounded total of a non-empty group |
| Services.Aggregates | app/services.py:25-54 | the `series_summary` list: one aggregate per series of the given order |
| Schemas.KindFits | app/schemas.py:15-171 | a value passes a field's declared type: a required scalar, an optional scalar or null, a list of records, or a list of nested detail items |
| Schemas.FieldFits | app/schemas.py:15-171 | a declared field passes: present with a value of its type, or absent with a default |
| Schemas.Convert | app/schemas.py:408 | one raw model output converted by `from_model_output` with its own name, payload and currency |
| Services.Total | app/services.py:19 | the exact sum of the headline amounts, also used for each series at line 28 |
| Services.SeriesOrder | app/services.py:21-23 | the keys of `grouped` in insertion order: each series at its first entry |
| Services.GroupOf | app/services.py:21-23 | `grouped[s]`: the entries of series `s` appended in input order |
| Services.AggregateOf | app/services.py:27-54 | one `SummarySeriesAggregate` from a non-empty group: count, rounded total, average, min, max and the two highlights |
| Services.EntryResultOf | app/services.py:56-65 | one `SummaryEntryResult`: the entry echoed with its amount rounded |
| Services.SummaryReportOf | app/services.py:16-74 | the whole response from a list of entries: label, timestamp, count, rounded total, one aggregate per series in first-seen order, and the echoed entries |
| Registry.Lookup | app/schemas.py:306-308 | a model name is found exactly when it is a registry key, and the entry found names that model |
| Registry.RegistryKeysAreModels | app/schemas.py:200-285 | every registry entry is keyed by its own model identifier |
| Registry.RegistrySize | app/schemas.py:200-285 | the registry keys are exactly the fourteen SEBIT model identifiers, so it holds 14 entries |
| Registry.RegistrySeries | app/schemas.py:200-285 | every entry's series is one of six labels, each label is used by some entry, and there are exactly 6 |
| Registry.ShapesHaveDistinctNames | app/schemas.py:15-171 | no detail class declares a field name twice |
| Registry.HeadlineKeysAreDeclared | app/schemas.py:200-285 | every registered headline key is a required float field of that model's detail class |
| Schemas.Offending | app/schemas.py:310 | validation reports a field exactly when it fails: it is absent without a default, or present with a value of the wrong type; no failure means every declared field passes |
| Schemas.Validated | app/schemas.py:310 | the validated instance holds exactly the declared fields, and undeclared keys are dropped |
| Schemas.ValidatedValues | app/schemas.py:310 | each declared field of the validated instance holds the coerced input value, or its default when absent |
| Schemas.ValidateDetails | app/schemas.py:310 | a payload validates exactly when every declared field passes; a rejection lists exactly the failing fields and is never empty |
| Schemas.ToFloat | app/schemas.py:320 | `float()` of a float or an int is its numeric value, of a boolean 1.0 or 0.0; null, text, lists and records give no number |
| Schemas.BuildEntry | app/schemas.py:310-323 | an invalid payload fails naming the failing fields; a success copies series, model and currency from the registry entry and the call, takes the amount from the raw headline value, and keeps the validated details |
| Schemas.BuildEntrySucceedsIffValid | app/schemas.py:310-323 | for a registered shape, building succeeds exactly when the payload validates, and every failure is an invalid-payload error for that model |
| Schemas.MissingHeadlineIsInvalidPayload | app/schemas.py:310-315 | a payload whose headline key is absent or null fails as an invalid payload whose field list names the headline key |
| Schemas.BuildEntryDetails | app/schemas.py:310-322 | on success the details hold exactly the declared fields with their validated values |
| Schemas.FromModelOutput | app/schemas.py:305-323 | an unregistered name fails with `UnknownModel` naming it; a registered one is built from its registry entry |
| Schemas.FromModelOutputSucceedsIffValid | app/schemas.py:305-323 | for a registered name, conversion succeeds exactly when the payload fits the model's detail class; the entry carries the model's series, the given currency and the headline value; failures are invalid-payload errors |
| Schemas.MissingHeadlineIsReported | app/schemas.py:310-315 | for every registered model, an output whose headline field is absent or null fails as an invalid detail payload naming that field |
| Schemas.ValidateRequest | app/schemas.py:391-401 | a request is accepted exactly when `model_outputs` is not an empty list and some source is a non-empty list; accepting returns it unchanged; each rejection has its own error |
| Schemas.ConvertEach | app/schemas.py:407-410 | the list comprehension succeeds exactly when every item converts, giving one result per item in order; otherwise it raises the first item's error |
| Schemas.ResolveEntries | app/schemas.py:403-410 | non-empty pre-built entries are returned unchanged; otherwise every model output is converted in order, or the first conversion error is raised |
| Schemas.UnknownFirstModelIsReported | app/schemas.py:306-308 | without pre-built entries, an unregistered model name in the first output fails resolution with `UnknownModel` naming it |
| Schemas.ResolveFailures | app/schemas.py:403-410 | resolving an accepted request fails only with an unknown model or an invalid detail payload |
| Rounding.NearestEven | app/services.py:41 | the chosen integer is within one half of the value |
| Rounding.Round2 | app/services.py:41-71 | the rounded amount is a whole number of cents and within half a cent of the exact amount |
| Rounding.Round2Monotone | app/services.py:41-44 | rounding never reverses an order |
| Rounding.Round2OfCents | app/services.py:60 | a whole number of cents is left unchanged |
| Rounding.Round2Idempotent | app/services.py:41 | rounding a rounded amount changes nothing |
| Services.MinAmount | app/services.py:31 | the minimum is at most every amount and is attained |
| Services.MaxAmount | app/services.py:32 | the maximum is at least every amount and is attained |
| Services.TopIndex | app/services.py:34 | the top entry has the largest amount, and every earlier entry has a strictly smaller one |
| Services.BottomIndex | app/services.py:35 | the bottom entry has the smallest amount, and every earlier entry has a strictly larger one |
| Services.LabelOrDefault | app/services.py:68 | a non-empty label is kept; an absent or empty label becomes "SEBIT Summary Report"; the result is never empty |
| Services.SeriesOrderDistinct | app/services.py:21-26 | the grouping keys are distinct |
| Services.SeriesOrderCovers | app/services.py:21-26 | every entry's series is a key, and every key is some entry's series |
| Services.GroupMembers | app/services.py:22-23 | a series' group holds exactly the input entries of that series |
| Services.SeriesPositions | app/services.py:22-23 | the positions of a series' entries in the input: all of them, each once, in increasing order |
| Services.GroupIsSubsequence | app/services.py:22-23 | a series' group is the input at the positions of that series, in input order, one item per position |
| Services.GroupMultiset | app/services.py:22-23 | an entry occurs in its series' group exactly as often as in the input, and in no other group |
| Services.GroupNonEmptyIffListed | app/services.py:21-26 | a series' group is non-empty exactly when the series is a key |
| Services.SeriesOrderIsFirstSeen | app/services.py:21-26 | keys follow first appearance: every entry of a later key comes after some entry of each earlier key |
| Services.GroupingPartitions | app/services.py:18-28 | the groups' sizes add up to the number of entries, and their exact totals to the overall total |
| Services.AverageBetweenMinAndMax | app/services.py:28-32 | a group's average lies between its minimum and maximum |
| Services.AggregateFacts | app/services.py:27-54 | an aggregate counts its group, rounds its total, keeps min <= average <= max after rounding, and its highlights carry the max and min amounts |
| Services.TopIsFirstMaxInInput | app/services.py:34 | the top entry of a series is the first entry of that series in input order with the series' largest amount |
| Services.BottomIsFirstMinInInput | app/services.py:35 | the bottom entry of a series is the first entry of that series in input order with the series' smallest amount |
| Services.GroupEntries | app/services.py:21-23 | the grouping loop leaves `grouped` keyed by exactly the listed series, in first-seen order, each holding its series' group |
| Services.SummariseSeries | app/services.py:25-54 | the summarising loop appends exactly one aggregate per key, in key order, each built from that key's group |
| Services.Aggregate | app/services.py:18-74 | the two loops and the echo build exactly the report `SummaryReportOf` describes |
| Services.BuildSummaryReportAsWritten | app/services.py:16-17 | with `entries` absent the call fails with `EntriesNotSupplied`; otherwise it is the report of `entries` as given, even when empty |
| Services.BuildSummaryReport | app/services.py:16-74 | with entries from `resolve_entries`, the call returns the report of the resolved entries or passes on the conversion error, which is only ever an unknown model or an invalid payload |
| ReportFacts.AggregatesAt | app/services.py:26-54 | the `k`-th aggregate is the aggregate of the `k`-th grouping key |
| ReportFacts.AggregatesCount | app/services.py:33 | the `model_count`s of the aggregates add up to the sizes of the groups |
| ReportFacts.ReportTotals | app/services.py:18-71 | `total_models` is the number of entries and the sum of the series' `model_count`s; the overall total is the rounded sum of the exact series totals; every entry is echoed |
| ReportFacts.ReportHeader | app/services.py:67-69 | the label falls back to the default and is never empty; the timestamp is echoed |
| ReportFacts.ReportSeriesOrder | app/services.py:21-37 | the series summary lists the grouping keys in first-seen order, one aggregate each |
| ReportFacts.ReportSeriesArePartition | app/services.py:21-37 | the series summary lists each series once, every entry's series, only series that have an entry, in first-seen order |
| ReportFacts.ReportAggregate | app/services.py:26-54 | each aggregate's count is the number of positions of its series in the input; it holds the rounded total and the rounded total over the count as average, keeps min <= average <= max, and names as top and bottom the first entries in input order with the series' largest and smallest amounts, whose amounts are the max and the min |
| ReportFacts.ReportEchoesEntries | app/services.py:56-65 | the entry results echo the input in order, field for field, each amount being the input amount rounded to two decimals and so within half a cent of it |
| ReportFacts.ReportFiguresInCents | app/services.py:41-71 | every amount of a report is a whole number of cents: the overall total, each series' total, average, minimum, maximum and both highlights, and each echoed entry |
| ReportFacts.ReportExactInCents | app/services.py:41-71 | when every amount is a whole number of cents, the overall total, every series total and every echoed amount are exact |
| ReportFacts.RoundTripInCents | app/services.py:56-71 | with every amount in whole cents, resubmitting the echoed entries rebuilds exactly the same report |
| ReportFacts.RoundTripLosesSubCents | app/services.py:41-71 | two entries of 0.004 in one series report 0.01 overall, while their resubmitted echo reports 0.0 |
| ReportFacts.TotalPermutation | app/services.py:19 | the exact total does not depend on the order of the entries |
| ReportFacts.ReportTotalsIgnoreOrder | app/services.py:18-19 | reordering the entries changes neither `total_models` nor the overall total |
| Scenarios.TwoSeriesReport | app/schemas.py:457-519 | two entries of two series (5400.25 and 6154364210.48) give 2 models, overall total 6154369610.73, and two aggregates of one model each |
| Scenarios.OneSeriesReport | app/services.py:27-54 | a series of three entries with amounts 100, 300, 200 gives total 600, average 200, min 100, max 300, top the 300 entry and bottom the 100 entry |
| Scenarios.TiesGoToTheFirstEntry | app/services.py:34-35 | with equal amounts, both highlights name the first entry |
| Scenarios.QuarterlyConsolidatedReport | tests/test_summary.py:6-33 | the aggregator, given the test's two entries, reports the custom label, 2 models and overall total 6154388937.26 |
| Findings.AsWrittenIgnoresModelOutputs | app/services.py:17-18 | an accepted request without pre-built entries carries model outputs, which convert to as many entries, yet the entries the aggregator reads give zero models or none at all |
| Findings.ResolvedReportCountsEverySource | app/schemas.py:403-410 | through `resolve_entries`, an accepted request whose outputs convert gives a report counting every source, never zero |

## Left out

- Pydantic's lax coercions beyond int-to-float are not modelled. Inputs pydantic accepts but the model (`Schemas.ScalarFits`) rejects:
  - numeric strings and booleans in float fields;
  - whole floats, numeric strings and booleans in int fields (app/schemas.py:91, :121, :125);
  - 0 and 1, and strings such as "true", "false", "yes", "no", "on", "off", "1" and "0", in bool fields (app/schemas.py:85, :103).
- Schemas.ToFloat: parsing a numeric string (`float("12.5")`) is not modelled. After validation the headline value is always a number, so nothing downstream depends on it.
- Pre-built entries: pydantic selects a `ModelDetailUnion` member for `details` (app/schemas.py:299). The model does not; a pre-built entry carries its details as a plain mapping and is not validated.
- Scenarios.QuarterlyConsolidatedReport: checks only the aggregation arithmetic of the repository test. Read against the code, the test's request is rejected: its details (`{"total_depreciation": 233449.88}`, `{"recognition_rate": 520.431561}`) lack required fields of every detail class, so `ModelDetailUnion` validation fails before `build_summary_report` runs.
- Pydantic's error output (message text, error locations, the list format) is not modelled. Errors are reduced to the `Schemas.Error` variants and the list of failing field names.
- Floating point is not modelled. Sums, averages and rounding are exact real arithmetic. Python's left-to-right float `sum` can differ in the last bits and depends on entry order, while `ReportFacts.TotalPermutation` holds only for exact reals.
- The `as_of` datetime is not parsed. It is an opaque `Timestamp` that is echoed.
- The HTTP layer (FastAPI routes and the response-model serialisation) is not modelled; neither is any I/O.
- The `if model_count else 0.0` fallbacks in the aggregator are not modelled, because a group is never empty (`Services.SeriesOrderGroupsNonEmpty`). `Services.AggregateOf` instead requires a non-empty group.
- Payloads are finite JSON-like values. Python objects of other types cannot occur.

## Findings

| source | as written | input that shows it | evidently intended | confidence | as-written member | corrected member |
|---|---|---|---|---|---|---|
| app/services.py:17 | the report is built from `payload.entries`, which is `None` or empty when the caller sent only `model_outputs` | `{"model_outputs": [<one valid SEBIT-DDA output>]}`: accepted by the request model; `len(None)` then raises, and with `"entries": []` added the report counts 0 models | take the entries from `payload.resolve_entries()` | not executed | Services.BuildSummaryReportAsWritten, Findings.AsWrittenIgnoresModelOutputs | Services.BuildSummaryReport, Findings.ResolvedReportCountsEverySource |
