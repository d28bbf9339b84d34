/** Detail validation, entry construction and source resolution
    (app/schemas.py): `SummaryEntry.from_model_output`,
    `SummaryReportRequest._validate_sources` and `resolve_entries`, together
    with the request and response records. */
module Schemas {
  import opened Values
  import opened Registry

  /** The ways the schema layer (and the aggregator's entry access) can fail. */
  datatype Error =
    | UnknownModel(model: string)                            // not in the registry
    | InvalidDetailPayload(model: string, fields: seq<string>) // the detail class rejected these fields
    | MissingHeadline(model: string, headlineKey: string)    // `data.get(key)` is None
    | InvalidHeadlineValue(model: string, headlineKey: string) // `float(value)` fails
    | ModelOutputsTooShort                                   // `model_outputs` given as []
    | MissingSources                                         // neither entries nor model outputs
    | EntriesNotSupplied                                     // `len(None)` in the aggregator

  const DefaultReportLabel: string := "SEBIT Summary Report"

  // ---------------------------------------------------------------------------
  // Detail validation (the `*Details` classes)
  // ---------------------------------------------------------------------------

  predicate ScalarFits(s: Scalar, v: Value) {
    match s
    case Text => v.Str?
    case Number => v.Num? || v.Int?
    case Integer => v.Int?
    case Flag => v.Bool?
  }

  /** The value a validated instance holds for a scalar: an int supplied for a
      float field is stored as a float. */
  function ScalarValue(s: Scalar, v: Value): Value {
    if s == Number && v.Int? then Num(v.i as real) else v
  }

  /** `v` is a record holding every field of `item` with a value of its type. */
  predicate ItemFits(item: seq<ScalarField>, v: Value) {
    v.Record? &&
    forall j :: 0 <= j < |item| ==> item[j].name in v.fields && ScalarFits(item[j].scalar, v.fields[item[j].name])
  }

  predicate KindFits(kind: FieldKind, v: Value) {
    match kind
    case Required(s) => ScalarFits(s, v)
    case Nullable(s) => v == Null || ScalarFits(s, v)
    case RecordList => v.List? && forall j :: 0 <= j < |v.items| ==> v.items[j].Record?
    case ModelList(item) => v.List? && forall j :: 0 <= j < |v.items| ==> ItemFits(item, v.items[j])
  }

  /** A declared field passes validation: it is present with a value of its
      type, or it is absent and has a default. Undeclared keys are ignored. */
  predicate FieldFits(f: Field, data: Payload) {
    if f.name in data then KindFits(f.kind, data[f.name]) else f.defaulted
  }

  /** A nested record reduced to its declared fields. */
  function ItemValue(item: seq<ScalarField>, fields: Payload): Payload {
    if |item| == 0 then map[]
    else
      var rest := ItemValue(item[1..], fields);
      if item[0].name in fields then rest[item[0].name := ScalarValue(item[0].scalar, fields[item[0].name])]
      else rest
  }

  function KindValue(kind: FieldKind, v: Value): Value {
    match kind
    case Required(s) => ScalarValue(s, v)
    case Nullable(s) => if v == Null then Null else ScalarValue(s, v)
    case RecordList => v
    case ModelList(item) =>
      if v.List? then
        List(seq(|v.items|, j requires 0 <= j < |v.items| =>
          if v.items[j].Record? then Record(ItemValue(item, v.items[j].fields)) else v.items[j]))
      else v
  }

  /** The value the validated instance holds for field `f`; an absent
      (defaulted) field gets its `default_factory=list` value. */
  function FieldValue(f: Field, data: Payload): Value {
    if f.name in data then KindValue(f.kind, data[f.name]) else List([])
  }

  /** The names of the declared fields that fail validation, in declaration
      order (pydantic reports every failing field at once). */
  function Offending(shape: Shape, data: Payload): (bad: seq<string>)
    ensures |bad| <= |shape|
    ensures bad == [] <==> forall i :: 0 <= i < |shape| ==> FieldFits(shape[i], data)
    ensures forall i :: 0 <= i < |shape| && !FieldFits(shape[i], data) ==> shape[i].name in bad
    ensures forall n :: n in bad ==> exists i :: 0 <= i < |shape| && shape[i].name == n && !FieldFits(shape[i], data)
  {
    if |shape| == 0 then []
    else
      var rest := Offending(shape[1..], data);
      assert forall i :: 1 <= i < |shape| ==> shape[1..][i - 1] == shape[i];
      (if FieldFits(shape[0], data) then [] else [shape[0].name]) + rest
  }

  /** The validated instance as a plain mapping (`model_dump()`): exactly the
      declared fields. */
  function Validated(shape: Shape, data: Payload): (r: Payload)
    ensures forall i :: 0 <= i < |shape| ==> shape[i].name in r
    ensures forall k :: k in r ==> exists i :: 0 <= i < |shape| && shape[i].name == k
  {
    if |shape| == 0 then map[]
    else
      var init := shape[..|shape| - 1];
      var last := shape[|shape| - 1];
      var r := Validated(init, data)[last.name := FieldValue(last, data)];
      assert forall i :: 0 <= i < |init| ==> init[i] == shape[i];
      r
  }

  /** With distinct field names, every declared field holds its validated value. */
  lemma {:induction false} ValidatedValues(shape: Shape, data: Payload)
    requires DistinctNames(shape)
    ensures forall i :: 0 <= i < |shape| ==> Validated(shape, data)[shape[i].name] == FieldValue(shape[i], data)
  {
    if |shape| > 0 {
      var init := shape[..|shape| - 1];
      var last := shape[|shape| - 1];
      assert forall i :: 0 <= i < |init| ==> init[i] == shape[i];
      ValidatedValues(init, data);
      forall i | 0 <= i < |shape|
        ensures Validated(shape, data)[shape[i].name] == FieldValue(shape[i], data)
      {
        if i < |init| {
          assert shape[i].name != last.name;
          assert Validated(shape, data)[shape[i].name] == Validated(init, data)[init[i].name];
        }
      }
    }
  }

  /** `detail_model(**data)`: the validated payload, or the failing fields. */
  function ValidateDetails(shape: Shape, data: Payload): (r: Result<Payload, seq<string>>)
    ensures r.Success? <==> forall i :: 0 <= i < |shape| ==> FieldFits(shape[i], data)
    ensures r.Failure? ==> r.error != []
    ensures r.Failure? ==> forall i :: 0 <= i < |shape| && !FieldFits(shape[i], data) ==> shape[i].name in r.error
    ensures r.Failure? ==> forall n :: n in r.error ==>
      exists i :: 0 <= i < |shape| && shape[i].name == n && !FieldFits(shape[i], data)
  {
    var bad := Offending(shape, data);
    if bad != [] then Failure(bad) else Success(Validated(shape, data))
  }

  // ---------------------------------------------------------------------------
  // Entries
  // ---------------------------------------------------------------------------

  datatype SummaryEntry = SummaryEntry(
    series: string,
    model: string,
    headlineAmount: real,
    currency: Option<string>,
    details: Payload)

  /** Python's `float(value)` on the value types a payload can carry. Parsing a
      numeric string is not modelled: a string yields no number. */
  function ToFloat(v: Value): (r: Option<real>)
    ensures v.Num? ==> r == Some(v.r)
    ensures v.Int? ==> r == Some(v.i as real)
    ensures v.Bool? ==> r == Some(if v.b then 1.0 else 0.0)
    ensures v.Null? || v.List? || v.Record? || v.Str? ==> r == None
  {
    match v
    case Num(x) => Some(x)
    case Int(i) => Some(i as real)
    case Bool(b) => Some(if b then 1.0 else 0.0)
    case _ => None
  }

  /** The body of `from_model_output` once the registry entry is found:
      validate the payload against the detail shape, then read the headline
      from the raw payload. */
  function BuildEntry(entry: RegistryEntry, modelName: string, data: Payload, currency: Option<string>)
    : (r: Result<SummaryEntry, Error>)
    ensures Offending(entry.detailShape, data) != [] ==>
      r == Failure(InvalidDetailPayload(modelName, Offending(entry.detailShape, data)))
    ensures r.Success? ==>
      && entry.headlineKey in data
      && ToFloat(data[entry.headlineKey]) == Some(r.value.headlineAmount)
      && r.value.series == entry.series
      && r.value.model == entry.model
      && r.value.currency == currency
      && r.value.details == Validated(entry.detailShape, data)
  {
    match ValidateDetails(entry.detailShape, data)
    case Failure(bad) => Failure(InvalidDetailPayload(modelName, bad))
    case Success(details) =>
      if entry.headlineKey !in data || data[entry.headlineKey] == Null then
        Failure(MissingHeadline(modelName, entry.headlineKey))
      else
        match ToFloat(data[entry.headlineKey])
        case None => Failure(InvalidHeadlineValue(modelName, entry.headlineKey))
        case Some(amount) => Success(SummaryEntry(entry.series, entry.model, amount, currency, details))
  }

  /** For a well-formed registry entry, building succeeds exactly when the
      payload passes the detail shape: the headline checks after validation
      never fire, because the headline key is a required float field. */
  lemma BuildEntrySucceedsIffValid(entry: RegistryEntry, modelName: string, data: Payload, currency: Option<string>)
    requires WellFormedEntry(entry)
    ensures BuildEntry(entry, modelName, data, currency).Success?
      <==> forall i :: 0 <= i < |entry.detailShape| ==> FieldFits(entry.detailShape[i], data)
    ensures var r := BuildEntry(entry, modelName, data, currency);
      r.Failure? ==> r.error.InvalidDetailPayload? && r.error.model == modelName
  {
    var shape := entry.detailShape;
    var k :| 0 <= k < |shape| && shape[k] == FloatField(entry.headlineKey);
    if forall i :: 0 <= i < |shape| ==> FieldFits(shape[i], data) {
      assert FieldFits(shape[k], data);
      assert entry.headlineKey in data;
      var v := data[entry.headlineKey];
      assert KindFits(Required(Number), v);
      assert v.Num? || v.Int?;
      assert ToFloat(v).Some?;
    }
  }

  /** A payload whose headline field is absent or null is rejected by detail
      validation, which names the headline key among the failing fields. */
  lemma MissingHeadlineIsInvalidPayload(entry: RegistryEntry, modelName: string, data: Payload, currency: Option<string>)
    requires WellFormedEntry(entry)
    requires entry.headlineKey !in data || data[entry.headlineKey] == Null
    ensures var r := BuildEntry(entry, modelName, data, currency);
      r.Failure? && r.error.InvalidDetailPayload? && r.error.model == modelName
      && entry.headlineKey in r.error.fields
  {
    var k :| 0 <= k < |entry.detailShape| && entry.detailShape[k] == FloatField(entry.headlineKey);
    assert !FieldFits(entry.detailShape[k], data);
  }

  /** On success the entry's details hold exactly the declared fields, each
      with its validated value. */
  lemma BuildEntryDetails(entry: RegistryEntry, modelName: string, data: Payload, currency: Option<string>)
    requires WellFormedEntry(entry)
    requires BuildEntry(entry, modelName, data, currency).Success?
    ensures var shape := entry.detailShape;
      var details := BuildEntry(entry, modelName, data, currency).value.details;
      && (forall i :: 0 <= i < |shape| ==> shape[i].name in details && details[shape[i].name] == FieldValue(shape[i], data))
      && (forall k :: k in details ==> exists i :: 0 <= i < |shape| && shape[i].name == k)
  {
    ValidatedValues(entry.detailShape, data);
  }

  /** `SummaryEntry.from_model_output(model_name, data, currency)`. */
  function FromModelOutput(modelName: string, data: Payload, currency: Option<string>): (r: Result<SummaryEntry, Error>)
    ensures modelName !in ModelRegistry ==> r == Failure(UnknownModel(modelName))
    ensures modelName in ModelRegistry ==>
      r == BuildEntry(ModelRegistry[modelName], modelName, data, currency)
  {
    match Lookup(modelName)
    case None => Failure(UnknownModel(modelName))
    case Some(entry) => BuildEntry(entry, modelName, data, currency)
  }

  /** For every registered model: conversion succeeds exactly when the payload
      passes the model's detail shape, and then the entry carries the
      registry's series and model, the raw headline value, the given currency
      and the validated details; the missing-headline and bad-headline errors
      never occur. */
  lemma FromModelOutputSucceedsIffValid(modelName: string, data: Payload, currency: Option<string>)
    requires modelName in ModelRegistry
    ensures var e := ModelRegistry[modelName];
      var r := FromModelOutput(modelName, data, currency);
      && (r.Success? <==> forall i :: 0 <= i < |e.detailShape| ==> FieldFits(e.detailShape[i], data))
      && (r.Success? ==> && r.value.series == e.series && r.value.model == modelName
                         && ToFloat(data[e.headlineKey]) == Some(r.value.headlineAmount)
                         && r.value.currency == currency)
      && (r.Failure? ==> r.error.InvalidDetailPayload? && r.error.model == modelName)
  {
    var e := ModelRegistry[modelName];
    HeadlineKeysAreDeclared();
    RegistryKeysAreModels();
    BuildEntrySucceedsIffValid(e, modelName, data, currency);
  }

  // ---------------------------------------------------------------------------
  // Requests and source resolution
  // ---------------------------------------------------------------------------

  datatype SummaryModelOutput = SummaryModelOutput(modelName: string, payload: Payload, currency: Option<string>)

  datatype SummaryReportRequest = SummaryReportRequest(
    reportLabel: Option<string>,
    asOf: Option<Timestamp>,
    entries: Option<seq<SummaryEntry>>,
    modelOutputs: Option<seq<SummaryModelOutput>>)

  /** Python truthiness of an optional list: present and non-empty. */
  predicate Supplied<T>(list: Option<seq<T>>) {
    list.Some? && |list.value| > 0
  }

  /** The request invariant `_validate_sources` establishes. */
  predicate HasSources(req: SummaryReportRequest) {
    Supplied(req.entries) || Supplied(req.modelOutputs)
  }

  /** Request construction: the `min_length=1` constraint on `model_outputs`,
      then `_validate_sources`, which returns the request unchanged. */
  function ValidateRequest(req: SummaryReportRequest): (r: Result<SummaryReportRequest, Error>)
    ensures r.Success? <==> req.modelOutputs != Some([]) && HasSources(req)
    ensures r.Success? ==> r.value == req
    ensures r == Failure(ModelOutputsTooShort) <==> req.modelOutputs == Some([])
    ensures r == Failure(MissingSources) <==> req.modelOutputs != Some([]) && !HasSources(req)
  {
    if req.modelOutputs.Some? && |req.modelOutputs.value| < 1 then Failure(ModelOutputsTooShort)
    else if !Supplied(req.entries) && !Supplied(req.modelOutputs) then Failure(MissingSources)
    else Success(req)
  }

  function Convert(item: SummaryModelOutput): Result<SummaryEntry, Error> {
    FromModelOutput(item.modelName, item.payload, item.currency)
  }

  /** Converting `items` stops at index `k` with error `e`: every earlier
      item converts, item `k` fails with `e`. */
  predicate AbortsAt<T, U>(items: seq<T>, convert: T -> Result<U, Error>, k: int, e: Error) {
    && 0 <= k < |items|
    && convert(items[k]) == Failure(e)
    && forall i :: 0 <= i < k ==> convert(items[i]).Success?
  }

  /** A list comprehension whose element expression may raise: each item is
      converted in order, and the first failure aborts the whole list. */
  function ConvertEach<T, U>(items: seq<T>, convert: T -> Result<U, Error>): (r: Result<seq<U>, Error>)
    ensures r.Success? <==> forall i :: 0 <= i < |items| ==> convert(items[i]).Success?
    ensures r.Success? ==> |r.value| == |items|
    ensures r.Success? ==> forall i :: 0 <= i < |items| ==> convert(items[i]) == Success(r.value[i])
    ensures r.Failure? ==> exists k :: AbortsAt(items, convert, k, r.error)
  {
    if |items| == 0 then Success([])
    else
      assert forall i :: 1 <= i < |items| ==> items[1..][i - 1] == items[i];
      match convert(items[0])
      case Failure(e) =>
        assert AbortsAt(items, convert, 0, e);
        Failure(e)
      case Success(first) =>
        match ConvertEach(items[1..], convert)
        case Failure(e) =>
          var k :| AbortsAt(items[1..], convert, k, e);
          assert AbortsAt(items, convert, k + 1, e);
          Failure(e)
        case Success(rest) => Success([first] + rest)
  }

  /** `resolve_entries`: pre-built entries win; otherwise every model output
      is converted. Callers hold a validated request (the `assert` in the source). */
  function ResolveEntries(req: SummaryReportRequest): (r: Result<seq<SummaryEntry>, Error>)
    requires HasSources(req)
    ensures Supplied(req.entries) ==> r == Success(req.entries.value)
    ensures !Supplied(req.entries) ==>
      var outputs := req.modelOutputs.value;
      && (r.Success? <==> forall i :: 0 <= i < |outputs| ==> Convert(outputs[i]).Success?)
      && (r.Success? ==> |r.value| == |outputs|)
      && (r.Success? ==> forall i :: 0 <= i < |outputs| ==> Convert(outputs[i]) == Success(r.value[i]))
      && (r.Failure? ==> exists k :: AbortsAt(outputs, Convert, k, r.error))
  {
    if Supplied(req.entries) then Success(req.entries.value)
    else ConvertEach(req.modelOutputs.value, Convert)
  }

  /** A registered model whose output lacks its headline field, or holds null
      there, fails detail validation, and the failure names the headline field. */
  lemma MissingHeadlineIsReported(modelName: string, data: Payload, currency: Option<string>)
    requires modelName in ModelRegistry
    requires var k := ModelRegistry[modelName].headlineKey; k !in data || data[k] == Null
    ensures var r := FromModelOutput(modelName, data, currency);
      r.Failure? && r.error.InvalidDetailPayload? && r.error.model == modelName
      && ModelRegistry[modelName].headlineKey in r.error.fields
  {
    var e := ModelRegistry[modelName];
    assert WellFormedEntry(e) by {
      HeadlineKeysAreDeclared();
    }
    MissingHeadlineIsInvalidPayload(e, modelName, data, currency);
  }

  /** With no pre-built entries, an unregistered model name in the first raw
      output fails the whole resolution with `UnknownModel`, naming it. */
  lemma UnknownFirstModelIsReported(req: SummaryReportRequest)
    requires !Supplied(req.entries) && Supplied(req.modelOutputs)
    requires req.modelOutputs.value[0].modelName !in ModelRegistry
    ensures ResolveEntries(req) == Failure(UnknownModel(req.modelOutputs.value[0].modelName))
  {
    var outputs := req.modelOutputs.value;
    var r := ResolveEntries(req);
    assert Convert(outputs[0]) == Failure(UnknownModel(outputs[0].modelName));
    assert r.Failure?;
    var k :| AbortsAt(outputs, Convert, k, r.error);
  }

  /** Resolving the entries of a valid request fails only the way
      `from_model_output` fails: an unregistered model name, or a payload its
      detail class rejects. */
  lemma ResolveFailures(req: SummaryReportRequest)
    requires HasSources(req)
    ensures var r := ResolveEntries(req);
      r.Failure? ==> r.error.UnknownModel? || r.error.InvalidDetailPayload?
  {
    var r := ResolveEntries(req);
    if r.Failure? {
      var outputs := req.modelOutputs.value;
      var k :| AbortsAt(outputs, Convert, k, r.error);
      var item := outputs[k];
      if item.modelName in ModelRegistry {
        FromModelOutputSucceedsIffValid(item.modelName, item.payload, item.currency);
      }
    }
  }

  // ---------------------------------------------------------------------------
  // Report records
  // ---------------------------------------------------------------------------

  datatype SummarySeriesHighlight = SummarySeriesHighlight(model: string, headlineAmount: real)

  datatype SummarySeriesAggregate = SummarySeriesAggregate(
    series: string,
    modelCount: int,
    headlineTotal: real,
    headlineAverage: real,
    headlineMin: real,
    headlineMax: real,
    topModel: SummarySeriesHighlight,
    bottomModel: SummarySeriesHighlight)

  datatype SummaryEntryResult = SummaryEntryResult(
    series: string,
    model: string,
    headlineAmount: real,
    currency: Option<string>,
    details: Payload)

  datatype SummaryReportResponse = SummaryReportResponse(
    reportLabel: string,
    asOf: Option<Timestamp>,
    totalModels: int,
    overallHeadlineTotal: real,
    seriesSummary: seq<SummarySeriesAggregate>,
    entries: seq<SummaryEntryResult>)
}
