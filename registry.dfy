/** The static model registry and the detail shapes of the fourteen SEBIT
    models (app/schemas.py). */
module Registry {
  import opened Values

  /** The scalar types a detail field can declare. */
  datatype Scalar = Text | Number | Integer | Flag

  /** A field of a nested record type (the fields of `CocimQuarterAdjustment`). */
  datatype ScalarField = ScalarField(name: string, scalar: Scalar)

  /** The declared type of a detail field. */
  datatype FieldKind =
    | Required(scalar: Scalar)          // `x: float`, `x: str`, ...
    | Nullable(scalar: Scalar)          // `x: Optional[float]` without a default
    | RecordList                        // `List[Dict[str, Any]]`
    | ModelList(item: seq<ScalarField>) // `List[SomeModel]`

  /** One declared field; `defaulted` marks `Field(default_factory=list)`,
      the only default any detail class uses. */
  datatype Field = Field(name: string, kind: FieldKind, defaulted: bool)

  type Shape = seq<Field>

  datatype RegistryEntry = RegistryEntry(
    model: string,
    series: string,
    detailShape: Shape,
    headlineKey: string)

  function TextField(name: string): Field { Field(name, Required(Text), false) }
  function FloatField(name: string): Field { Field(name, Required(Number), false) }
  function IntField(name: string): Field { Field(name, Required(Integer), false) }
  function BoolField(name: string): Field { Field(name, Required(Flag), false) }
  function OptionalFloatField(name: string): Field { Field(name, Nullable(Number), false) }
  function OptionalIntField(name: string): Field { Field(name, Nullable(Integer), false) }
  function ScheduleField(name: string): Field { Field(name, RecordList, true) }

  const DdaShape: Shape := [
    TextField("asset_label"),
    ScheduleField("schedule"),
    FloatField("total_depreciation"),
    FloatField("total_revaluation_gain_loss"),
    FloatField("total_unrecognised_revaluation")]

  const LamShape: Shape := [
    TextField("lease_label"),
    ScheduleField("schedule"),
    FloatField("total_revaluation_gain_loss"),
    FloatField("total_interest_expense"),
    FloatField("total_termination_adjustment")]

  const RvmShape: Shape := [
    TextField("resource_label"),
    FloatField("daily_average_extraction"),
    FloatField("standard_extraction_value"),
    FloatField("total_extraction_value"),
    FloatField("extraction_rate"),
    FloatField("market_change_index"),
    FloatField("market_sensitivity"),
    FloatField("final_revaluation_value")]

  const CeemShape: Shape := [
    TextField("expense_label"),
    FloatField("daily_average_usage_units"),
    FloatField("standard_usage_value_non_quantitative"),
    OptionalFloatField("standard_usage_value_quantitative"),
    FloatField("selected_standard_usage_value"),
    FloatField("total_consumable_usage_value"),
    FloatField("adjusted_consumable_usage_value"),
    FloatField("usage_change_rate"),
    FloatField("market_change_index"),
    FloatField("market_sensitivity_value"),
    FloatField("final_revaluation_value")]

  const BdmShape: Shape := [
    TextField("bond_label"),
    FloatField("daily_estimated_usage"),
    FloatField("estimated_value_ps"),
    FloatField("market_beta"),
    FloatField("final_book_value"),
    FloatField("interest_cost"),
    TextField("interest_type")]

  const BelmShape: Shape := [
    TextField("debtor_label"),
    FloatField("daily_estimated_repayment"),
    FloatField("expected_repayment_at_evaluation"),
    FloatField("interest_rate_adjustment"),
    FloatField("actual_interest_cost"),
    FloatField("preliminary_bad_debt_ratio"),
    FloatField("final_bad_debt_ratio")]

  const CprmShape: Shape := [
    TextField("exposure_id"),
    FloatField("assumed_bad_debt_occurrence_rate"),
    FloatField("convertible_bond_rate"),
    FloatField("convertible_bond_first_amount"),
    FloatField("average_past_bad_debt_recovery"),
    FloatField("average_convertible_bond_price"),
    FloatField("additional_adjustment_beta"),
    FloatField("final_convertible_bond_amount"),
    BoolField("trigger_applied"),
    FloatField("convertible_bond_rate_adjustment"),
    FloatField("final_adjusted_convertible_bond_rate")]

  /** The fields of one `CocimQuarterAdjustment` record. */
  const QuarterAdjustmentShape: seq<ScalarField> := [
    ScalarField("quarter_index", Integer),
    ScalarField("adjustment_value", Number),
    ScalarField("pre_compound_balance", Number),
    ScalarField("post_compound_balance", Number)]

  const CocimShape: Shape := [
    TextField("portfolio_label"),
    FloatField("account_ratio"),
    FloatField("initial_compound_measurement"),
    Field("quarterly_adjustments", ModelList(QuarterAdjustmentShape), true),
    FloatField("annual_compound_growth_rate"),
    BoolField("compound_growth_trigger_applied"),
    FloatField("compound_adjustment_amount"),
    FloatField("final_adjusted_balance")]

  const FarexShape: Shape := [
    TextField("contract_id"),
    FloatField("last_year_trade_ratio"),
    FloatField("current_year_trade_ratio"),
    FloatField("export_import_beta"),
    FloatField("adjustment_indicator"),
    FloatField("inflation_adjusted_rate"),
    FloatField("final_adjusted_rate"),
    FloatField("revaluation_amount")]

  const TctBeamShape: Shape := [
    TextField("model_label"),
    IntField("evaluation_years"),
    FloatField("cumulative_fixed_cost"),
    FloatField("cumulative_variable_cost"),
    FloatField("cumulative_operating_profit"),
    OptionalIntField("break_even_year_index"),
    ScheduleField("schedule")]

  const CpmrvShape: Shape := [
    TextField("asset_label"),
    FloatField("last_year_average_performance"),
    FloatField("current_year_log_ratio"),
    FloatField("monthly_growth_risk"),
    TextField("risk_direction"),
    FloatField("relative_asset_risk"),
    FloatField("adjusted_crypto_value")]

  const DcbpraShape: Shape := [
    TextField("asset_label"),
    FloatField("growth_percentage_factor"),
    FloatField("real_growth_adjustment"),
    FloatField("last_year_average_performance"),
    FloatField("current_year_log_ratio"),
    FloatField("monthly_growth_risk"),
    FloatField("risk_adjustment_component"),
    TextField("risk_direction"),
    FloatField("adjusted_beta"),
    FloatField("baseline_capm_return"),
    FloatField("adjusted_expected_return")]

  const PsrasShape: Shape := [
    TextField("portfolio_label"),
    FloatField("assumed_revenue_recognition_rate"),
    FloatField("new_subscriber_average_payment"),
    FloatField("existing_subscriber_average_payment"),
    FloatField("payment_comparison_index"),
    FloatField("payment_index_baseline_amount"),
    FloatField("pure_performance_break_even"),
    FloatField("final_recognised_revenue")]

  const LsmrvShape: Shape := [
    TextField("evaluation_label"),
    FloatField("probability_distribution_a"),
    FloatField("probability_distribution_b"),
    FloatField("growth_correction_value"),
    FloatField("cumulative_adjustment_value"),
    FloatField("expected_adjustment_value"),
    FloatField("final_adjustment_amount")]

  const AssetAndDepreciation := "Asset & Depreciation"
  const ExpenseAndProfitability := "Expense & Profitability"
  const CapitalAndRiskDerivatives := "Capital & Risk Derivatives"
  const AdvancedAnalytics := "Advanced Analytics"
  const InsuranceAndServiceRevenue := "Insurance & Service Revenue"
  const ProbabilityRevaluation := "Probability Revaluation"

  /** `MODEL_REGISTRY`: model identifier to registry entry. */
  const ModelRegistry: map<string, RegistryEntry> := map[
    "SEBIT-DDA" := RegistryEntry("SEBIT-DDA", AssetAndDepreciation, DdaShape, "total_revaluation_gain_loss"),
    "SEBIT-LAM" := RegistryEntry("SEBIT-LAM", AssetAndDepreciation, LamShape, "total_revaluation_gain_loss"),
    "SEBIT-RVM" := RegistryEntry("SEBIT-RVM", AssetAndDepreciation, RvmShape, "final_revaluation_value"),
    "SEBIT-CEEM" := RegistryEntry("SEBIT-CEEM", ExpenseAndProfitability, CeemShape, "final_revaluation_value"),
    "SEBIT-BDM" := RegistryEntry("SEBIT-BDM", ExpenseAndProfitability, BdmShape, "final_book_value"),
    "SEBIT-BELM" := RegistryEntry("SEBIT-BELM", ExpenseAndProfitability, BelmShape, "final_bad_debt_ratio"),
    "SEBIT-CPRM" := RegistryEntry("SEBIT-CPRM", CapitalAndRiskDerivatives, CprmShape, "final_convertible_bond_amount"),
    "SEBIT-C-OCIM" := RegistryEntry("SEBIT-C-OCIM", CapitalAndRiskDerivatives, CocimShape, "final_adjusted_balance"),
    "SEBIT-FAREX" := RegistryEntry("SEBIT-FAREX", CapitalAndRiskDerivatives, FarexShape, "revaluation_amount"),
    "SEBIT-TCT-BEAM" := RegistryEntry("SEBIT-TCT-BEAM", AdvancedAnalytics, TctBeamShape, "cumulative_operating_profit"),
    "SEBIT-CPMRV" := RegistryEntry("SEBIT-CPMRV", AdvancedAnalytics, CpmrvShape, "adjusted_crypto_value"),
    "SEBIT-DCBPRA" := RegistryEntry("SEBIT-DCBPRA", AdvancedAnalytics, DcbpraShape, "adjusted_expected_return"),
    "SEBIT-PSRAS" := RegistryEntry("SEBIT-PSRAS", InsuranceAndServiceRevenue, PsrasShape, "final_recognised_revenue"),
    "SEBIT-LSMRV" := RegistryEntry("SEBIT-LSMRV", ProbabilityRevaluation, LsmrvShape, "final_adjustment_amount")]

  /** `MODEL_REGISTRY.get(model_name)`. */
  function Lookup(modelName: string): (r: Option<RegistryEntry>)
    ensures r.Some? <==> modelName in ModelRegistry
    ensures r.Some? ==> r.value == ModelRegistry[modelName] && r.value.model == modelName
  {
    RegistryKeysAreModels();
    if modelName in ModelRegistry then Some(ModelRegistry[modelName]) else None
  }

  /** No two fields of `shape` share a name. */
  predicate DistinctNames(shape: Shape) {
    forall i, j :: 0 <= i < j < |shape| ==> shape[i].name != shape[j].name
  }

  /** `shape` declares `name` as a required float field without a default. */
  predicate DeclaresFloat(shape: Shape, name: string) {
    exists i :: 0 <= i < |shape| && shape[i] == FloatField(name)
  }

  /** What the registry promises of one entry: its headline key is a required
      float field of its detail shape, and the shape declares no name twice. */
  predicate WellFormedEntry(e: RegistryEntry) {
    DeclaresFloat(e.detailShape, e.headlineKey) && DistinctNames(e.detailShape)
  }

  /** The fourteen registered model identifiers, in registry order. */
  const ModelIds: seq<string> := [
    "SEBIT-DDA", "SEBIT-LAM", "SEBIT-RVM", "SEBIT-CEEM", "SEBIT-BDM", "SEBIT-BELM", "SEBIT-CPRM",
    "SEBIT-C-OCIM", "SEBIT-FAREX", "SEBIT-TCT-BEAM", "SEBIT-CPMRV", "SEBIT-DCBPRA", "SEBIT-PSRAS",
    "SEBIT-LSMRV"]

  /** The six series labels the registry uses. */
  const SeriesLabels: set<string> := {
    AssetAndDepreciation, ExpenseAndProfitability, CapitalAndRiskDerivatives,
    AdvancedAnalytics, InsuranceAndServiceRevenue, ProbabilityRevaluation}

  /** Every key of the registry is the `model` of its own entry. */
  lemma RegistryKeysAreModels()
    ensures forall k :: k in ModelRegistry ==> ModelRegistry[k].model == k
  {
  }

  /** A sequence without repetitions has as many distinct elements as it is long. */
  lemma {:induction false} DistinctCardinality(s: seq<string>)
    requires forall i, j :: 0 <= i < j < |s| ==> s[i] != s[j]
    ensures |set i | 0 <= i < |s| :: s[i]| == |s|
  {
    if |s| > 0 {
      var init := s[..|s| - 1];
      DistinctCardinality(init);
      var before := set i | 0 <= i < |init| :: init[i];
      var after := set i | 0 <= i < |s| :: s[i];
      assert after == before + {s[|s| - 1]};
      assert s[|s| - 1] !in before;
    }
  }

  lemma RegistryKeysAreIds()
    ensures forall k :: k in ModelRegistry <==> k in ModelIds
  {
  }

  lemma ModelIdsAreDistinct()
    ensures forall i, j :: 0 <= i < j < |ModelIds| ==> ModelIds[i] != ModelIds[j]
  {
  }

  /** The registry's keys are exactly the fourteen distinct identifiers of `ModelIds`. */
  lemma RegistrySize()
    ensures forall k :: k in ModelRegistry <==> k in ModelIds
    ensures |ModelRegistry| == 14
  {
    RegistryKeysAreIds();
    ModelIdsAreDistinct();
    DistinctCardinality(ModelIds);
    var ids := set i | 0 <= i < |ModelIds| :: ModelIds[i];
    forall k | k in ids ensures k in ModelRegistry {
      var i :| 0 <= i < |ModelIds| && ModelIds[i] == k;
      assert k in ModelIds;
    }
    assert ModelRegistry.Keys == ids;
  }

  lemma EverySeriesIsALabel()
    ensures forall k :: k in ModelRegistry ==> ModelRegistry[k].series in SeriesLabels
  {
  }

  lemma EveryLabelIsUsed()
    ensures forall s :: s in SeriesLabels ==> exists k :: k in ModelRegistry && ModelRegistry[k].series == s
  {
    assert ModelRegistry["SEBIT-DDA"].series == AssetAndDepreciation;
    assert ModelRegistry["SEBIT-CEEM"].series == ExpenseAndProfitability;
    assert ModelRegistry["SEBIT-CPRM"].series == CapitalAndRiskDerivatives;
    assert ModelRegistry["SEBIT-TCT-BEAM"].series == AdvancedAnalytics;
    assert ModelRegistry["SEBIT-PSRAS"].series == InsuranceAndServiceRevenue;
    assert ModelRegistry["SEBIT-LSMRV"].series == ProbabilityRevaluation;
  }

  lemma SixLabels()
    ensures |SeriesLabels| == 6
  {
  }

  /** Every entry belongs to one of six series, and each of the six is used. */
  lemma RegistrySeries()
    ensures forall k :: k in ModelRegistry ==> ModelRegistry[k].series in SeriesLabels
    ensures forall s :: s in SeriesLabels ==> exists k :: k in ModelRegistry && ModelRegistry[k].series == s
    ensures |SeriesLabels| == 6
  {
    EverySeriesIsALabel();
    EveryLabelIsUsed();
    SixLabels();
  }

  /** The names of fields `lo` to `hi - 1` differ from every later name. */
  predicate DistinctRows(shape: Shape, lo: int, hi: int) {
    forall i, j :: 0 <= lo <= i < hi && i < j < |shape| ==> shape[i].name != shape[j].name
  }

  lemma JoinRows(shape: Shape, m: int)
    requires 0 <= m && DistinctRows(shape, 0, m) && DistinctRows(shape, m, |shape|)
    ensures DistinctNames(shape)
  {
    forall i, j | 0 <= i < j < |shape| ensures shape[i].name != shape[j].name {
      if i < m {
        assert DistinctRows(shape, 0, m);
      } else {
        assert DistinctRows(shape, m, |shape|);
      }
    }
  }

  lemma DdaNamesDistinct() ensures DistinctNames(DdaShape) {}
  lemma LamNamesDistinct() ensures DistinctNames(LamShape) {}
  lemma RvmNamesDistinct() ensures DistinctNames(RvmShape) {}
  lemma CeemNamesFront() ensures DistinctRows(CeemShape, 0, 3) {}
  lemma CeemNamesBack() ensures DistinctRows(CeemShape, 3, |CeemShape|) {}
  lemma CeemNamesDistinct() ensures DistinctNames(CeemShape) {
    CeemNamesFront();
    CeemNamesBack();
    JoinRows(CeemShape, 3);
  }
  lemma BdmNamesDistinct() ensures DistinctNames(BdmShape) {}
  lemma BelmNamesDistinct() ensures DistinctNames(BelmShape) {}
  lemma CprmNamesFront() ensures DistinctRows(CprmShape, 0, 3) {}
  lemma CprmNamesBack() ensures DistinctRows(CprmShape, 3, |CprmShape|) {}
  lemma CprmNamesDistinct() ensures DistinctNames(CprmShape) {
    CprmNamesFront();
    CprmNamesBack();
    JoinRows(CprmShape, 3);
  }
  lemma CocimNamesDistinct() ensures DistinctNames(CocimShape) {}
  lemma FarexNamesDistinct() ensures DistinctNames(FarexShape) {}
  lemma TctBeamNamesDistinct() ensures DistinctNames(TctBeamShape) {}
  lemma CpmrvNamesDistinct() ensures DistinctNames(CpmrvShape) {}
  lemma DcbpraNamesFront() ensures DistinctRows(DcbpraShape, 0, 3) {}
  lemma DcbpraNamesBack() ensures DistinctRows(DcbpraShape, 3, |DcbpraShape|) {}
  lemma DcbpraNamesDistinct() ensures DistinctNames(DcbpraShape) {
    DcbpraNamesFront();
    DcbpraNamesBack();
    JoinRows(DcbpraShape, 3);
  }
  lemma PsrasNamesDistinct() ensures DistinctNames(PsrasShape) {}
  lemma LsmrvNamesDistinct() ensures DistinctNames(LsmrvShape) {}

  /** No detail shape declares a field name twice. */
  lemma ShapesHaveDistinctNames()
    ensures DistinctNames(DdaShape) && DistinctNames(LamShape) && DistinctNames(RvmShape)
    ensures DistinctNames(CeemShape) && DistinctNames(BdmShape) && DistinctNames(BelmShape)
    ensures DistinctNames(CprmShape) && DistinctNames(CocimShape) && DistinctNames(FarexShape)
    ensures DistinctNames(TctBeamShape) && DistinctNames(CpmrvShape) && DistinctNames(DcbpraShape)
    ensures DistinctNames(PsrasShape) && DistinctNames(LsmrvShape)
  {
    DdaNamesDistinct();
    LamNamesDistinct();
    RvmNamesDistinct();
    CeemNamesDistinct();
    BdmNamesDistinct();
    BelmNamesDistinct();
    CprmNamesDistinct();
    CocimNamesDistinct();
    FarexNamesDistinct();
    TctBeamNamesDistinct();
    CpmrvNamesDistinct();
    DcbpraNamesDistinct();
    PsrasNamesDistinct();
    LsmrvNamesDistinct();
  }

  /** Every registry entry's headline key is a declared float field of its
      detail shape (DDA: `total_revaluation_gain_loss`, BELM:
      `final_bad_debt_ratio`, TCT-BEAM: `cumulative_operating_profit`, ...). */
  lemma HeadlineKeysAreDeclared()
    ensures forall k :: k in ModelRegistry ==> WellFormedEntry(ModelRegistry[k])
  {
    ShapesHaveDistinctNames();
    assert DdaShape[3] == FloatField("total_revaluation_gain_loss");
    assert LamShape[2] == FloatField("total_revaluation_gain_loss");
    assert RvmShape[7] == FloatField("final_revaluation_value");
    assert CeemShape[10] == FloatField("final_revaluation_value");
    assert BdmShape[4] == FloatField("final_book_value");
    assert BelmShape[6] == FloatField("final_bad_debt_ratio");
    assert CprmShape[7] == FloatField("final_convertible_bond_amount");
    assert CocimShape[7] == FloatField("final_adjusted_balance");
    assert FarexShape[7] == FloatField("revaluation_amount");
    assert TctBeamShape[4] == FloatField("cumulative_operating_profit");
    assert CpmrvShape[6] == FloatField("adjusted_crypto_value");
    assert DcbpraShape[10] == FloatField("adjusted_expected_return");
    assert PsrasShape[7] == FloatField("final_recognised_revenue");
    assert LsmrvShape[6] == FloatField("final_adjustment_amount");
  }
}
