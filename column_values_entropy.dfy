/** The metric `column_values.entropy.under_threshold`: the per-row condition
    that turns a computed entropy series into booleans, and the resolver that
    chooses which entropy metric it depends on. */
module ColumnValuesEntropy {
  import opened PyValues
  import opened MetricConfigurations

  const ConditionMetricName := "column_values.entropy.under_threshold"
  const ConditionDependencyName := ConditionMetricName + ".condition"

  /** The metric provider's own `default_kwarg_values`. */
  const MetricDefaultKwargs: Kwargs := map["threshold" := PyNone, "method" := PyStr("kde")]

  const NotComputedMessage := "Entropy metric not computed"
  const NotNumericMessage := "Cannot check if a string or NoneType lies under a numerical threshold"

  /** The three ways of estimating entropy. */
  datatype Strategy = Categorical | Bootstrap | Kde

  function MetricName(s: Strategy): string
  {
    match s
    case Categorical => "column_values.categorical_entropy"
    case Bootstrap => "column_values.bootstrap_entropy"
    case Kde => "column_values.kde_entropy"
  }

  /** Position of a strategy in the order the condition looks for results. */
  function Rank(s: Strategy): nat
  {
    match s
    case Categorical => 0
    case Bootstrap => 1
    case Kde => 2
  }

  /** A computed entropy metric: the 3-tuple (primary, aux_a, aux_b) whose
      primary value is the per-row entropy series. */
  datatype EntropyResult = EntropyResult(primary: seq<PyValue>, auxA: PyValue, auxB: PyValue)

  /** The Python exceptions the condition and the resolver raise. */
  datatype PyException =
    | MetricProviderError(message: string)
    | TypeError(message: string)
    | AttributeError(message: string)

  // ---------------------------------------------------------------------
  // The condition (`_pandas_condition`)
  // ---------------------------------------------------------------------

  /** Which computed entropy metric the condition uses: the first of
      categorical, bootstrap, kde that is present. */
  function SelectEntropy(metrics: map<string, EntropyResult>): (r: Option<Strategy>)
    ensures r.Some? ==> MetricName(r.value) in metrics
    ensures r.Some? ==> forall s: Strategy :: Rank(s) < Rank(r.value) ==> MetricName(s) !in metrics
    ensures r.None? <==> forall s: Strategy :: MetricName(s) !in metrics
  {
    if MetricName(Categorical) in metrics then Some(Categorical)
    else if MetricName(Bootstrap) in metrics then Some(Bootstrap)
    else if MetricName(Kde) in metrics then Some(Kde)
    else None
  }

  /** Whether one entropy value lies under the threshold. */
  predicate Passes(entropy: real, threshold: real, doubleSided: bool)
    ensures doubleSided ==> (Passes(entropy, threshold, doubleSided) <==> -Abs(threshold) < entropy < Abs(threshold))
    ensures doubleSided && threshold == 0.0 ==> !Passes(entropy, threshold, doubleSided)
  {
    if doubleSided then Abs(entropy) < Abs(threshold) else entropy < threshold
  }

  /** The elementwise comparison `entropy.abs() < abs(threshold)`, or
      `entropy < threshold`; None when some entropy value is not a number. */
  function UnderThreshold(entropy: seq<PyValue>, threshold: real, doubleSided: bool): (r: Option<seq<bool>>)
    ensures r.Some? <==> forall i :: 0 <= i < |entropy| ==> AsNumber(entropy[i]).Some?
    ensures r.Some? ==> |r.value| == |entropy|
    ensures r.Some? ==> forall i :: 0 <= i < |entropy| ==>
      r.value[i] == Passes(AsNumber(entropy[i]).value, threshold, doubleSided)
  {
    if entropy == [] then Some([])
    else
      match AsNumber(entropy[0])
      case None => None
      case Some(e) =>
        match UnderThreshold(entropy[1..], threshold, doubleSided)
        case None =>
          assert forall i :: 1 <= i < |entropy| ==> entropy[i] == entropy[1..][i - 1];
          None
        case Some(rest) =>
          assert forall i :: 1 <= i < |entropy| ==> entropy[i] == entropy[1..][i - 1];
          Some([Passes(e, threshold, doubleSided)] + rest)
  }

  /** `_pandas_condition`: pick the entropy result, keep its first component
      and compare it row by row against the threshold. */
  function PandasCondition(metrics: map<string, EntropyResult>, threshold: PyValue, doubleSided: PyValue)
    : (r: Result<seq<bool>, PyException>)
    ensures SelectEntropy(metrics).None? ==> r == Err(MetricProviderError(NotComputedMessage))
    ensures SelectEntropy(metrics).Some? ==>
      var e := metrics[MetricName(SelectEntropy(metrics).value)].primary;
      && (r.Ok? <==> AsNumber(threshold).Some? && forall i :: 0 <= i < |e| ==> AsNumber(e[i]).Some?)
      && (r.Err? ==> r.error == TypeError(NotNumericMessage))
      && (r.Ok? ==> |r.value| == |e| && forall i :: 0 <= i < |e| ==>
            r.value[i] == Passes(AsNumber(e[i]).value, AsNumber(threshold).value, Truthy(doubleSided)))
  {
    match SelectEntropy(metrics)
    case None => Err(MetricProviderError(NotComputedMessage))
    case Some(s) =>
      var entropy := metrics[MetricName(s)].primary;
      match AsNumber(threshold)
      case None => Err(TypeError(NotNumericMessage))
      case Some(t) =>
        match UnderThreshold(entropy, t, Truthy(doubleSided))
        case None => Err(TypeError(NotNumericMessage))
        case Some(underThreshold) => Ok(underThreshold)
  }

  /** When categorical entropy is present it is used, whatever else is. */
  lemma CategoricalTakesPrecedence(metrics: map<string, EntropyResult>, threshold: PyValue, doubleSided: PyValue)
    requires MetricName(Categorical) in metrics
    ensures SelectEntropy(metrics) == Some(Categorical)
    ensures PandasCondition(metrics, threshold, doubleSided)
         == PandasCondition(map[MetricName(Categorical) := metrics[MetricName(Categorical)]], threshold, doubleSided)
  {
    var only := map[MetricName(Categorical) := metrics[MetricName(Categorical)]];
    assert MetricName(Categorical) in only;
  }

  /** Without categorical entropy, bootstrap entropy beats kde entropy. */
  lemma BootstrapBeforeKde(metrics: map<string, EntropyResult>)
    requires MetricName(Categorical) !in metrics
    requires MetricName(Bootstrap) in metrics
    ensures SelectEntropy(metrics) == Some(Bootstrap)
  {
  }

  /** The condition is decided by the selected strategy and its primary
      series alone. */
  lemma SameSelectionSameCondition(m1: map<string, EntropyResult>, m2: map<string, EntropyResult>,
                                   threshold: PyValue, doubleSided: PyValue)
    requires SelectEntropy(m1) == SelectEntropy(m2)
    requires SelectEntropy(m1).Some? ==>
      m1[MetricName(SelectEntropy(m1).value)].primary == m2[MetricName(SelectEntropy(m1).value)].primary
    ensures PandasCondition(m1, threshold, doubleSided) == PandasCondition(m2, threshold, doubleSided)
  {
  }

  /** Only the primary component of the selected 3-tuple matters. */
  lemma AuxiliaryValuesIgnored(metrics: map<string, EntropyResult>, name: string, a: PyValue, b: PyValue,
                               threshold: PyValue, doubleSided: PyValue)
    requires name in metrics
    ensures var changed := metrics[name := EntropyResult(metrics[name].primary, a, b)];
      PandasCondition(changed, threshold, doubleSided) == PandasCondition(metrics, threshold, doubleSided)
  {
    var changed := metrics[name := EntropyResult(metrics[name].primary, a, b)];
    assert changed.Keys == metrics.Keys;
    assert SelectEntropy(changed) == SelectEntropy(metrics);
    if SelectEntropy(metrics).Some? {
      var selected := MetricName(SelectEntropy(metrics).value);
      assert changed[selected].primary == metrics[selected].primary;
    }
    SameSelectionSameCondition(changed, metrics, threshold, doubleSided);
  }

  /** A zero threshold fails every row when the comparison is double-sided. */
  lemma ZeroThresholdFailsEveryRow(metrics: map<string, EntropyResult>, zero: PyValue, doubleSided: PyValue)
    requires AsNumber(zero) == Some(0.0)
    requires Truthy(doubleSided)
    ensures var r := PandasCondition(metrics, zero, doubleSided);
      r.Ok? ==> forall i :: 0 <= i < |r.value| ==> !r.value[i]
  {
  }

  /** The double-sided and the single-sided comparison agree on
      non-negative entropies and thresholds. */
  lemma SidesAgreeOnNonNegative(entropy: real, threshold: real)
    ensures 0.0 <= entropy && 0.0 <= threshold ==> (Passes(entropy, threshold, true) <==> Passes(entropy, threshold, false))
  {
  }

  // ---------------------------------------------------------------------
  // The dependency resolver (`_get_evaluation_dependencies`)
  // ---------------------------------------------------------------------

  /** The strategy named by the `method` kwarg: "categorical", "bootstrap",
      and kde for anything else or for no `method` at all. */
  function StrategyOf(configuration: Kwargs): (s: Strategy)
    ensures "method" !in configuration ==> s == Kde
    ensures "method" in configuration ==>
      && (s == Categorical <==> configuration["method"] == PyStr("categorical"))
      && (s == Bootstrap <==> configuration["method"] == PyStr("bootstrap"))
  {
    if "method" in configuration then
      if configuration["method"] == PyStr("categorical") then Categorical
      else if configuration["method"] == PyStr("bootstrap") then Bootstrap
      else Kde
    else Kde
  }

  /** The message of `"method" in None`. */
  const NotIterableMessage := "argument of type 'NoneType' is not iterable"

  /** The message Python gives when `v.equals` is looked up. */
  function NoEqualsAttribute(v: PyValue): string
  {
    "'" + TypeName(v) + "' object has no attribute 'equals'"
  }

  /** The dependencies of a metric request: the condition metric depends on
      exactly one entropy metric, chosen by `method`, over the same domain,
      and fails when there is no configuration to look `method` up in; every
      other request is answered by the base resolver, whose result is
      `base`. */
  function EvaluationDependencies(metric: MetricConfiguration, configuration: Option<Kwargs>, base: Dependencies)
    : (r: Result<Dependencies, PyException>)
    ensures metric.metricName == ConditionDependencyName && configuration.None? ==>
      r == Err(TypeError(NotIterableMessage))
    ensures metric.metricName == ConditionDependencyName && configuration.Some? ==>
      var name := MetricName(StrategyOf(configuration.value));
      && r.Ok?
      && r.value.Keys == {name}
      && r.value[name] == MetricConfiguration(name, metric.domainKwargs, map[])
    ensures metric.metricName != ConditionDependencyName ==> r == Ok(base)
  {
    if metric.metricName == ConditionDependencyName then
      match configuration
      case None => Err(TypeError(NotIterableMessage))
      case Some(kwargs) =>
        var name := MetricName(StrategyOf(kwargs));
        Ok(map[name := MetricConfiguration(name, metric.domainKwargs, map[])])
    else
      Ok(base)
  }

  /** Each recognised method string resolves to its own entropy metric,
      whatever else the configuration holds. */
  lemma MethodSelectsEntropyMetric(metric: MetricConfiguration, configuration: Kwargs, base: Dependencies)
    requires metric.metricName == ConditionDependencyName
    requires "method" in configuration
    ensures configuration["method"] == PyStr("categorical") ==>
      EvaluationDependencies(metric, Some(configuration), base).value.Keys == {"column_values.categorical_entropy"}
    ensures configuration["method"] == PyStr("bootstrap") ==>
      EvaluationDependencies(metric, Some(configuration), base).value.Keys == {"column_values.bootstrap_entropy"}
    ensures configuration["method"] == PyStr("kde") ==>
      EvaluationDependencies(metric, Some(configuration), base).value.Keys == {"column_values.kde_entropy"}
  {
  }

  /** Leaving `method` out, giving "kde", or giving any unrecognised value
      all resolve to the kde entropy metric. */
  lemma KdeIsTheDefault(metric: MetricConfiguration, configuration: Kwargs, base: Dependencies, other: PyValue)
    requires other != PyStr("categorical") && other != PyStr("bootstrap")
    ensures EvaluationDependencies(metric, Some(configuration - {"method"}), base)
         == EvaluationDependencies(metric, Some(configuration["method" := PyStr("kde")]), base)
    ensures EvaluationDependencies(metric, Some(configuration["method" := other]), base)
         == EvaluationDependencies(metric, Some(configuration["method" := PyStr("kde")]), base)
  {
    assert "method" !in configuration - {"method"};
  }

  /** The metric provider's own default `method` resolves to kde. */
  lemma MetricDefaultIsKde()
    ensures StrategyOf(MetricDefaultKwargs) == Kde
  {
  }

  /** What the resolver asks for is what the condition uses: once exactly the
      requested dependencies are computed, the condition selects the entropy
      metric of the configured method. */
  lemma ResolvedDependencyIsSelected(metric: MetricConfiguration, configuration: Kwargs, base: Dependencies,
                                     metrics: map<string, EntropyResult>)
    requires metric.metricName == ConditionDependencyName
    requires metrics.Keys == EvaluationDependencies(metric, Some(configuration), base).value.Keys
    ensures SelectEntropy(metrics) == Some(StrategyOf(configuration))
  {
    var chosen := StrategyOf(configuration);
    assert metrics.Keys == {MetricName(chosen)};
    forall s: Strategy | s != chosen
      ensures MetricName(s) !in metrics
    {
      assert MetricName(s) != MetricName(chosen);
    }
  }

  // ---------------------------------------------------------------------
  // The resolver as written: `configuration["method"].equals(...)`
  // ---------------------------------------------------------------------

  /** The resolver exactly as written: `"method" in None` raises TypeError,
      and a present `method` value is asked for an `equals` attribute, which
      no Python string, number, bool, list or dict has, so the call raises
      AttributeError. */
  function EvaluationDependenciesAsWritten(metric: MetricConfiguration, configuration: Option<Kwargs>,
                                           base: Dependencies)
    : (r: Result<Dependencies, PyException>)
    ensures r.Err? <==> metric.metricName == ConditionDependencyName
                        && (configuration.None? || "method" in configuration.value)
    ensures r.Err? && configuration.None? ==> r == Err(TypeError(NotIterableMessage))
    ensures r.Err? && configuration.Some? ==>
      r == Err(AttributeError(NoEqualsAttribute(configuration.value["method"])))
    ensures r.Ok? ==> r == EvaluationDependencies(metric, configuration, base)
  {
    if metric.metricName == ConditionDependencyName then
      match configuration
      case None => Err(TypeError(NotIterableMessage))
      case Some(kwargs) =>
        if "method" in kwargs then
          Err(AttributeError(NoEqualsAttribute(kwargs["method"])))
        else
          Ok(map[MetricName(Kde) := MetricConfiguration(MetricName(Kde), metric.domainKwargs, map[])])
    else
      Ok(base)
  }

  /** The input that shows the discrepancy: `method="categorical"` makes the
      resolver as written raise, where the string comparison it evidently
      intends yields the categorical entropy dependency. */
  lemma EqualsCallRejectsCategorical(metric: MetricConfiguration, base: Dependencies)
    requires metric.metricName == ConditionDependencyName
    ensures var configuration := Some(map["method" := PyStr("categorical")]);
      && EvaluationDependenciesAsWritten(metric, configuration, base)
         == Err(AttributeError(NoEqualsAttribute(PyStr("categorical"))))
      && EvaluationDependencies(metric, configuration, base).value.Keys == {"column_values.categorical_entropy"}
  {
  }
}
