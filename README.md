# Entropy and uniqueness column metrics, modelled in Dafny

This project models three pieces of the Great Expectations column-map metrics:

- the `column_values.entropy.under_threshold` metric: its pandas condition, which
  picks one computed entropy result (categorical, then bootstrap, then kde) and
  compares its per-row series with the threshold, single- or double-sided; and
  its dependency resolver, which asks for exactly one entropy metric chosen by
  the `method` kwarg;
- the `column_values.unique` metric: its four backend condition formulas
  (pandas `~duplicated(keep=False)`, SQL `NOT IN (GROUP BY … HAVING count > 1)`,
  the mssql window variant of the same query, Spark `count over partition <= 1`)
  taken as functions over a column of non-null values, and its mssql dependency
  rewrite for `.unexpected_count` requests;
- the `expect_column_value_entropy_to_be_less_than` expectation: its default
  kwargs and the ordered assertion chain of `validate_configuration`.

Python values are the datatype `PyValues.PyValue` (None, bool, int, float as a
real, str, list, dict); kwargs dictionaries are `map<string, PyValue>`; a metric
request is `MetricConfigurations.MetricConfiguration` (name, domain kwargs,
value kwargs). Exceptions are `Err` values of a `Result`.

Files: `py_values.dfy`, `metric_configuration.dfy`, `column_values_entropy.dfy`,
`column_values_unique.dfy`, `expect_column_value_entropy_to_be_less_than.dfy`.

Behaviour of the code worth noting:

- In the corrected resolver (string equality), an unrecognised `method`
  resolves to kde and is not rejected; as written, any present `method` raises
  AttributeError (see "## Findings").
- The validator accepts a `method` only when it is a bool or a dict, so every
  string method, `"kde"` included, is rejected, although the message says a
  string is required. The model keeps this as written (`MethodNotBoolOrDictRejected`,
  `MethodExamples`, `DefaultsDoNotValidate`).
- With `double_sided` true and a zero threshold every row fails, including rows
  of entropy zero (`|e| < 0` never holds), not only rows of nonzero entropy.

## Model

| member | source | states |
|---|---|---|
| `ColumnValuesEntropy.SelectEntropy` | great_expectations/expectations/metrics/column_map_metrics/column_values_entropy.py:38-52 | the selected strategy's metric is present and every strategy earlier in the order categorical, bootstrap, kde is absent; no strategy is selected iff none of the three metrics is present |
| `ColumnValuesEntropy.Passes` | great_expectations/expectations/metrics/column_map_metrics/column_values_entropy.py:56-59 | with `double_sided` the one-value test keeps exactly the open band (-abs(t), abs(t)), so a zero threshold passes nothing |
| `ColumnValuesEntropy.UnderThreshold` | great_expectations/expectations/metrics/column_map_metrics/column_values_entropy.py:55-60 | the comparison succeeds iff every entropy value is numeric; then it has one boolean per row and row i is `|e[i]| < |t|` when double-sided, `e[i] < t` otherwise |
| `ColumnValuesEntropy.PandasCondition` | great_expectations/expectations/metrics/column_map_metrics/column_values_entropy.py:33-64 | no entropy metric gives MetricProviderError("Entropy metric not computed"); otherwise the result is a series iff the threshold and every value of the selected result's first component are numeric, with one entry per row under the threshold policy chosen by the truthiness of `double_sided`, and TypeError with the source's message otherwise |
| `ColumnValuesEntropy.CategoricalTakesPrecedence` | great_expectations/expectations/metrics/column_map_metrics/column_values_entropy.py:41-50 | when categorical entropy is present it is selected, and the condition equals the one computed from the categorical result alone |
| `ColumnValuesEntropy.BootstrapBeforeKde` | great_expectations/expectations/metrics/column_map_metrics/column_values_entropy.py:45-50 | without categorical entropy, present bootstrap entropy is selected over kde |
| `ColumnValuesEntropy.SameSelectionSameCondition` | great_expectations/expectations/metrics/column_map_metrics/column_values_entropy.py:41-64 | two sets of computed metrics that select the same strategy with the same per-row series give the same condition |
| `ColumnValuesEntropy.AuxiliaryValuesIgnored` | great_expectations/expectations/metrics/column_map_metrics/column_values_entropy.py:42-50 | replacing the second and third components of any entropy 3-tuple leaves the condition unchanged |
| `ColumnValuesEntropy.ZeroThresholdFailsEveryRow` | great_expectations/expectations/metrics/column_map_metrics/column_values_entropy.py:56-57 | a zero threshold with a truthy `double_sided` makes every row of a successful condition false |
| `ColumnValuesEntropy.SidesAgreeOnNonNegative` | great_expectations/expectations/metrics/column_map_metrics/column_values_entropy.py:56-59 | on non-negative entropy and threshold the double-sided and single-sided tests agree |
| `ColumnValuesEntropy.StrategyOf` | great_expectations/expectations/metrics/column_map_metrics/column_values_entropy.py:79-107 | an absent `method` selects kde; a present one selects categorical iff it is "categorical", bootstrap iff it is "bootstrap", and kde otherwise |
| `ColumnValuesEntropy.EvaluationDependencies` | great_expectations/expectations/metrics/column_map_metrics/column_values_entropy.py:70-114 | for the `…under_threshold.condition` request a None configuration raises TypeError ("argument of type 'NoneType' is not iterable"), and otherwise the result has exactly one key, the entropy metric of the configured strategy, whose configuration has the same name, the request's domain kwargs and no value kwargs; every other request gets the base resolver's result unchanged |
| `ColumnValuesEntropy.MethodSelectsEntropyMetric` | great_expectations/expectations/metrics/column_map_metrics/column_values_entropy.py:79-100 | method "categorical", "bootstrap" and "kde" each resolve to the one key of their own entropy metric, whatever else the configuration holds |
| `ColumnValuesEntropy.KdeIsTheDefault` | great_expectations/expectations/metrics/column_map_metrics/column_values_entropy.py:94-107 | an absent method and any value other than "categorical" or "bootstrap" resolve exactly as method "kde" does |
| `ColumnValuesEntropy.MetricDefaultIsKde` | great_expectations/expectations/metrics/column_map_metrics/column_values_entropy.py:31 | the metric provider's default `method` selects the kde strategy |
| `ColumnValuesEntropy.ResolvedDependencyIsSelected` | great_expectations/expectations/metrics/column_map_metrics/column_values_entropy.py:41-107 | when the computed metrics are exactly the resolved dependencies, the condition selects the entropy result of the configured strategy |
| `ColumnValuesEntropy.EvaluationDependenciesAsWritten` | great_expectations/expectations/metrics/column_map_metrics/column_values_entropy.py:70-114 | as written the condition request fails iff the configuration is None (TypeError, not iterable) or holds `method` (AttributeError "'<type>' object has no attribute 'equals'" naming the type of the method value); whenever it succeeds it agrees with the corrected resolver |
| `ColumnValuesEntropy.EqualsCallRejectsCategorical` | great_expectations/expectations/metrics/column_map_metrics/column_values_entropy.py:81-86 | method "categorical" makes the resolver as written raise `'str' object has no attribute 'equals'`, while the corrected resolver yields the categorical entropy dependency |
| `ColumnValuesUnique.DuplicatedKeepFalse` | great_expectations/expectations/metrics/column_map_metrics/column_values_unique.py:29 | `duplicated(keep=False)` has one entry per row and flags row i iff another row holds the same value |
| `ColumnValuesUnique.PandasCondition` | great_expectations/expectations/metrics/column_map_metrics/column_values_unique.py:27-29 | `~duplicated(keep=False)` has one entry per row and row i is true iff no other row holds the value of row i |
| `ColumnValuesUnique.DuplicateValues` | great_expectations/expectations/metrics/column_map_metrics/column_values_unique.py:35-40 | the GROUP BY … HAVING count > 1 sub-query holds only values of the column, and a row's value is in it iff another row holds the same value |
| `ColumnValuesUnique.SqlCondition` | great_expectations/expectations/metrics/column_map_metrics/column_values_unique.py:31-42 | the `NOT IN` condition has one entry per row and row i is true iff no other row holds its value |
| `ColumnValuesUnique.SqlWindowCondition` | great_expectations/expectations/metrics/column_map_metrics/column_values_unique.py:44-57 | the mssql window variant has one entry per row and row i is true iff no other row holds its value |
| `ColumnValuesUnique.PartitionCount` | great_expectations/expectations/metrics/column_map_metrics/column_values_unique.py:64 | the count over the partition of a value is at most the length of the column |
| `ColumnValuesUnique.PartitionCountZeroIffAbsent` | great_expectations/expectations/metrics/column_map_metrics/column_values_unique.py:64 | the partition of a value is empty iff the column does not hold the value |
| `ColumnValuesUnique.SparkCondition` | great_expectations/expectations/metrics/column_map_metrics/column_values_unique.py:59-64 | the partition count condition has one entry per row and row i is true iff no other row holds its value |
| `ColumnValuesUnique.PartitionCountSplit` | great_expectations/expectations/metrics/column_map_metrics/column_values_unique.py:64 | the partition of x in a column with one marked occurrence of x counts the rows before it, that row, and the rows after it |
| `ColumnValuesUnique.PartitionCountIsMultiplicity` | great_expectations/expectations/metrics/column_map_metrics/column_values_unique.py:35-64 | the Spark partition count of a value equals the GROUP BY count of it |
| `ColumnValuesUnique.BackendsAgree` | great_expectations/expectations/metrics/column_map_metrics/column_values_unique.py:27-64 | on every column the SQL, mssql window and Spark series equal the pandas series |
| `ColumnValuesUnique.UniqueExample` | great_expectations/expectations/metrics/column_map_metrics/column_values_unique.py:27-64 | the column [1, 2, 2, 3] gives [true, false, false, true] on pandas, SQL and Spark |
| `ColumnValuesUnique.StripSuffix` | great_expectations/expectations/metrics/column_map_metrics/column_values_unique.py:86 | the stripped prefix with the suffix appended again is the original name |
| `ColumnValuesUnique.EvaluationDependencies` | great_expectations/expectations/metrics/column_map_metrics/column_values_unique.py:74-90 | outside an `.unexpected_count` request on mssql the base dependencies are returned unchanged; inside it a missing `metric_partial_fn` is a KeyError, and otherwise that key is removed, `unexpected_condition` is added as the prefix plus `.condition` with the request's domain kwargs and the removed entry's value kwargs, and every other key keeps its value |
| `ColumnValuesUnique.RewrittenNameRoundTrip` | great_expectations/expectations/metrics/column_map_metrics/column_values_unique.py:86 | the rewritten name ends with `.condition`, and stripping that suffix gives back the request's name without `.unexpected_count` |
| `ExpectColumnValueEntropyToBeLessThan.Assertions` | great_expectations/expectations/core/expect_column_value_entropy_to_be_less_than.py:111-125 | the executed assertions, one to four, start with the threshold-presence check, then (with a threshold) the threshold-type check; every assertion but the last holds, since a failure raises, and a last one that holds is the method check, so the chain ran to its end |
| `ExpectColumnValueEntropyToBeLessThan.FirstFailure` | great_expectations/expectations/core/expect_column_value_entropy_to_be_less_than.py:110-127 | no failure iff every executed assertion holds; otherwise the message is that of a failing assertion all of whose predecessors hold |
| `ExpectColumnValueEntropyToBeLessThan.AssertionsHoldIff` | great_expectations/expectations/core/expect_column_value_entropy_to_be_less_than.py:111-125 | all executed assertions hold iff a threshold is present, is a float, int, bool or dict, a dict threshold has a `$PARAMETER` key, and a present method is a bool or dict |
| `ExpectColumnValueEntropyToBeLessThan.ValidateKwargs` | great_expectations/expectations/core/expect_column_value_entropy_to_be_less_than.py:110-128 | the kwargs pass, returning True, iff those four conditions hold; every failure is InvalidExpectationConfigurationError |
| `ExpectColumnValueEntropyToBeLessThan.ValidateConfiguration` | great_expectations/expectations/core/expect_column_value_entropy_to_be_less_than.py:106-128 | a base-class rejection propagates; a None argument falls back to the expectation's own configuration, and AttributeError when that is None too; otherwise the result is the kwargs validation of the effective configuration |
| `ExpectColumnValueEntropyToBeLessThan.MissingThresholdRejected` | great_expectations/expectations/core/expect_column_value_entropy_to_be_less_than.py:112-114 | kwargs without `threshold` fail with "A threshold must be provided" |
| `ExpectColumnValueEntropyToBeLessThan.NonNumericThresholdRejected` | great_expectations/expectations/core/expect_column_value_entropy_to_be_less_than.py:115-117 | a threshold that is not a float, int, bool or dict fails with "Provided threshold must be a number", whatever the method |
| `ExpectColumnValueEntropyToBeLessThan.ParameterDictWithoutKeyRejected` | great_expectations/expectations/core/expect_column_value_entropy_to_be_less_than.py:118-121 | a dict threshold without `$PARAMETER` fails with the evaluation-parameter message |
| `ExpectColumnValueEntropyToBeLessThan.MethodNotBoolOrDictRejected` | great_expectations/expectations/core/expect_column_value_entropy_to_be_less_than.py:123-125 | with a valid threshold, a present method that is not a bool or dict fails with "Provided method argument must be a string" |
| `ExpectColumnValueEntropyToBeLessThan.RejectedExamples` | great_expectations/expectations/core/expect_column_value_entropy_to_be_less_than.py:111-127 | `{}`, `{"threshold": "abc"}` and `{"threshold": {"not_param": 1}}` fail, each with its own assertion's message |
| `ExpectColumnValueEntropyToBeLessThan.MethodExamples` | great_expectations/expectations/core/expect_column_value_entropy_to_be_less_than.py:115-125 | a threshold of 5, a `$PARAMETER` dict and a bool threshold pass; threshold 5 with method "kde" fails on the method check |
| `ExpectColumnValueEntropyToBeLessThan.EarlierAssertionWins` | great_expectations/expectations/core/expect_column_value_entropy_to_be_less_than.py:111-127 | with a bad method too, a missing threshold and a None threshold are reported by their own earlier assertions |
| `ExpectColumnValueEntropyToBeLessThan.MapMetricIsEntropyCondition` | great_expectations/expectations/core/expect_column_value_entropy_to_be_less_than.py:78 | the expectation's `map_metric` is the name under which the entropy condition metric is registered, and its `.condition` request is the one the entropy resolver answers |
| `ExpectColumnValueEntropyToBeLessThan.DefaultsSelectKdeDoubleSided` | great_expectations/expectations/core/expect_column_value_entropy_to_be_less_than.py:79-92 | `default_kwarg_values` has exactly its nine keys, with threshold, row_condition and condition_parser None, a truthy double_sided, a method resolving to kde, mostly 1, result_format "BASIC", a truthy include_config and a falsy catch_exceptions; it covers every success key |
| `ExpectColumnValueEntropyToBeLessThan.DefaultsDoNotValidate` | great_expectations/expectations/core/expect_column_value_entropy_to_be_less_than.py:82-125 | the defaults passed as kwargs fail on the threshold type, and with threshold 5 they fail on the method check |

## Findings

| source | as written | input that shows it | evidently intended | confidence | as-written member | corrected member |
|---|---|---|---|---|---|---|
| great_expectations/expectations/metrics/column_map_metrics/column_values_entropy.py:81-88 | the `method` value is compared by calling its `.equals`, which Python strings (and bools, dicts, numbers) do not have, so any present `method` raises AttributeError | the condition request with kwargs `{"method": "categorical"}` | plain string equality, selecting `column_values.categorical_entropy` | not executed; high | `ColumnValuesEntropy.EvaluationDependenciesAsWritten` (shown by `ColumnValuesEntropy.EqualsCallRejectsCategorical`) | `ColumnValuesEntropy.EvaluationDependencies` |

## Left out

- The base-class `_get_evaluation_dependencies` and `validate_configuration`: framework code outside the model; their outcome is a parameter (`base`, `baseAccepts`).
- The MetricConfiguration and ExpectationConfiguration classes are not part of this model; a two-argument MetricConfiguration is taken to carry empty value kwargs, and `"method" in configuration` (line 79) is read as membership in the configuration's kwargs.
- `execution_engine.dialect` is a string parameter; an engine that is absent or has no dialect attribute is not modelled.
- Execution engines, SQLAlchemy query objects, Spark windows and the decorators that register the partials: only the value-level meaning of each formula over a sequence is modelled.
- SQL NULL semantics and pandas NaN equality: columns of the uniqueness metric hold non-null values.
- ColumnValuesEntropy.PandasCondition: raises TypeError for every non-numeric threshold or entropy value; pandas' own coercions (None read as NaN in a float series, comparisons on object series) are not modelled.
- Floating point: entropy values and thresholds are mathematical reals, without rounding or NaN ordering.
- Entropy results are taken to be 3-tuples whose first component is a per-row series; a scalar entropy and unpacking errors are not modelled.
- The kde, bootstrap and categorical estimators, and the z-score metric of `column_values_categorical_entropy.py`: floating-point arithmetic with nothing to verify beyond it.
- Evaluation-parameter resolution, `mostly` aggregation, result formatting, `meta` and `include_config`: orchestration outside the model.
- The insertion order of Python dicts: dependencies are finite maps.
