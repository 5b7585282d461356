/** The expectation `expect_column_value_entropy_to_be_less_than`: its
    default kwargs and the assertion chain of `validate_configuration`. */
module ExpectColumnValueEntropyToBeLessThan {
  import opened PyValues
  import ColumnValuesEntropy

  const MapMetric := "column_values.entropy.under_threshold"
  const SuccessKeys: seq<string> := ["threshold", "method", "double_sided", "mostly"]

  /** `default_kwarg_values`. */
  const DefaultKwargValues: Kwargs := map[
    "row_condition" := PyNone,
    "condition_parser" := PyNone,
    "threshold" := PyNone,
    "double_sided" := PyBool(true),
    "method" := PyStr("kde"),
    "mostly" := PyInt(1),
    "result_format" := PyStr("BASIC"),
    "include_config" := PyBool(true),
    "catch_exceptions" := PyBool(false)]

  const ThresholdMissing := "A threshold must be provided"
  const ThresholdNotNumber := "Provided threshold must be a number"
  const ParameterKeyMissing := "Evaluation Parameter dict for threshold kwarg must have \"$PARAMETER\" key."
  const MethodNotString := "Provided method argument must be a string"
  const NoConfiguration := "'NoneType' object has no attribute 'kwargs'"

  datatype ExpectationConfiguration = ExpectationConfiguration(expectationType: string, kwargs: Kwargs)

  datatype ValidationError =
    | InvalidExpectationConfigurationError(message: string)
    | BaseValidationError       // raised by the base class's validate_configuration
    | AttributeError(message: string)

  /** `isinstance(v, (float, int, dict))`; a bool is an int. */
  predicate IsNumberOrDict(v: PyValue)
  {
    v.PyFloat? || v.PyInt? || v.PyBool? || v.PyDict?
  }

  /** `isinstance(v, (bool, dict))`. */
  predicate IsBoolOrDict(v: PyValue)
  {
    v.PyBool? || v.PyDict?
  }

  /** One executed `assert condition, message`. */
  datatype Assertion = Assertion(holds: bool, message: string)

  /** The assertions of the `try` block in the order they run; a failed
      assertion raises, so the list ends at the first one that fails. */
  function Assertions(kwargs: Kwargs): (r: seq<Assertion>)
    ensures 1 <= |r| <= 4
    ensures r[0] == Assertion("threshold" in kwargs, ThresholdMissing)
    ensures forall k :: 0 <= k < |r| - 1 ==> r[k].holds
    ensures "threshold" in kwargs ==> 2 <= |r| && r[1] == Assertion(IsNumberOrDict(kwargs["threshold"]), ThresholdNotNumber)
    ensures r[|r| - 1].holds ==> r[|r| - 1] == Assertion(true, MethodNotString)
  {
    if "threshold" !in kwargs then
      [Assertion(false, ThresholdMissing)]
    else
      var threshold := kwargs["threshold"];
      var typeCheck := Assertion(IsNumberOrDict(threshold), ThresholdNotNumber);
      var parameterCheck := Assertion(threshold.PyDict? ==> "$PARAMETER" in threshold.entries, ParameterKeyMissing);
      var methodCheck := Assertion("method" !in kwargs || IsBoolOrDict(kwargs["method"]), MethodNotString);
      if !typeCheck.holds then [Assertion(true, ThresholdMissing), typeCheck]
      else if !threshold.PyDict? then [Assertion(true, ThresholdMissing), typeCheck, methodCheck]
      else if !parameterCheck.holds then [Assertion(true, ThresholdMissing), typeCheck, parameterCheck]
      else [Assertion(true, ThresholdMissing), typeCheck, parameterCheck, methodCheck]
  }

  /** The message of the first assertion that fails, if any. */
  function FirstFailure(assertions: seq<Assertion>): (r: Option<string>)
    ensures r.None? <==> forall k :: 0 <= k < |assertions| ==> assertions[k].holds
    ensures r.Some? ==> exists k :: (0 <= k < |assertions| && !assertions[k].holds
      && r.value == assertions[k].message
      && forall j :: 0 <= j < k ==> assertions[j].holds)
  {
    if assertions == [] then None
    else if !assertions[0].holds then Some(assertions[0].message)
    else
      var rest := FirstFailure(assertions[1..]);
      assert forall k :: 1 <= k < |assertions| ==> assertions[k] == assertions[1..][k - 1];
      if rest.Some? then
        var k :| (0 <= k < |assertions[1..]| && !assertions[1..][k].holds
          && rest.value == assertions[1..][k].message
          && forall j :: 0 <= j < k ==> assertions[1..][j].holds);
        assert !assertions[k + 1].holds && forall j :: 0 <= j < k + 1 ==> assertions[j].holds;
        rest
      else
        rest
  }

  /** Every executed assertion holds exactly when the four conditions of
      the `try` block do. */
  lemma AssertionsHoldIff(kwargs: Kwargs)
    ensures (forall k :: 0 <= k < |Assertions(kwargs)| ==> Assertions(kwargs)[k].holds) <==>
      && "threshold" in kwargs
      && IsNumberOrDict(kwargs["threshold"])
      && (kwargs["threshold"].PyDict? ==> "$PARAMETER" in kwargs["threshold"].entries)
      && ("method" in kwargs ==> IsBoolOrDict(kwargs["method"]))
  {
    var a := Assertions(kwargs);
    if "threshold" in kwargs {
      var threshold := kwargs["threshold"];
      if !IsNumberOrDict(threshold) {
        assert !a[1].holds;
      } else if threshold.PyDict? {
        assert a[2].holds == ("$PARAMETER" in threshold.entries);
        if a[2].holds {
          assert a[3].holds == ("method" !in kwargs || IsBoolOrDict(kwargs["method"]));
        }
      } else {
        assert a[2].holds == ("method" !in kwargs || IsBoolOrDict(kwargs["method"]));
      }
    } else {
      assert !a[0].holds;
    }
  }

  /** The `try` block on the kwargs of a configuration: the first failing
      assertion is raised as InvalidExpectationConfigurationError. */
  function ValidateKwargs(kwargs: Kwargs): (r: Result<bool, ValidationError>)
    ensures r.Ok? <==>
      && "threshold" in kwargs
      && IsNumberOrDict(kwargs["threshold"])
      && (kwargs["threshold"].PyDict? ==> "$PARAMETER" in kwargs["threshold"].entries)
      && ("method" in kwargs ==> IsBoolOrDict(kwargs["method"]))
    ensures r.Ok? ==> r.value
    ensures r.Err? ==> r.error.InvalidExpectationConfigurationError?
  {
    AssertionsHoldIff(kwargs);
    match FirstFailure(Assertions(kwargs))
    case None => Ok(true)
    case Some(message) => Err(InvalidExpectationConfigurationError(message))
  }

  /** `validate_configuration`. `baseAccepts` says whether the base class's
      validation returned normally; a None argument falls back to the
      expectation's own configuration, which may itself be None. */
  function ValidateConfiguration(configuration: Option<ExpectationConfiguration>,
                                 selfConfiguration: Option<ExpectationConfiguration>,
                                 baseAccepts: bool): (r: Result<bool, ValidationError>)
    ensures !baseAccepts ==> r == Err(BaseValidationError)
    ensures baseAccepts && configuration.Some? ==> r == ValidateKwargs(configuration.value.kwargs)
    ensures baseAccepts && configuration.None? && selfConfiguration.Some? ==>
      r == ValidateKwargs(selfConfiguration.value.kwargs)
    ensures baseAccepts && configuration.None? && selfConfiguration.None? ==>
      r == Err(AttributeError(NoConfiguration))
  {
    if !baseAccepts then Err(BaseValidationError)
    else
      var effective := if configuration.None? then selfConfiguration else configuration;
      match effective
      case None => Err(AttributeError(NoConfiguration))
      case Some(c) => ValidateKwargs(c.kwargs)
  }

  // ---------------------------------------------------------------------
  // Which assertion decides
  // ---------------------------------------------------------------------

  lemma MissingThresholdRejected(kwargs: Kwargs)
    requires "threshold" !in kwargs
    ensures ValidateKwargs(kwargs) == Err(InvalidExpectationConfigurationError(ThresholdMissing))
  {
  }

  /** A threshold that is neither a number nor a dict is rejected, whatever
      `method` holds. */
  lemma NonNumericThresholdRejected(kwargs: Kwargs)
    requires "threshold" in kwargs && !IsNumberOrDict(kwargs["threshold"])
    ensures ValidateKwargs(kwargs) == Err(InvalidExpectationConfigurationError(ThresholdNotNumber))
  {
  }

  lemma ParameterDictWithoutKeyRejected(kwargs: Kwargs)
    requires "threshold" in kwargs && kwargs["threshold"].PyDict?
    requires "$PARAMETER" !in kwargs["threshold"].entries
    ensures ValidateKwargs(kwargs) == Err(InvalidExpectationConfigurationError(ParameterKeyMissing))
  {
  }

  /** With a good threshold, a `method` that is not a bool or dict is
      rejected: a string such as "kde" among them. */
  lemma MethodNotBoolOrDictRejected(kwargs: Kwargs)
    requires "threshold" in kwargs && IsNumberOrDict(kwargs["threshold"])
    requires kwargs["threshold"].PyDict? ==> "$PARAMETER" in kwargs["threshold"].entries
    requires "method" in kwargs && !IsBoolOrDict(kwargs["method"])
    ensures ValidateKwargs(kwargs) == Err(InvalidExpectationConfigurationError(MethodNotString))
  {
    var threshold := kwargs["threshold"];
    if threshold.PyDict? {
      assert Assertions(kwargs)[2].holds;
      assert Assertions(kwargs) == [Assertion(true, ThresholdMissing), Assertion(true, ThresholdNotNumber),
        Assertion(true, ParameterKeyMissing), Assertion(false, MethodNotString)];
    } else {
      assert Assertions(kwargs) == [Assertion(true, ThresholdMissing), Assertion(true, ThresholdNotNumber),
        Assertion(false, MethodNotString)];
    }
  }

  /** `{}`, `{"threshold": "abc"}` and `{"threshold": {"not_param": 1}}`
      are rejected, each by its own assertion. */
  lemma RejectedExamples()
    ensures ValidateKwargs(map[]) == Err(InvalidExpectationConfigurationError(ThresholdMissing))
    ensures ValidateKwargs(map["threshold" := PyStr("abc")])
         == Err(InvalidExpectationConfigurationError(ThresholdNotNumber))
    ensures ValidateKwargs(map["threshold" := PyDict(map["not_param" := PyInt(1)])])
         == Err(InvalidExpectationConfigurationError(ParameterKeyMissing))
  {
    MissingThresholdRejected(map[]);
    NonNumericThresholdRejected(map["threshold" := PyStr("abc")]);
    ParameterDictWithoutKeyRejected(map["threshold" := PyDict(map["not_param" := PyInt(1)])]);
  }

  /** `{"threshold": 5}`, `{"threshold": {"$PARAMETER": "my_param"}}` and a
      bool threshold are accepted; `{"threshold": 5, "method": "kde"}` is
      rejected as written. */
  lemma MethodExamples()
    ensures ValidateKwargs(map["threshold" := PyInt(5)]) == Ok(true)
    ensures ValidateKwargs(map["threshold" := PyDict(map["$PARAMETER" := PyStr("my_param")])]) == Ok(true)
    ensures ValidateKwargs(map["threshold" := PyBool(true)]) == Ok(true)
    ensures ValidateKwargs(map["threshold" := PyInt(5), "method" := PyStr("kde")])
         == Err(InvalidExpectationConfigurationError(MethodNotString))
  {
    var withMethod := map["threshold" := PyInt(5), "method" := PyStr("kde")];
    assert withMethod["threshold"] == PyInt(5);
    MethodNotBoolOrDictRejected(withMethod);
  }

  /** Checks run in order: a missing threshold is reported even when the
      method is bad too, and a bad threshold type before a bad method. */
  lemma EarlierAssertionWins(badMethod: PyValue)
    requires !IsBoolOrDict(badMethod)
    ensures ValidateKwargs(map["method" := badMethod])
         == Err(InvalidExpectationConfigurationError(ThresholdMissing))
    ensures ValidateKwargs(map["threshold" := PyNone, "method" := badMethod])
         == Err(InvalidExpectationConfigurationError(ThresholdNotNumber))
  {
    NonNumericThresholdRejected(map["threshold" := PyNone, "method" := badMethod]);
  }

  /** The expectation's map metric is the entropy condition metric, so its
      `.condition` request is the one the entropy resolver answers. */
  lemma MapMetricIsEntropyCondition()
    ensures MapMetric == ColumnValuesEntropy.ConditionMetricName
    ensures MapMetric + ".condition" == ColumnValuesEntropy.ConditionDependencyName
  {
  }

  // ---------------------------------------------------------------------
  // The defaults
  // ---------------------------------------------------------------------

  /** The defaults: nine kwargs with no threshold, no row condition, a
      double-sided comparison, the kde strategy, `mostly` of 1 and the
      BASIC result format; every success key has a default. */
  lemma DefaultsSelectKdeDoubleSided()
    ensures DefaultKwargValues.Keys == {"row_condition", "condition_parser", "threshold", "double_sided",
      "method", "mostly", "result_format", "include_config", "catch_exceptions"}
    ensures DefaultKwargValues["row_condition"] == PyNone && DefaultKwargValues["condition_parser"] == PyNone
    ensures DefaultKwargValues["result_format"] == PyStr("BASIC")
    ensures Truthy(DefaultKwargValues["include_config"]) && !Truthy(DefaultKwargValues["catch_exceptions"])
    ensures DefaultKwargValues["threshold"] == PyNone
    ensures Truthy(DefaultKwargValues["double_sided"])
    ensures ColumnValuesEntropy.StrategyOf(DefaultKwargValues) == ColumnValuesEntropy.Kde
    ensures AsNumber(DefaultKwargValues["mostly"]) == Some(1.0)
    ensures forall k :: 0 <= k < |SuccessKeys| ==> SuccessKeys[k] in DefaultKwargValues
  {
  }

  /** Passed as kwargs, the defaults do not validate: their threshold None
      is not a number, and the default method "kde", given with a numeric
      threshold, is not a bool or dict. */
  lemma DefaultsDoNotValidate()
    ensures ValidateKwargs(DefaultKwargValues) == Err(InvalidExpectationConfigurationError(ThresholdNotNumber))
    ensures ValidateKwargs(DefaultKwargValues["threshold" := PyInt(5)])
         == Err(InvalidExpectationConfigurationError(MethodNotString))
  {
    NonNumericThresholdRejected(DefaultKwargValues);
    MethodNotBoolOrDictRejected(DefaultKwargValues["threshold" := PyInt(5)]);
  }
}
