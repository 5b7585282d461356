/** The metric `column_values.unique`: four backend formulas of the per-row
    condition "this row's value occurs exactly once in the column", and the
    dependency rewrite that the mssql dialect needs. Columns hold non-null
    values. */
module ColumnValuesUnique {
  import opened PyValues
  import opened MetricConfigurations

  // ---------------------------------------------------------------------
  // Reference meaning
  // ---------------------------------------------------------------------

  /** No other row of the column holds the value of row i. */
  ghost predicate IsUniqueAt<T>(column: seq<T>, i: int)
    requires 0 <= i < |column|
  {
    forall j :: 0 <= j < |column| && j != i ==> column[j] != column[i]
  }

  /** The number of rows holding x: `count(lit(1))` over the partition of
      x, which is also the GROUP BY count of x. */
  function PartitionCount<T(==)>(column: seq<T>, x: T): (n: nat)
    ensures n <= |column|
  {
    if column == [] then 0
    else
      assert column == [column[0]] + column[1..];
      (if column[0] == x then 1 else 0) + PartitionCount(column[1..], x)
  }

  // ---------------------------------------------------------------------
  // Counting lemmas
  // ---------------------------------------------------------------------

  lemma {:induction false} PartitionCountAppend<T>(a: seq<T>, b: seq<T>, x: T)
    ensures PartitionCount(a + b, x) == PartitionCount(a, x) + PartitionCount(b, x)
  {
    if a == [] {
      assert a + b == b;
    } else {
      assert (a + b)[1..] == a[1..] + b;
      PartitionCountAppend(a[1..], b, x);
    }
  }

  /** A value has an empty partition exactly when the column lacks it. */
  lemma {:induction false} PartitionCountZeroIffAbsent<T>(column: seq<T>, x: T)
    ensures PartitionCount(column, x) == 0 <==> x !in column
  {
    if column != [] {
      PartitionCountZeroIffAbsent(column[1..], x);
      assert column == [column[0]] + column[1..];
    }
  }

  /** Counting a partition and counting in a GROUP BY agree. */
  lemma {:induction false} PartitionCountIsMultiplicity<T>(a: seq<T>, x: T)
    ensures PartitionCount(a, x) == multiset(a)[x]
  {
    if a != [] {
      PartitionCountIsMultiplicity(a[1..], x);
      assert a == [a[0]] + a[1..];
      assert multiset(a) == multiset{a[0]} + multiset(a[1..]);
    }
  }

  /** Row i is unique iff its value is found neither before nor after it. */
  lemma UniqueIffAbsentAround<T>(column: seq<T>, i: int)
    requires 0 <= i < |column|
    ensures IsUniqueAt(column, i) <==> column[i] !in column[..i] && column[i] !in column[i + 1..]
  {
    var x := column[i];
    var before, after := column[..i], column[i + 1..];
    if IsUniqueAt(column, i) {
      forall k | 0 <= k < |before| ensures before[k] != x {
        assert before[k] == column[k];
      }
      forall k | 0 <= k < |after| ensures after[k] != x {
        assert after[k] == column[i + 1 + k];
      }
    }
    if x !in before && x !in after {
      forall j | 0 <= j < |column| && j != i ensures column[j] != x {
        if j < i {
          assert column[j] == before[j];
        } else {
          assert column[j] == after[j - i - 1];
        }
      }
    }
  }

  /** Counting x around one occurrence of x. */
  lemma PartitionCountSplit<T>(before: seq<T>, x: T, after: seq<T>)
    ensures PartitionCount(before + [x] + after, x) == PartitionCount(before, x) + 1 + PartitionCount(after, x)
  {
    PartitionCountAppend(before + [x], after, x);
    PartitionCountAppend(before, [x], x);
    assert PartitionCount([x], x) == 1 by {
      assert [x][1..] == [];
    }
  }

  /** The rows holding the value of row i: row i itself and those before
      and after it. */
  lemma PartitionCountAround<T>(column: seq<T>, i: int)
    requires 0 <= i < |column|
    ensures PartitionCount(column, column[i])
         == 1 + PartitionCount(column[..i], column[i]) + PartitionCount(column[i + 1..], column[i])
  {
    assert column[i..] == [column[i]] + column[i + 1..];
    assert column == column[..i] + column[i..];
    assert column == column[..i] + [column[i]] + column[i + 1..];
    PartitionCountSplit(column[..i], column[i], column[i + 1..]);
  }

  /** Row i is unique iff exactly one row holds its value; at least row i
      itself always does. */
  lemma UniqueAtSplit<T>(column: seq<T>, i: int)
    requires 0 <= i < |column|
    ensures IsUniqueAt(column, i) <==> PartitionCount(column, column[i]) == 1
    ensures PartitionCount(column, column[i]) >= 1
  {
    UniqueIffAbsentAround(column, i);
    PartitionCountAround(column, i);
    PartitionCountZeroIffAbsent(column[..i], column[i]);
    PartitionCountZeroIffAbsent(column[i + 1..], column[i]);
  }

  /** UniqueAtSplit for every row of the column. */
  lemma UniquenessFacts<T>(column: seq<T>)
    ensures forall i :: 0 <= i < |column| ==>
      (IsUniqueAt(column, i) <==> column[i] !in column[..i] && column[i] !in column[i + 1..])
    ensures forall i :: 0 <= i < |column| ==>
      (IsUniqueAt(column, i) <==> PartitionCount(column, column[i]) <= 1)
  {
    forall i | 0 <= i < |column|
      ensures IsUniqueAt(column, i) <==> column[i] !in column[..i] && column[i] !in column[i + 1..]
      ensures IsUniqueAt(column, i) <==> PartitionCount(column, column[i]) <= 1
    {
      UniqueIffAbsentAround(column, i);
      UniqueAtSplit(column, i);
    }
  }

  // ---------------------------------------------------------------------
  // The four condition partials, each proved against IsUniqueAt
  // ---------------------------------------------------------------------

  /** pandas `Series.duplicated(keep=False)`: a row is flagged when its value
      also occurs before it (keep="first") or after it (keep="last"). */
  function DuplicatedKeepFalse<T(==)>(column: seq<T>): (r: seq<bool>)
    ensures |r| == |column|
    ensures forall i :: 0 <= i < |column| ==> (r[i] <==> !IsUniqueAt(column, i))
  {
    UniquenessFacts(column);
    seq(|column|, i requires 0 <= i < |column| => column[i] in column[..i] || column[i] in column[i + 1..])
  }

  /** `_pandas`: `~column.duplicated(keep=False)`. */
  function PandasCondition<T(==)>(column: seq<T>): (r: seq<bool>)
    ensures |r| == |column|
    ensures forall i :: 0 <= i < |column| ==> (r[i] <==> IsUniqueAt(column, i))
  {
    var duplicated := DuplicatedKeepFalse(column);
    seq(|column|, i requires 0 <= i < |column| => !duplicated[i])
  }

  /** The sub-query `SELECT column FROM table GROUP BY column
      HAVING count(column) > 1`. */
  function DuplicateValues<T(==)>(column: seq<T>): (r: set<T>)
    ensures forall x :: x in r ==> x in column
    ensures forall i :: 0 <= i < |column| ==> (column[i] in r <==> !IsUniqueAt(column, i))
  {
    UniquenessFacts(column);
    assert forall i :: 0 <= i < |column| ==> PartitionCount(column, column[i]) == multiset(column)[column[i]] by {
      forall i | 0 <= i < |column| ensures PartitionCount(column, column[i]) == multiset(column)[column[i]] {
        PartitionCountIsMultiplicity(column, column[i]);
      }
    }
    set x | x in column && multiset(column)[x] > 1
  }

  /** `_sqlalchemy`: `column NOT IN (duplicate values)`. */
  function SqlCondition<T(==)>(column: seq<T>): (r: seq<bool>)
    ensures |r| == |column|
    ensures forall i :: 0 <= i < |column| ==> (r[i] <==> IsUniqueAt(column, i))
  {
    var duplicates := DuplicateValues(column);
    seq(|column|, i requires 0 <= i < |column| => column[i] !in duplicates)
  }

  /** `_sqlalchemy_window`, registered for mssql as a window condition: the
      same `NOT IN` query over the same sub-query. */
  function SqlWindowCondition<T(==)>(column: seq<T>): (r: seq<bool>)
    ensures |r| == |column|
    ensures forall i :: 0 <= i < |column| ==> (r[i] <==> IsUniqueAt(column, i))
  {
    var windowDuplicates := DuplicateValues(column);
    seq(|column|, i requires 0 <= i < |column| => !(column[i] in windowDuplicates))
  }

  /** `_spark`: `count(lit(1)) over (partition by column) <= 1`. */
  function SparkCondition<T(==)>(column: seq<T>): (r: seq<bool>)
    ensures |r| == |column|
    ensures forall i :: 0 <= i < |column| ==> (r[i] <==> IsUniqueAt(column, i))
  {
    UniquenessFacts(column);
    seq(|column|, i requires 0 <= i < |column| => PartitionCount(column, column[i]) <= 1)
  }

  /** All four backends return the same boolean series on every column. */
  lemma BackendsAgree<T>(column: seq<T>)
    ensures SqlCondition(column) == PandasCondition(column)
    ensures SqlWindowCondition(column) == SqlCondition(column)
    ensures SparkCondition(column) == PandasCondition(column)
  {
  }

  /** The column [1, 2, 2, 3] gives [true, false, false, true] on every backend. */
  lemma UniqueExample(column: seq<int>)
    requires column == [1, 2, 2, 3]
    ensures PandasCondition(column) == [true, false, false, true]
    ensures SqlCondition(column) == [true, false, false, true]
    ensures SparkCondition(column) == [true, false, false, true]
  {
    var r := PandasCondition(column);
    assert r[0] by { assert IsUniqueAt(column, 0); }
    assert !r[1] by { assert column[2] == column[1]; }
    assert !r[2] by { assert column[1] == column[2]; }
    assert r[3] by { assert IsUniqueAt(column, 3); }
    assert r == [true, false, false, true];
    BackendsAgree(column);
  }

  // ---------------------------------------------------------------------
  // The dependency rewrite (`_get_evaluation_dependencies`)
  // ---------------------------------------------------------------------

  const UnexpectedCountSuffix := ".unexpected_count"
  const ConditionSuffix := ".condition"
  const PartialFnKey := "metric_partial_fn"
  const UnexpectedConditionKey := "unexpected_condition"

  predicate EndsWith(s: string, suffix: string)
  {
    |suffix| <= |s| && s[|s| - |suffix|..] == suffix
  }

  /** `s[: -len(suffix)]` for an `s` that ends with `suffix`. */
  function StripSuffix(s: string, suffix: string): (prefix: string)
    requires EndsWith(s, suffix)
    ensures prefix + suffix == s
  {
    var prefix := s[..|s| - |suffix|];
    assert s == prefix + s[|s| - |suffix|..];
    prefix
  }

  datatype DependencyError = KeyError(key: string)

  /** The dependencies of a `column_values.unique` request. `base` is what
      the base resolver returned and `dialect` the execution engine's
      dialect name. For an `.unexpected_count` request on mssql the
      aggregate partial is popped and replaced by the window condition it
      wraps, with the same domain and the popped entry's value kwargs. */
  method EvaluationDependencies(metric: MetricConfiguration, dialect: string, base: Dependencies)
    returns (r: Result<Dependencies, DependencyError>)
    ensures !(EndsWith(metric.metricName, UnexpectedCountSuffix) && dialect == "mssql") ==> r == Ok(base)
    ensures EndsWith(metric.metricName, UnexpectedCountSuffix) && dialect == "mssql" && PartialFnKey !in base ==>
      r == Err(KeyError(PartialFnKey))
    ensures EndsWith(metric.metricName, UnexpectedCountSuffix) && dialect == "mssql" && PartialFnKey in base ==>
      && r.Ok?
      && r.value.Keys == base.Keys - {PartialFnKey} + {UnexpectedConditionKey}
      && r.value[UnexpectedConditionKey]
         == MetricConfiguration(StripSuffix(metric.metricName, UnexpectedCountSuffix) + ConditionSuffix,
                                metric.domainKwargs, base[PartialFnKey].valueKwargs)
      && forall k :: k in base && k != PartialFnKey && k != UnexpectedConditionKey ==> r.value[k] == base[k]
  {
    var dependencies := base;
    var metricName := metric.metricName;
    if EndsWith(metricName, UnexpectedCountSuffix) && dialect == "mssql" {
      if PartialFnKey !in dependencies {
        return Err(KeyError(PartialFnKey));
      }
      var configuration := dependencies[PartialFnKey];
      dependencies := dependencies - {PartialFnKey};
      dependencies := dependencies[UnexpectedConditionKey := MetricConfiguration(
        metricName[..|metricName| - |UnexpectedCountSuffix|] + ConditionSuffix,
        metric.domainKwargs,
        configuration.valueKwargs)];
    }
    return Ok(dependencies);
  }

  /** The rewritten condition name is the request's name with its final
      `.unexpected_count` replaced by `.condition`. */
  lemma RewrittenNameRoundTrip(name: string)
    requires EndsWith(name, UnexpectedCountSuffix)
    ensures EndsWith(StripSuffix(name, UnexpectedCountSuffix) + ConditionSuffix, ConditionSuffix)
    ensures StripSuffix(StripSuffix(name, UnexpectedCountSuffix) + ConditionSuffix, ConditionSuffix)
         == StripSuffix(name, UnexpectedCountSuffix)
  {
    var prefix := StripSuffix(name, UnexpectedCountSuffix);
    var renamed := prefix + ConditionSuffix;
    assert renamed[|renamed| - |ConditionSuffix|..] == ConditionSuffix;
    assert renamed[..|renamed| - |ConditionSuffix|] == prefix;
  }
}
