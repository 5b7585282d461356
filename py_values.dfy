/** Python values as the entropy and uniqueness metrics inspect them: the
    values of kwargs dictionaries, of metric results and of column cells. */
module PyValues {

  datatype Option<+T> = None | Some(value: T)

  datatype Result<+T, +E> = Ok(value: T) | Err(error: E)

  /** A Python object, as far as `isinstance`, truthiness, `abs` and `<` see it.
      Floats are modelled as mathematical reals (no rounding, no NaN). */
  datatype PyValue =
    | PyNone
    | PyBool(b: bool)
    | PyInt(i: int)
    | PyFloat(r: real)
    | PyStr(s: string)
    | PyList(items: seq<PyValue>)
    | PyDict(entries: map<string, PyValue>)

  /** A keyword-argument dictionary. */
  type Kwargs = map<string, PyValue>

  /** The result of `type(v).__name__`. */
  function TypeName(v: PyValue): string
  {
    match v
    case PyNone => "NoneType"
    case PyBool(_) => "bool"
    case PyInt(_) => "int"
    case PyFloat(_) => "float"
    case PyStr(_) => "str"
    case PyList(_) => "list"
    case PyDict(_) => "dict"
  }

  /** Python truthiness, as evaluated by `if v:`. */
  predicate Truthy(v: PyValue)
  {
    match v
    case PyNone => false
    case PyBool(b) => b
    case PyInt(i) => i != 0
    case PyFloat(r) => r != 0.0
    case PyStr(s) => s != ""
    case PyList(items) => items != []
    case PyDict(entries) => entries != map[]
  }

  /** The number `abs` and `<` use for `v`, or None when they raise
      TypeError on it. `bool` is a subclass of `int` in Python. */
  function AsNumber(v: PyValue): Option<real>
  {
    match v
    case PyBool(b) => Some(if b then 1.0 else 0.0)
    case PyInt(i) => Some(i as real)
    case PyFloat(r) => Some(r)
    case _ => None
  }

  function Abs(x: real): real
  {
    if x < 0.0 then -x else x
  }
}
