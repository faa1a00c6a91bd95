/**
  The dynamically typed Python values that cross the core's interfaces:
  parameter defaults and parsed parameter values, report keys, and compmake's
  promises. `str()` and `repr()` are modelled for the shapes the core formats.
*/
module PyValues {
  import opened PyStr

  /** A compmake promise: a handle on a job, known by its job id. */
  datatype Promise = Promise(jobId: string)

  /** A Python value. A float is kept as the literal it was written or parsed
      from. `PyChoice` is the `Choice` list built from a comma-separated
      parameter value. */
  datatype PyValue =
    | PyNone
    | PyBool(b: bool)
    | PyInt(i: int)
    | PyFloat(literal: string)
    | PyStr(s: string)
    | PyList(items: seq<PyValue>)
    | PyChoice(options: seq<PyValue>)

  /** `sys.maxint` of a 64-bit CPython 2. An integer outside
      `-MaxInt - 1 .. MaxInt` is a `long`, a type of its own that is not a
      subclass of `int`. */
  const MaxInt: int := 0x7FFF_FFFF_FFFF_FFFF

  /** The integer fits a machine `int` rather than needing a `long`. */
  predicate IsShortInt(i: int) {
    -MaxInt - 1 <= i <= MaxInt
  }

  /** `type(v).__name__` */
  function TypeName(v: PyValue): string {
    match v
    case PyNone => "NoneType"
    case PyBool(_) => "bool"
    case PyInt(i) => if IsShortInt(i) then "int" else "long"
    case PyFloat(_) => "float"
    case PyStr(_) => "str"
    case PyList(_) => "list"
    case PyChoice(_) => "Choice"
  }

  /** `str(v)` of a value that holds no other value. */
  function ScalarStr(v: PyValue): string
    requires !v.PyList? && !v.PyChoice?
  {
    match v
    case PyNone => "None"
    case PyBool(b) => if b then "True" else "False"
    case PyInt(i) => IntToString(i)
    case PyFloat(lit) => lit
    case PyStr(s) => s
  }

  /** `repr(v)`; a string is shown in single quotes (escapes are not modelled)
      and a `long` carries an `L` suffix. */
  function Repr(v: PyValue): string
    decreases v
  {
    match v
    case PyStr(s) => "'" + s + "'"
    case PyInt(i) => if IsShortInt(i) then IntToString(i) else IntToString(i) + "L"
    case PyList(items) => "[" + Join(", ", seq(|items|, k requires 0 <= k < |items| => Repr(items[k]))) + "]"
    case PyChoice(items) => "[" + Join(", ", seq(|items|, k requires 0 <= k < |items| => Repr(items[k]))) + "]"
    case _ => ScalarStr(v)
  }

  /** `str(v)`: a list shows the `repr` of its elements. */
  function Str(v: PyValue): string {
    if v.PyList? || v.PyChoice? then Repr(v) else ScalarStr(v)
  }

  /** Python's `==` on these values: `True == 1` and `False == 0`; lists and
      choices compare element by element. */
  predicate PyEq(a: PyValue, b: PyValue)
    decreases a
  {
    match (a, b)
    case (PyBool(x), PyInt(j)) => (if x then 1 else 0) == j
    case (PyInt(i), PyBool(y)) => i == (if y then 1 else 0)
    case (PyList(xs), PyList(ys)) =>
      |xs| == |ys| && forall k :: 0 <= k < |xs| ==> PyEq(xs[k], ys[k])
    case (PyChoice(xs), PyChoice(ys)) =>
      |xs| == |ys| && forall k :: 0 <= k < |xs| ==> PyEq(xs[k], ys[k])
    case _ => a == b
  }

  /** `x in xs` for a list: some element is `==` to `x`. */
  predicate PyIn(x: PyValue, xs: seq<PyValue>) {
    exists k :: 0 <= k < |xs| && PyEq(x, xs[k])
  }
}
