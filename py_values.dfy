/**
 The few Python values that reach the helpers as flags or as the `owner` and
 `mode` keyword arguments: None, booleans, integers and strings, with Python's
 truth-value test and Python's `==` between them.
 */
module PyValues {

  datatype PyValue = PyNone | PyBool(b: bool) | PyInt(i: int) | PyStr(s: string)

  /** Python's truth-value test (`if v:`): None, False, 0 and "" are false. */
  predicate Truthy(v: PyValue) {
    match v
    case PyNone => false
    case PyBool(b) => b
    case PyInt(i) => i != 0
    case PyStr(s) => s != ""
  }

  /** The integer a bool or an int stands for: `bool` is a subclass of `int`. */
  function NumericValue(v: PyValue): int
    requires v.PyBool? || v.PyInt?
  {
    match v
    case PyBool(b) => if b then 1 else 0
    case PyInt(i) => i
  }

  /** Python's `==`: strings compare by content, bools and ints by number, None only with None. */
  predicate PyEq(x: PyValue, y: PyValue) {
    if x.PyStr? || y.PyStr? then x.PyStr? && y.PyStr? && x.s == y.s
    else if x.PyNone? || y.PyNone? then x.PyNone? && y.PyNone?
    else NumericValue(x) == NumericValue(y)
  }
}
