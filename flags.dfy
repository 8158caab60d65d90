/** `parse_bool`: reading a boolean flag from a configuration value. */
module Flags {
  import opened PyValues

  /**
   `parse_bool` as written: `data in ('true', 'True', True)`. Python's `in`
   compares with `==`, and `True == 1`, so the integer 1 is accepted as well.
   */
  function ParseBoolAsWritten(data: PyValue): (r: bool)
    ensures r <==> data in {PyStr("true"), PyStr("True"), PyBool(true), PyInt(1)}
  {
    PyEq(data, PyStr("true")) || PyEq(data, PyStr("True")) || PyEq(data, PyBool(true))
  }

  /** The documented contract does not hold as written: 1 is not one of the three values. */
  lemma ParseBoolAsWrittenAcceptsOne()
    ensures ParseBoolAsWritten(PyInt(1))
    ensures PyInt(1) !in {PyStr("true"), PyStr("True"), PyBool(true)}
  {
  }

  /** `parse_bool` as documented: true for exactly 'true', 'True' and True. */
  function ParseBool(data: PyValue): (r: bool)
    ensures r <==> data == PyStr("true") || data == PyStr("True") || data == PyBool(true)
  {
    match data
    case PyBool(b) => b
    case PyStr(s) => s == "true" || s == "True"
    case _ => false
  }

  /** The two definitions agree on every value except the integer 1. */
  lemma ParseBoolAgreesExceptOne(data: PyValue)
    requires data != PyInt(1)
    ensures ParseBool(data) == ParseBoolAsWritten(data)
  {
  }

  /** Truthy-looking inputs other than the three accepted ones are rejected. */
  lemma ParseBoolRejectsLookalikes()
    ensures !ParseBool(PyStr("TRUE")) && !ParseBool(PyStr("1")) && !ParseBool(PyStr("yes"))
    ensures !ParseBool(PyStr("false")) && !ParseBool(PyNone) && !ParseBool(PyInt(1))
    ensures !ParseBool(PyBool(false))
  {
  }
}
