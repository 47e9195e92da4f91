/** The Python values that flow through the views: the payload returned by
    `Medication.fetch_external_info()` and the dictionaries the views answer
    with. Floating-point numbers are not part of this model. */
module PyValues {

  datatype PyValue =
    | PyNone
    | PyBool(b: bool)
    | PyInt(i: int)
    | PyStr(s: string)
    | PyList(items: seq<PyValue>)
    | PyDict(fields: map<string, PyValue>)

  /** Python's truth value of `v` (what `if v:` tests). */
  predicate Truthy(v: PyValue)
  {
    match v
    case PyNone => false
    case PyBool(b) => b
    case PyInt(i) => i != 0
    case PyStr(s) => |s| > 0
    case PyList(items) => |items| > 0
    case PyDict(fields) => |fields| > 0
  }

  /** `d.get(key)`: the value stored under `key`, or `None` when it is absent. */
  function DictGet(fields: map<string, PyValue>, key: string): PyValue
  {
    if key in fields then fields[key] else PyNone
  }

  /** The falsy values are exactly Python's: None, False, 0, "", [] and {}. */
  lemma FalsyValues(v: PyValue)
    ensures !Truthy(v) <==>
      v == PyNone || v == PyBool(false) || v == PyInt(0) ||
      v == PyStr("") || v == PyList([]) || v == PyDict(map[])
  {
  }
}
