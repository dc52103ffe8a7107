/** Field values, the mapping an assigner receives, and the result it returns.

    An assigner is called with a mapping from dependent field names to the
    fields' current values and answers with an `AssignerResult`: either a
    success carrying a mapping of assigned fields, or a failure carrying an
    error message and no fields.
 */
module Values {
  import opened Text

  /** A field value as the handlers see it: Python's None, an integer or a string. */
  datatype Value = Null | Int(i: int) | Str(s: string)

  /** `AssignerResult(assigned_fields=...)` or `AssignerResult(success=False, error_message=...)`;
      `K` is the type of field names. */
  datatype AssignerResult<K> = Success(outputs: map<K, Value>) | Failure(message: string)

  /** Python truthiness for the values above: None, 0 and "" are false. */
  predicate Falsy(v: Value) {
    v.Null? || v == Int(0) || v == Str("")
  }

  /** `int(dependent_fields[key])` is only modelled for a value that already is an integer. */
  predicate HasInt<K>(deps: map<K, Value>, key: K) {
    key in deps && deps[key].Int?
  }

  function IntAt<K>(deps: map<K, Value>, key: K): int
    requires HasInt(deps, key)
  {
    deps[key].i
  }

  /** `str(v)`: a string is itself, an integer its decimal form, None is "None". */
  function AsText(v: Value): string {
    match v
    case Null => "None"
    case Int(n) => IntToDecimal(n)
    case Str(s) => s
  }

  /** `str(dependent_fields[key])`. */
  function TextAt<K>(deps: map<K, Value>, key: K): string
    requires key in deps
  {
    AsText(deps[key])
  }

  /** `int(dependent_fields.get(key) or 0)` is defined: the key is missing, its value
      is falsy, or it is an integer. */
  predicate DelayReadable<K>(deps: map<K, Value>, key: K) {
    key !in deps || Falsy(deps[key]) || deps[key].Int?
  }

  /** The delay field read with `.get(key) or 0`: missing or falsy counts as 0. */
  function DelayAt<K>(deps: map<K, Value>, key: K): (n: int)
    requires DelayReadable(deps, key)
    ensures key !in deps || Falsy(deps[key]) ==> n == 0
    ensures key in deps && deps[key].Int? ==> n == deps[key].i
  {
    if key in deps && deps[key].Int? then deps[key].i else 0
  }

  /** `mapping.get(key)`: the value, or None when the key is missing. */
  function Get<K>(deps: map<K, Value>, key: K): Value
  {
    if key in deps then deps[key] else Null
  }
}
