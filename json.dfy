/**
 * Values as the service sees them after JSON decoding, and the handful of
 * Python operations the service applies to them: truth testing, `in`,
 * subscripting and `.get`.  An operation applied to a value of the wrong
 * kind raises; the model returns the raised exception as a `Fault`.
 */
module Json {
  import opened Wrappers
  import opened Text

  /** A decoded JSON value (floating-point numbers are not modelled). */
  datatype Value =
    | Null
    | Bool(b: bool)
    | Int(i: int)
    | Str(s: string)
    | Arr(items: seq<Value>)
    | Obj(fields: map<string, Value>)

  /** The Python operation that raised. */
  datatype Op =
    | Member     // `x in v`
    | Subscript  // `v[k]`
    | GetKey     // `v.get(k, d)`
    | Regex      // `re.search` / `re.findall` on `v`

  /**
   * An exception: one raised by the upstream client library (its message is
   * the library's own), a type error raised by applying `op` to `operand`, or
   * the `KeyError` of subscripting a dict by a key it lacks.
   */
  datatype Fault =
    | Raised(text: string)
    | WrongType(op: Op, operand: Value)
    | MissingKey(key: string)

  /** Python's truth value: `None`, `False`, `0` and empty containers are false. */
  predicate Truthy(v: Value): (r: bool)
    ensures !r <==> v == Null || v == Bool(false) || v == Int(0) || v == Str("") || v == Arr([]) || v == Obj(map[])
  {
    match v
    case Null => false
    case Bool(b) => b
    case Int(i) => i != 0
    case Str(s) => |s| > 0
    case Arr(items) => |items| > 0
    case Obj(fields) => |fields| > 0
  }

  /** Python's `key in v`: a substring test on strings, a key test on dicts, an element test on lists. */
  function Contains(v: Value, key: string): (r: Result<bool, Fault>)
    ensures v.Obj? ==> r == Success(key in v.fields)
    ensures v.Str? ==> r.Success? && (r.value <==> exists i: nat :: LitAt(v.s, i, key))
    ensures v.Arr? ==> r.Success? && (r.value <==> exists k :: 0 <= k < |v.items| && v.items[k] == Str(key))
    ensures r.Failure? <==> v.Null? || v.Bool? || v.Int?
  {
    match v
    case Str(s) => Success(Occurs(key, s))
    case Obj(fields) => Success(key in fields)
    case Arr(items) => Success(Str(key) in items)
    case _ => Failure(WrongType(Member, v))
  }

  /** Python's `v[key]` with a string key: only a dict can be subscripted by a string. */
  function Lookup(v: Value, key: string): Result<Value, Fault> {
    match v
    case Obj(fields) => if key in fields then Success(fields[key]) else Failure(MissingKey(key))
    case _ => Failure(WrongType(Subscript, v))
  }

  /** `d.get(key, default)` on a dict: the default is used only when the key is absent. */
  function Get(d: map<string, Value>, key: string, default: Value): Value {
    if key in d then d[key] else default
  }

  /**
   * `d.get(key, {})` whose result is then itself `.get`-ed: an absent key gives
   * the empty dict, a dict is returned as it is, and anything else raises
   * (a value other than a dict has no `.get`).
   */
  function Section(d: map<string, Value>, key: string): Result<map<string, Value>, Fault> {
    if key !in d then Success(map[])
    else match d[key]
      case Obj(fields) => Success(fields)
      case other => Failure(WrongType(GetKey, other))
  }
}
