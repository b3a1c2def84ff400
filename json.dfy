/**
 * The scalar values `json.loads` can place under a key of the alarm message,
 * with the two Python behaviours the handler applies to them: `str()` (inside
 * every f-string) and truthiness (the `if threshold and metric_name` test).
 */
module Json {
  import opened Wrappers
  import opened Text

  /** A decoded JSON scalar; JSON numbers are modelled as integers only. */
  datatype Value = Str(s: string) | Int(i: int) | Bool(b: bool) | Null

  /** Python's `str(v)`, which is also what an f-string inserts for `v`. */
  function ToStr(v: Value): (r: string)
    ensures v.Str? ==> r == v.s
    ensures v.Int? ==> CanonicalNumeral(r) && DecimalValue(r) == Some(v.i)
    ensures v.Bool? ==> r == (if v.b then "True" else "False")
    ensures v == Null ==> r == "None"
  {
    match v
    case Str(s) => s
    case Int(i) => IntToDecimal(i)
    case Bool(b) => if b then "True" else "False"
    case Null => "None"
  }

  /** Python truthiness: the falsy scalars are exactly "", 0, false and null. */
  predicate Truthy(v: Value)
    ensures !Truthy(v) <==> v == Str("") || v == Int(0) || v == Bool(false) || v == Null
  {
    match v
    case Str(s) => s != ""
    case Int(i) => i != 0
    case Bool(b) => b
    case Null => false
  }

  /** Python's `type(v).__name__`, as it appears in a TypeError message. */
  function TypeName(v: Value): (name: string)
    ensures v.Str? <==> name == "str"
    ensures v.Int? <==> name == "int"
    ensures v.Bool? <==> name == "bool"
    ensures v.Null? <==> name == "NoneType"
  {
    match v
    case Str(_) => "str"
    case Int(_) => "int"
    case Bool(_) => "bool"
    case Null => "NoneType"
  }

  /** Python's `d.get(key, default)` on a decoded JSON object. */
  function Get(d: map<string, Value>, key: string, default: Value): (v: Value)
    ensures key in d ==> v == d[key]
    ensures key !in d ==> v == default
  {
    if key in d then d[key] else default
  }
}
