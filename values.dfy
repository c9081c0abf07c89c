/**
 * The JSON values a trip-details patch can carry, with Python's truthiness
 * and `str()` rendering of them.
 */
module Values {
  import opened Text

  /** A decoded JSON scalar: a Python `str`, `int`, `bool` or `None`. */
  datatype Value = Str(s: string) | Int(i: int) | Bool(b: bool) | Null

  /** Python truthiness: `not v` is false exactly for these values. */
  predicate Truthy(v: Value): (r: bool)
    ensures !r <==> v in {Str(""), Int(0), Bool(false), Null}
  {
    match v
    case Str(s) => s != ""
    case Int(i) => i != 0
    case Bool(b) => b
    case Null => false
  }

  /** `str(v)`, which is also what an f-string placeholder `{v}` renders. */
  function PyStr(v: Value): string
  {
    match v
    case Str(s) => s
    case Int(i) => IntToString(i)
    case Bool(b) => if b then "True" else "False"
    case Null => "None"
  }
}
