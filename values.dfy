/** PHP values as the SDK sees them: decoded JSON bodies, request payloads and
    the `??` / truthiness operators the code applies to them. */
module Values {

  datatype Option<+T> = None | Some(value: T) {
    /** `$x ?? default` once `$x` has been read as present-or-absent */
    function GetOr(default: T): T {
      match this
      case Some(v) => v
      case None => default
    }
  }

  /** A PHP value as produced by `json_decode(..., true)` or written as a literal.
      A PHP array is either a list (`List`) or an array with string keys (`Dict`). */
  datatype Value =
    | Null
    | Bool(b: bool)
    | Int(i: int)
    | Str(s: string)
    | List(items: seq<Value>)
    | Dict(entries: map<string, Value>)

  /** A PHP array with string keys: a decoded response body or a request payload. */
  type Body = map<string, Value>
  type Payload = map<string, Value>

  /** PHP's boolean conversion: null, false, 0, "", "0" and the empty array are falsy. */
  predicate Truthy(v: Value) {
    match v
    case Null => false
    case Bool(b) => b
    case Int(i) => i != 0
    case Str(s) => s != "" && s != "0"
    case List(xs) => |xs| > 0
    case Dict(m) => |m| > 0
  }

  /** `isset($m[$key])`: the key is present and its value is not null. */
  predicate IsSet(m: map<string, Value>, key: string) {
    key in m && !m[key].Null?
  }

  /** `$m[$key] ?? $default` */
  function Coalesce(m: map<string, Value>, key: string, default: Value): (v: Value)
    ensures IsSet(m, key) ==> v == m[key]
    ensures !IsSet(m, key) ==> v == default
  {
    if key in m && !m[key].Null? then m[key] else default
  }

  /** `$b ? 1 : 0`, the encoding every boolean toggle of the CDN module uses. */
  function Flag(b: bool): (v: Value)
    ensures v == Int(1) || v == Int(0)
    ensures v == Int(1) <==> b
  {
    if b then Int(1) else Int(0)
  }
}
