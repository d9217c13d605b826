/**
 Decoded JSON payloads as the broker's Python code sees them, and the handful
 of Python operations the core applies to them: subscripting by key and by
 position, `dict.get`, iteration, `in`, truthiness, `float()` and `==` against
 a scalar. Each operation returns the exception Python would raise instead of
 a value, so callers can follow the source's try/except structure exactly.
 */
module PyJson {

  datatype Option<+T> = None | Some(value: T)

  /** A decoded JSON value. Python's int and float both become an exact real;
      objects are maps, so their key order is not kept. */
  datatype Json =
    | JNull
    | JBool(b: bool)
    | JNum(x: real)
    | JStr(s: string)
    | JList(items: seq<Json>)
    | JObj(fields: map<string, Json>)

  /** The Python exceptions the core raises or catches. `Error` is a plain
      `Exception(...)` raised with a message; `RequestFailed` is the
      `requests` exception of a POST that got no response. */
  datatype Exc =
    | KeyError
    | TypeError
    | AttributeError
    | IndexError
    | ValueError
    | UnboundLocalError
    | RequestFailed
    | Error(message: string)

  /** A value, or the exception that interrupted its computation. */
  datatype Result<+T> = Ok(value: T) | Raised(exc: Exc)

  /** Python's `float()` applied to a string ("-187", " 7.0", "1e3", ...):
      number parsing is outside the model and is supplied by the caller. */
  type FloatParser = string -> Option<real>

  /** Python's truth value of a decoded value (`if x:`). */
  predicate Truthy(j: Json) {
    match j
    case JNull => false
    case JBool(b) => b
    case JNum(x) => x != 0.0
    case JStr(s) => s != ""
    case JList(l) => l != []
    case JObj(m) => m != map[]
  }

  /** `j[key]` with a string key. */
  function Index(j: Json, key: string): Result<Json> {
    match j
    case JObj(m) => if key in m then Ok(m[key]) else Raised(KeyError)
    case _ => Raised(TypeError)
  }

  /** `j.get(key)`: None when the key is absent; only dicts have `get`. */
  function Get(j: Json, key: string): Result<Json> {
    match j
    case JObj(m) => Ok(if key in m then m[key] else JNull)
    case _ => Raised(AttributeError)
  }

  /** `m.get(key)` on a dict known to be one. */
  function Lookup(m: map<string, Json>, key: string): Json {
    if key in m then m[key] else JNull
  }

  /** `j[i]` with an integer index, negative indices counting from the end.
      Decoded objects only have string keys, so an integer key is missing. */
  function At(j: Json, i: int): Result<Json> {
    match j
    case JList(l) =>
      if 0 <= i < |l| then Ok(l[i])
      else if -|l| <= i < 0 then Ok(l[|l| + i])
      else Raised(IndexError)
    case JStr(s) =>
      if 0 <= i < |s| then Ok(JStr([s[i]]))
      else if -|s| <= i < 0 then Ok(JStr([s[|s| + i]]))
      else Raised(IndexError)
    case JObj(_) => Raised(KeyError)
    case _ => Raised(TypeError)
  }

  /** The one-character strings of `s`, as `for c in s` yields them. */
  function Chars(s: string): (r: seq<Json>)
    ensures |r| == |s|
    ensures forall i :: 0 <= i < |s| ==> r[i] == JStr([s[i]])
  {
    if s == [] then [] else [JStr([s[0]])] + Chars(s[1..])
  }

  /** What `for x in j` walks through. A non-empty object would yield its keys
      in insertion order, which a map does not keep: that case is not modelled
      and raises TypeError here. */
  function Items(j: Json): Result<seq<Json>> {
    match j
    case JList(l) => Ok(l)
    case JStr(s) => Ok(Chars(s))
    case JObj(m) => if m == map[] then Ok([]) else Raised(TypeError)
    case _ => Raised(TypeError)
  }

  /** `needle` occurs in `hay` as a contiguous substring. */
  predicate IsSubstring(needle: string, hay: string) {
    exists i :: 0 <= i <= |hay| && needle <= hay[i..]
  }

  /** `key in j` for a string `key`: key membership for a dict, substring for
      a string, element equality for a list; TypeError otherwise. */
  function Contains(j: Json, key: string): Result<bool> {
    match j
    case JObj(m) => Ok(key in m)
    case JStr(s) => Ok(IsSubstring(key, s))
    case JList(l) => Ok(JStr(key) in l)
    case _ => Raised(TypeError)
  }

  /** Python's `float(j)`. */
  function PyFloat(j: Json, parse: FloatParser): Result<real> {
    match j
    case JNum(x) => Ok(x)
    case JBool(b) => Ok(if b then 1.0 else 0.0)
    case JStr(s) => if parse(s).Some? then Ok(parse(s).value) else Raised(ValueError)
    case _ => Raised(TypeError)
  }

  /** Python's `j == x` for a float `x` (a bool compares as 0 or 1). */
  predicate NumEq(j: Json, x: real) {
    match j
    case JNum(y) => y == x
    case JBool(b) => (if b then 1.0 else 0.0) == x
    case _ => false
  }

  /** A dict that the source updates in place. */
  class Dict {
    var items: map<string, Json>

    constructor (items: map<string, Json>)
      ensures this.items == items
    {
      this.items := items;
    }
  }
}
