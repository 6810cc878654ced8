/** The Python values a route handler can hand back to the pipeline, the wire
    response the pipeline produces, and the few library helpers (`str.startswith`)
    whose meaning the request pipeline depends on. */
module Values {

  newtype byte = x: int | 0 <= x < 256

  datatype Option<+T> = None | Some(value: T)

  /** An exception that escapes a stage of the pipeline, known by its class name.
      The pipeline raises none of its own: every exception comes from a handler
      or a collaborator and passes through unchanged. */
  datatype Exception = Exception(name: string)

  /** A Python call either returns a value or raises. */
  datatype Result<+T> = Ok(value: T) | Err(error: Exception)

  /** What the transport writes back: status, content type (None: the library's
      default for that kind of response), body bytes and, for a redirect, the
      Location header. */
  datatype WireResponse = WireResponse(
    status: int,
    contentType: Option<string>,
    body: seq<byte>,
    location: Option<string>)

  /** A Python value as a handler may return it. `Bool` is kept apart from `Int`
      because `bool` is a subclass of `int` in Python: `isinstance(True, int)`
      holds and `True` behaves as 1. `Response` is an already built aiohttp
      `StreamResponse`; `Object` stands for every other object (floats, sets,
      model instances, ...), known here only by its class name. */
  datatype Value =
    | PyNone
    | Bool(b: bool)
    | Int(i: int)
    | Str(s: string)
    | Bytes(bytes: seq<byte>)
    | Tuple(items: seq<Value>)
    | List(elems: seq<Value>)
    | Dict(entries: map<string, Value>)
    | Response(resp: WireResponse)
    | Object(className: string)

  /** The integer a value denotes when `isinstance(v, int)` holds. */
  function IntOf(v: Value): Option<int>
  {
    match v
    case Int(i) => Some(i)
    case Bool(b) => Some(if b then 1 else 0)
    case _ => None
  }

  /** `dict.get(key)`: the value under `key`, or None when the key is absent. */
  function Get(m: map<string, Value>, key: string): Value
  {
    if key in m then m[key] else PyNone
  }

  /** Python's `s.startswith(prefix)`, compared character by character. */
  function StartsWith(s: string, prefix: string): (b: bool)
    ensures b <==> |prefix| <= |s| && s[..|prefix|] == prefix
  {
    if prefix == [] then true
    else if s == [] then false
    else
      var rest := StartsWith(s[1..], prefix[1..]);
      assert |prefix| <= |s| ==> s[..|prefix|] == [s[0]] + s[1..][..|prefix| - 1];
      s[0] == prefix[0] && rest
  }

  /** A string extended by anything still starts with it. */
  lemma {:induction false} StartsWithConcat(prefix: string, rest: string)
    ensures StartsWith(prefix + rest, prefix)
    ensures (prefix + rest)[|prefix|..] == rest
  {
    assert (prefix + rest)[..|prefix|] == prefix;
  }
}
