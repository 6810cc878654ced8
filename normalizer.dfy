/** The `response` stage: turns whatever a handler returned into one wire
    response, and the chain `logger(response(handler))` that the application
    mounts. */
module Normalizer {
  import opened Values
  import Middleware

  /** The capabilities the normaliser borrows and does not define: `json.dumps`
      (with `ensure_ascii=False` and `__dict__` as the fallback encoder), the
      template environment's `get_template(name).render(**context)`, Python's
      `str()` and UTF-8 encoding. The first two may raise. */
  datatype Foreign = Foreign(
    jsonDump: Value -> Result<string>,
    render: (Value, map<string, Value>) -> Result<string>,
    repr: Value -> string,
    utf8: string -> seq<byte>)

  const OctetStream := "application/octet-stream"
  const HtmlUtf8 := "text/html;charset=utf-8"
  const JsonUtf8 := "application/json;charset=utf-8"
  const PlainUtf8 := "text/plain;charset=utf-8"

  const RedirectPrefix := "redirect:"
  const TemplateKey := "__template__"
  const Ok200 := 200
  const Found302 := 302

  /** The status an integer-like value stands for, when it is in [100, 600). */
  function StatusOf(v: Value): Option<int>
  {
    match IntOf(v)
    case Some(i) => if 100 <= i && i < 600 then Some(i) else None
    case None => None
  }

  /** `web.Response(body=payload)` with a content type set afterwards. */
  function Body(contentType: string, payload: seq<byte>): WireResponse
  {
    WireResponse(Ok200, Some(contentType), payload, None)
  }

  /** `web.HTTPFound(location)`; its body is left to the library. */
  function Found(location: string): WireResponse
  {
    WireResponse(Found302, None, [], Some(location))
  }

  /** The last resort: `str(r)` as plain text. */
  function PlainText(env: Foreign, r: Value): WireResponse
  {
    Body(PlainUtf8, env.utf8(env.repr(r)))
  }

  /** The shape dispatch of the `response` stage, first match wins. */
  function Normalize(env: Foreign, r: Value): (res: Result<WireResponse>)
    ensures res.Err? ==> r.Dict?
    ensures r.Response? ==> res == Ok(r.resp)
  {
    if r.Response? then Ok(r.resp)
    else if r.Bytes? then Ok(Body(OctetStream, r.bytes))
    else if r.Str? then
      if StartsWith(r.s, RedirectPrefix) then Ok(Found(r.s[9..]))
      else Ok(Body(HtmlUtf8, env.utf8(r.s)))
    else if r.Dict? then
      var template := Get(r.entries, TemplateKey);
      if template.PyNone? then
        match env.jsonDump(r)
        case Ok(text) => Ok(Body(JsonUtf8, env.utf8(text)))
        case Err(e) => Err(e)
      else
        match env.render(template, r.entries)
        case Ok(text) => Ok(Body(HtmlUtf8, env.utf8(text)))
        case Err(e) => Err(e)
    else if StatusOf(r).Some? then Ok(WireResponse(StatusOf(r).value, None, [], None))
    else if r.Tuple? && |r.items| == 2 && StatusOf(r.items[0]).Some? then
      Ok(WireResponse(StatusOf(r.items[0]).value, None, env.utf8(env.repr(r.items[1])), None))
    else Ok(PlainText(env, r))
  }

  /** A finished response passes through untouched, so normalising the outcome
      of a normalisation again changes nothing. */
  lemma NormalizeIdempotent(env: Foreign, w: WireResponse)
    ensures Normalize(env, Response(w)) == Ok(w)
  {
  }

  /** Raw bytes become the body verbatim, typed as an octet stream. */
  lemma BytesAreBody(env: Foreign, b: seq<byte>)
    ensures Normalize(env, Bytes(b)).Ok?
    ensures Normalize(env, Bytes(b)).value.body == b
    ensures Normalize(env, Bytes(b)).value.contentType == Some(OctetStream)
    ensures Normalize(env, Bytes(b)).value.status == Ok200
  {
  }

  /** A string redirects exactly when it starts with `redirect:`; the target is
      the rest of the string after those 9 characters. Any other string is
      served as UTF-8 HTML. */
  lemma StringRedirectsIff(env: Foreign, s: string)
    ensures Normalize(env, Str(s)).Ok?
    ensures Normalize(env, Str(s)).value.location.Some? <==> StartsWith(s, RedirectPrefix)
    ensures StartsWith(s, RedirectPrefix) ==>
      Normalize(env, Str(s)).value.status == Found302 && RedirectPrefix + Normalize(env, Str(s)).value.location.value == s
    ensures !StartsWith(s, RedirectPrefix) ==>
      Normalize(env, Str(s)).value == Body(HtmlUtf8, env.utf8(s))
  {
    if StartsWith(s, RedirectPrefix) {
      assert s == s[..9] + s[9..];
    }
  }

  /** `redirect:` followed by any location redirects to exactly that location. */
  lemma RedirectRoundTrip(env: Foreign, location: string)
    ensures Normalize(env, Str(RedirectPrefix + location)) == Ok(Found(location))
  {
    StartsWithConcat(RedirectPrefix, location);
  }

  /** A dict without a usable `__template__` entry (absent or None) is served as
      JSON; otherwise the template it names is rendered with the WHOLE dict as
      context, the `__template__` entry included. Either collaborator's
      exception is what the stage raises. */
  lemma DocumentDispatch(env: Foreign, d: map<string, Value>)
    ensures TemplateKey !in d || d[TemplateKey].PyNone? ==>
      Normalize(env, Dict(d)) == (match env.jsonDump(Dict(d))
                                  case Ok(text) => Ok(WireResponse(Ok200, Some(JsonUtf8), env.utf8(text), None))
                                  case Err(e) => Err(e))
    ensures TemplateKey in d && !d[TemplateKey].PyNone? ==>
      Normalize(env, Dict(d)) == (match env.render(d[TemplateKey], d)
                                  case Ok(text) => Ok(WireResponse(Ok200, Some(HtmlUtf8), env.utf8(text), None))
                                  case Err(e) => Err(e))
  {
  }

  /** An int is taken as a bare status exactly when it lies in [100, 600);
      any other int is printed as plain text instead. */
  lemma StatusIntIff(env: Foreign, c: int)
    ensures Normalize(env, Int(c)) == Ok(WireResponse(c, None, [], None)) <==> 100 <= c < 600
    ensures !(100 <= c < 600) ==> Normalize(env, Int(c)) == Ok(PlainText(env, Int(c)))
  {
  }

  /** A tuple becomes (status, str(message)) exactly when it is a pair whose
      first element is an int in [100, 600); every other tuple is printed as
      plain text. */
  lemma StatusPairIff(env: Foreign, items: seq<Value>)
    ensures (|items| == 2 && StatusOf(items[0]).Some?) ==>
      Normalize(env, Tuple(items)) == Ok(WireResponse(IntOf(items[0]).value, None, env.utf8(env.repr(items[1])), None))
    ensures !(|items| == 2 && StatusOf(items[0]).Some?) ==>
      Normalize(env, Tuple(items)) == Ok(PlainText(env, Tuple(items)))
  {
  }

  /** Every handler value yields exactly one wire response; the only way to
      get none is a dict whose JSON encoding or template rendering raised. */
  lemma NormalizeTotal(env: Foreign, r: Value)
    ensures Normalize(env, r).Err? <==> CollaboratorRaises(env, r)
  {
  }

  /** The value is a dict and the collaborator it is handed to (JSON encoder
      or template renderer) raises on it. */
  predicate CollaboratorRaises(env: Foreign, r: Value)
  {
    r.Dict? &&
    (if Get(r.entries, TemplateKey).PyNone? then env.jsonDump(r).Err?
     else env.render(Get(r.entries, TemplateKey), r.entries).Err?)
  }

  /** The `response` stage: runs the handler, then normalises what it returned;
      an exception from the handler passes through. */
  function ResponseStage(env: Foreign, handler: Middleware.RequestState -> Result<Value>, st: Middleware.RequestState)
    : (res: Result<WireResponse>)
    ensures res.Err? <==> handler(st).Err? || CollaboratorRaises(env, handler(st).value)
    ensures handler(st).Err? ==> res.error == handler(st).error
    ensures handler(st).Ok? && handler(st).value.Response? ==> res == Ok(handler(st).value.resp)
  {
    match handler(st)
    case Ok(v) => Normalize(env, v)
    case Err(e) => Err(e)
  }

  /** The mounted chain: `logger` outermost, then `response`, then the route's
      handler. A request's answer is the normalised value of its handler. */
  method Mounted(env: Foreign, req: Middleware.Request, handler: Middleware.RequestState -> Result<Value>)
    returns (res: Result<WireResponse>)
    ensures handler(req.State()).Ok? ==> res == Normalize(env, handler(req.State()).value)
    ensures handler(req.State()).Err? ==> res == Err(handler(req.State()).error)
  {
    res := Middleware.Logger(req, st => ResponseStage(env, handler, st));
  }
}
