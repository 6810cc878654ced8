/** The request object as the middleware stages see it, and the two stages that
    act on the request before delegating: `logger` and `parse_data`. */
module Middleware {
  import opened Values

  /** A snapshot of everything a handler can read from a request. `data` is the
      `__data__` slot that `parse_data` fills in. */
  datatype RequestState = RequestState(
    httpMethod: string,
    path: string,
    contentType: string,
    body: seq<byte>,
    data: Option<Value>)

  /** An inbound request. Only the `__data__` slot is written by the pipeline;
      the rest is fixed by the transport when the request is built. */
  class Request {
    const httpMethod: string
    const path: string
    const contentType: string
    const body: seq<byte>
    var data: Option<Value>

    constructor (httpMethod: string, path: string, contentType: string, body: seq<byte>)
      ensures State() == RequestState(httpMethod, path, contentType, body, None)
    {
      this.httpMethod := httpMethod;
      this.path := path;
      this.contentType := contentType;
      this.body := body;
      this.data := None;
    }

    function State(): RequestState
      reads this
    {
      RequestState(httpMethod, path, contentType, body, data)
    }
  }

  /** `request.json()` and `request.post()`: decoders of the body, each of which
      may raise on a body it cannot decode. */
  datatype BodyParsers = BodyParsers(
    json: seq<byte> -> Result<Value>,
    form: seq<byte> -> Result<Value>)

  const JsonType := "application/json"
  const FormType := "application/x-www-form-urlencoded"

  datatype BodyFormat = Json | Form

  /** Which decoder `parse_data` applies: only POST requests are decoded, and the
      JSON prefix is tested before the form prefix. */
  function FormatOf(st: RequestState): (f: Option<BodyFormat>)
    ensures f.Some? <==> st.httpMethod == "POST" && (StartsWith(st.contentType, JsonType) || StartsWith(st.contentType, FormType))
    ensures f == Some(Json) <==> st.httpMethod == "POST" && StartsWith(st.contentType, JsonType)
  {
    if st.httpMethod != "POST" then None
    else if StartsWith(st.contentType, JsonType) then Some(Json)
    else if StartsWith(st.contentType, FormType) then Some(Form)
    else None
  }

  /** The request after the decoding step of `parse_data`, or the exception the
      decoder raised. */
  function Decoded(st: RequestState, parsers: BodyParsers): Result<RequestState>
  {
    match FormatOf(st)
    case None => Ok(st)
    case Some(f) =>
      var parsed := if f == Json then parsers.json(st.body) else parsers.form(st.body);
      match parsed
      case Ok(v) => Ok(st.(data := Some(v)))
      case Err(e) => Err(e)
  }

  /** What `parse_data` returns and the request it hands to the next handler:
      the decoder's exception if it raised (the handler is then never reached),
      and otherwise whatever the next handler returns on the decoded request.
      The next handler is a function of the request's state and writes nothing
      back to it. */
  function ParseDataSpec(st: RequestState, parsers: BodyParsers, next: RequestState -> Result<Value>)
    : (Result<Value>, RequestState)
  {
    match Decoded(st, parsers)
    case Err(e) => (Err(e), st)
    case Ok(st') => (next(st'), st')
  }

  /** The `parse_data` stage: decodes the body into `__data__` for a POST with a
      JSON or form content type, then delegates to `next`. */
  method ParseData(req: Request, parsers: BodyParsers, next: RequestState -> Result<Value>)
    returns (r: Result<Value>)
    modifies req`data
    ensures (r, req.State()) == ParseDataSpec(old(req.State()), parsers, next)
  {
    if req.httpMethod == "POST" {
      if StartsWith(req.contentType, JsonType) {
        var parsed := parsers.json(req.body);
        if parsed.Err? {
          return Err(parsed.error);
        }
        req.data := Some(parsed.value);
      } else if StartsWith(req.contentType, FormType) {
        var parsed := parsers.form(req.body);
        if parsed.Err? {
          return Err(parsed.error);
        }
        req.data := Some(parsed.value);
      }
    }
    r := next(req.State());
  }

  /** `__data__` is assigned exactly when the request is a POST with a JSON or
      form content type, and then holds what the matching decoder produced. */
  lemma DataSetIff(st: RequestState, parsers: BodyParsers, st': RequestState)
    requires Decoded(st, parsers) == Ok(st')
    ensures FormatOf(st).None? ==> st' == st
    ensures FormatOf(st) == Some(Json) ==> parsers.json(st.body) == Ok(st'.data.value)
    ensures FormatOf(st) == Some(Form) ==> parsers.form(st.body) == Ok(st'.data.value)
    ensures FormatOf(st).Some? ==> st'.data.Some?
  {
  }

  /** Decoding changes no part of the request other than `__data__`. */
  lemma DecodingTouchesOnlyData(st: RequestState, parsers: BodyParsers)
    ensures Decoded(st, parsers).Ok? ==> Decoded(st, parsers).value == st.(data := Decoded(st, parsers).value.data)
  {
  }

  /** `parse_data` always hands back the next handler's result unchanged unless
      decoding raised, and a decoding failure is only possible when a decoder ran. */
  lemma ParseDataDelegates(st: RequestState, parsers: BodyParsers, next: RequestState -> Result<Value>)
    ensures var (r, st') := ParseDataSpec(st, parsers, next);
      (Decoded(st, parsers).Ok? ==> r == next(st')) &&
      (Decoded(st, parsers).Err? ==> FormatOf(st).Some? && r == Err(Decoded(st, parsers).error) && st' == st)
  {
  }

  /** No content type starts with both the JSON and the form prefix, so testing
      the JSON prefix first decides nothing: a POST is form-decoded exactly when
      its content type starts with the form prefix. */
  lemma FormatOrderIrrelevant(st: RequestState)
    ensures !(StartsWith(st.contentType, JsonType) && StartsWith(st.contentType, FormType))
    ensures FormatOf(st) == Some(Form) <==> st.httpMethod == "POST" && StartsWith(st.contentType, FormType)
  {
    if StartsWith(st.contentType, JsonType) {
      assert st.contentType[..|JsonType|][12] == 'j';
      assert FormType[12] == 'x';
    }
  }

  /** The `logger` stage: it only logs, then returns what the next handler
      returns; having no `modifies` clause, it leaves the request untouched. */
  method Logger<T>(req: Request, next: RequestState -> Result<T>) returns (r: Result<T>)
    ensures r == next(req.State())
  {
    r := next(req.State());
  }
}
