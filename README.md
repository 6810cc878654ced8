# Request pipeline of py3-webapp, modelled in Dafny

This project models the decision logic of the aiohttp application in `app.py`:

- **the `response` middleware** (`response_factory`), which turns whatever a route
  handler returned — an already built response, bytes, a string (possibly a
  `redirect:` directive), a dict (JSON, or a template to render when it has a
  `__template__` entry), a bare status int, a `(status, message)` pair, or anything
  else — into exactly one wire response;
- **the `logger` and `parse_data` middlewares**, which wrap the next handler; `parse_data`
  fills the request's `__data__` slot from a JSON or form body of a POST request;
- **the chain the application mounts**, `logger(response(handler))`;
- **`datetime_filter`**, the template filter that prints a timestamp as minutes,
  hours or days ago, or as a calendar date after a week.

Modules:

- `Values` (`values.dfy`): the Python values a handler can return (`Value`), `Result`
  for calls that may raise, the `WireResponse`, and Python's `str.startswith`.
- `Middleware` (`middleware.dfy`): the `Request` class with its mutable `data`
  (`__data__`) slot, the `Logger` and `ParseData` stages as methods, and the pure
  specification of `parse_data` (`FormatOf`, `Decoded`, `ParseDataSpec`).
- `Normalizer` (`normalizer.dfy`): `Normalize`, the shape dispatch of the `response`
  stage, the stage itself and the mounted chain.
- `RelativeTime` (`relative_time.dfy`): `Bucket`, `Decimal` (Python's `'%s' % n` for
  a non-negative int) and `DatetimeFilter`.

Everything the code borrows from libraries is a parameter, so the model assumes
nothing about it: `json.dumps`, `get_template(name).render(**ctx)`, `str()` and
UTF-8 encoding are the fields of `Normalizer.Foreign`; `request.json()` and
`request.post()` are the fields of `Middleware.BodyParsers`; the clock is the
`now` argument and `datetime.fromtimestamp` is the `localDate` argument of
`DatetimeFilter`. Template rendering, JSON encoding and body decoding return a
`Result`, and the model propagates their exception unchanged, as the source
does; `str()` and `datetime.fromtimestamp` are total here (see "Left out").

In these places the model follows the code:

- A dict with a `__template__` entry is rendered with the whole dict as context,
  the `__template__` entry included (`render(**r)` at app.py:133); the entry is not
  removed.
- `r.get('__template__')` is None both when the key is absent and when it maps to
  None; both cases are served as JSON.
- Only `logger_factory` and `response_factory` are mounted (app.py:166-168);
  `data_factory` is defined but not in the chain, so `Normalizer.Mounted` is
  `logger(response(handler))` and `ParseData` is modelled as a stage on its own.
- `bool` is a subclass of `int` in Python, so `True`/`False` are ints 1/0 to the
  status tests (`Values.IntOf`); they are never in [100, 600) and so always fall
  to the plain-text fallback.
- Under a minute, and for timestamps in the future, `datetime_filter` prints
  `1分钟前`, the same text as for one whole minute.

## Model

| member | source | states |
|---|---|---|
| Values.StartsWith | app.py:116 | `s.startswith(prefix)`: true exactly when `prefix` is no longer than `s` and equals the same number of leading characters of `s` |
| Normalizer.Normalize | app.py:105-144 | only a dict can make the stage raise; an already built response is returned as it is |
| Normalizer.NormalizeIdempotent | app.py:109-110 | any finished response, including one the stage itself produced, is returned unchanged, so normalising twice changes nothing |
| Normalizer.BytesAreBody | app.py:111-114 | bytes become the body verbatim, status 200, content type `application/octet-stream` |
| Normalizer.StringRedirectsIff | app.py:115-120 | a string redirects (302 with a Location) if and only if it starts with `redirect:`, and the location is the string without those 9 characters; any other string is UTF-8 HTML |
| Normalizer.RedirectRoundTrip | app.py:116-117 | `redirect:` followed by any location redirects to exactly that location |
| Normalizer.DocumentDispatch | app.py:121-135 | a dict without a non-None `__template__` is JSON-encoded as `application/json;charset=utf-8`; otherwise the named template is rendered with the whole dict as context as `text/html;charset=utf-8`; an exception from either is raised by the stage |
| Normalizer.StatusIntIff | app.py:136-144 | an int becomes a bare response with that status if and only if it is in [100, 600); otherwise it is printed as `text/plain;charset=utf-8` |
| Normalizer.StatusPairIff | app.py:138-144 | a tuple becomes (status, `str(message)`) exactly when it has two elements and the first is an int in [100, 600); every other tuple is printed as plain text |
| Normalizer.NormalizeTotal | app.py:107-144 | every value yields one response, except exactly a dict whose JSON encoding or template rendering raised |
| Normalizer.ResponseStage | app.py:105-144 | the stage raises exactly when the handler raised (with the handler's exception) or the handler returned a dict whose JSON encoder or template renderer raised; a built response from the handler is returned as it is |
| Normalizer.Mounted | app.py:166-168 | through `logger` and `response`, a request is answered with the normalised value its handler returned, or the handler's exception |
| Middleware.FormatOf | app.py:69-73 | a body is decoded only for POST, as JSON exactly when the content type starts with `application/json` |
| Middleware.FormatOrderIrrelevant | app.py:70-73 | no content type starts with both prefixes, so a POST is form-decoded exactly when its content type starts with `application/x-www-form-urlencoded` |
| Middleware.ParseData | app.py:68-76 | the result, and the request state handed to the next handler (which is also the state afterwards), are those of `ParseDataSpec` on the old state |
| Middleware.DataSetIff | app.py:69-75 | `__data__` is assigned exactly for a POST with a JSON or form content type, and holds the matching decoder's value; otherwise the request is unchanged |
| Middleware.DecodingTouchesOnlyData | app.py:69-75 | decoding changes no field of the request but `__data__` |
| Middleware.ParseDataDelegates | app.py:71-76 | unless decoding raised, the next handler's result is returned unchanged; a decoding error is raised only when a decoder ran, is the decoder's own exception (the handler is never reached), and leaves the request as it was |
| Middleware.Logger | app.py:55-60 | returns the next handler's result on the same request and modifies nothing |
| RelativeTime.DatetimeFilter | app.py:149-160 | the text ends in `前` (time elapsed) exactly when less than a week has passed, and in `日` (a calendar date) exactly from a week on |
| RelativeTime.Bucket | app.py:150-159 | the five buckets are selected by disjoint, exhaustive ranges of `delta`; the counts are the whole minutes (1..59), hours (1..23) and days (1..6) elapsed |
| RelativeTime.Decimal | app.py:154 | `'%s' % n` is a non-empty string of digits with no leading zero |
| RelativeTime.DecimalRoundTrip | app.py:154 | reading back a printed count gives the count |
| RelativeTime.DecimalInjective | app.py:154 | distinct counts print differently |
| RelativeTime.CountReadBack | app.py:154-158 | a count followed by its unit can be split back into the unit and the count |
| RelativeTime.JustNowReadsAsOneMinute | app.py:151-154 | under a minute, and for future timestamps, the text equals that of one minute ago |
| RelativeTime.MinutesText | app.py:153-154 | within the hour, the text is the whole minutes elapsed followed by `分钟前` |
| RelativeTime.HoursText | app.py:155-156 | within the day, the text is the whole hours elapsed followed by `小时前` |
| RelativeTime.DaysText | app.py:157-158 | within the week, the text is the whole days elapsed followed by `天前` |
| RelativeTime.DateTextDependsOnlyOnDate | app.py:159-160 | from a week on, two timestamps with the same local date print the same text, whatever the current time |

## Left out

- Server start-up, the event loop and the database pool (`init`, app.py:163-179): process lifecycle and I/O.
- `init_jinja2` (app.py:20-45): building the template environment is library work; rendering is the opaque `Foreign.render`.
- `add_routes` / `add_static`: `web_frame` is not part of this model; a route handler is a function parameter.
- The commented-out `auth_factory` (app.py:81-98): dead code.
- All `logging` calls and the coroutine machinery (`yield from`): they add no sequential behaviour.
- JSON encoding and decoding, template rendering, `str()`, UTF-8 encoding, `request.json()` / `request.post()`, `datetime.fromtimestamp`: foreign calls, kept uninterpreted as parameters. A UTF-8 encoding error (lone surrogates) is not modelled, nor an exception raised by `str()` (a `__str__` that raises, app.py:141-142) or by `datetime.fromtimestamp` (a timestamp outside the platform range, app.py:159): `Foreign.repr` and `localDate` are total functions.
- The bodies and default content types that aiohttp itself fills in (the `HTTPFound` body, `text=` becoming `text/plain; charset=utf-8`): modelled as `contentType == None` and, for a redirect and a bare status, an empty body.
- Normalizer.Normalize: `web.Response(r)` at app.py:137 is modelled as a response with status `r`, its evident meaning; how the aiohttp version in use treats a positional argument is library behaviour outside this model.
- Middleware.ParseData: the next handler is modelled as a function of the request's state that writes nothing back; in the source, `handler(request)` (app.py:76) receives the live request object and could assign its attributes, `__data__` included, so the state after the call is promised only for handlers that do not.
- Normalizer.RedirectRoundTrip: for the string `redirect:` alone the model yields a 302 with an empty location, `HTTPFound('')` at app.py:117; aiohttp's redirect constructor raises on an empty location, which is library behaviour outside this model.
- The order in which aiohttp composes the mounted middlewares is library behaviour; the model takes the first listed as outermost.
- Dict keys are strings only (`map<string, Value>`), as `render(**r)` requires; dicts with other keys, and the order of dict entries, are not modelled.
- RelativeTime.DatetimeFilter: `time.time()` and `t` are floats and `int(...)` truncates their difference; the model takes `now` and `t` as integers. The clock itself is the `now` parameter.
- That a JSON response body parses back to the dict it came from: a property of `json.dumps`, which is an uninterpreted parameter here.
- A generic middleware chain builder is not part of `app.py` (aiohttp composes the middlewares); only the chain the application mounts is modelled.
