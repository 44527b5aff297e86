# clientlib endpoint pipeline in Dafny

A model of the part of `clientlib` that turns a declarative endpoint call
into one HTTP request description. It covers three steps:

- **`Endpoint.execute`** splits the call's keyword arguments three ways.
  The path arguments are every declared `args` name, and all are required.
  The query parameters are the declared `params` names the call supplies.
  The JSON body is the declared `payload` argument, or `None` when no payload
  is declared.
- **`Function.execute`** joins the endpoint's stored configuration with those
  three values into one `APIRequest`.
- **`APIRequest`** fills the `{name}` placeholders of the path template,
  appends the path to the base URL, builds the request, sends it, and
  normalises the reply into a `Response`.

Modules follow the source files:

- `Templates` (`templates.dfy`) models the part of `str.format` that the path
  uses (`requests.py:39`). `Values` (`values.dfy`) models how keyword
  argument values are rendered into the path.
- `Requests` (`requests.dfy`) models `clientlib/requests.py`.
- `Functions` (`functions.dfy`) models `clientlib/functions.py`.
- `Endpoints` (`endpoints.dfy`) models `clientlib/endpoints.py` as written,
  including the descriptor and its cached function.
- `Registry` (`registry.dfy`) models the corrected binding of endpoints to
  client instances. See "Findings".
- `Errors` (`errors.dfy`) lists the exceptions that can escape a call.
  `Outcomes` (`outcomes.dfy`) holds `Option` and `Result`.

Python's `None` defaults are `Option`s, and raised exceptions are `Err`
results. Keyword arguments are a `map<string, Value>`. A `Value` is `None`, a
`bool`, an `int`, a `str`, or any other object known by its `str()` text.

The HTTP library and the session are the `Transport` parameter. It is a
function from the `Dispatch` (session, request, `verify`, `timeout`) to the
raw status code, headers and parsed body, or to the reason the send raised.
The model therefore states exactly what is handed to the send.

`str.format` is modelled in two ways that share one lexer, `Scan`:

- `Format` makes one left-to-right pass, as the interpreter does. Errors
  therefore surface in the order Python raises them.
- `Parse` followed by `Fill` is the reference reading: first the pieces of
  the template, then the substitution.

The contract of `Format` states that the two agree. The round trips
`Parse`/`Unparse` (the contract of `Parse` and the lemma `ParseUnparse`) and
`Escape`/`Format` tie the grammar to the text.

## Model

| member | source | states |
|---|---|---|
| Endpoints.NewEndpoint | clientlib/endpoints.py:5-14 | the declaration keeps the method, template, payload and auth flag as given; omitted `args` and `params` become empty lists (`args or []`); a fresh descriptor has no function |
| Endpoints.CreateArgs | clientlib/endpoints.py:35-39 | succeeds iff every declared name is in kwargs; the dict's keys are exactly the declared names, each with its kwargs value; a failure names the first missing name in declaration order |
| Endpoints.CreateParams | clientlib/endpoints.py:41-46 | keys are exactly the declared names that the call supplies, with values copied; absent names are omitted, never sent as None |
| Endpoints.CreatePayload | clientlib/endpoints.py:32-33 | no declared payload gives None whatever kwargs hold; a declared one gives `kwargs[payload]` and fails with a missing-argument error when absent |
| Endpoints.Route | clientlib/endpoints.py:48-51 | succeeds iff all declared args and the declared payload are present; a name in both `args` and `params` lands in both maps with its kwargs value; any failure is a missing-argument error for a declared name; when a declared arg is missing, the error names the first missing arg in declaration order, since args are read before the payload |
| Endpoints.RouteIgnoresUndeclared | clientlib/endpoints.py:35-46 | adding or changing a keyword argument that `args`, `params` and `payload` do not name leaves the routing result unchanged, errors included |
| Endpoints.DefaultRoutesNothing | clientlib/endpoints.py:5-12 | with the default constructor, every call routes to `args={}`, `params={}` and no body, whatever its keyword arguments |
| Endpoints.InitializeFunction | clientlib/endpoints.py:16-24 | as written, building the function always raises, because the required `session` is not passed |
| Endpoints.Get | clientlib/endpoints.py:26-30 | an unset function makes access fail, since binding raises; a set function is kept, whatever client the access goes through |
| Endpoints.FirstAccessAlwaysFails | clientlib/endpoints.py:26-28 | the first access to a fresh endpoint raises, through every client |
| Endpoints.GetSharesFirstBinding | clientlib/endpoints.py:26-30 | once a function is cached, access through a client with another base URL still yields the first client's base URL |
| Endpoints.Execute | clientlib/endpoints.py:48-57 | routing errors come first and send nothing; otherwise the transport receives the cached function's method, its base URL joined with the template filled from the routed args, the routed params and body, and its auth, `verify` and `timeout` |
| Endpoints.MissingArgumentNeverSends | clientlib/endpoints.py:48-53 | a missing declared argument or payload gives the same missing-argument error for every transport, so the function is never invoked |
| Endpoints.UndeclaredPlaceholderFails | clientlib/endpoints.py:49-57 | a template placeholder absent from `args` makes every call fail, even when the call passes a keyword argument of that name |
| Endpoints.DefaultEndpointCallsWithNothing | clientlib/endpoints.py:48-57 | a default endpoint called with no kwargs invokes its function with `args={}`, `params={}`, `json=None` and returns that result unchanged |
| Functions.Function.BuildRequest | clientlib/functions.py:16-27 | the request's session, base URL, method, template, auth, timeout and verify are the function's; the call's args, params and json are forwarded unchanged |
| Functions.Function.Execute | clientlib/functions.py:15-29 | the result is the transport's normalised answer for the function's method, its base URL plus the path (the raw template when args is None), and the call's params and body; an unfillable template fails before any send |
| Functions.DefaultCallSendsTemplateUnformatted | clientlib/functions.py:15 | with default arguments, the template reaches the URL unformatted, braces included, with no params and no body |
| Requests.Normalise | clientlib/requests.py:72-76 | status code, headers and parsed JSON are the transport's, verbatim; a failed send is an error carrying the send's reason, and a body `json()` cannot decode is an error carrying the decode message, with the response dropped |
| Requests.APIRequest.CreateEndpoint | clientlib/requests.py:35-39 | with `args` None the path is the template unchanged; otherwise it succeeds iff the template parses and all its placeholder names are keys, and then equals the substitution into the parsed pieces |
| Requests.APIRequest.CreateUrl | clientlib/requests.py:41-45 | the URL is the base URL followed by the path, with nothing inserted or removed; template failures become template errors |
| Requests.APIRequest.CreateRequest | clientlib/requests.py:47-54 | the request carries exactly the configured method, the computed URL, and the stored params, json and auth |
| Requests.APIRequest.Execute | clientlib/requests.py:56-76 | the transport receives the session, the request, `verify` and `timeout`, and its answer is normalised; an unfillable template fails without a send |
| Requests.DefaultsSendTemplateVerbatim | clientlib/requests.py:9-10 | a request built from the four required fields sends the template verbatim with no params, no body and no auth, `verify` true and `timeout` 5 |
| Requests.BadTemplateNeverSends | clientlib/requests.py:62-70 | when the URL cannot be built, every transport gives the same template error |
| Requests.PlaceholderUrl | clientlib/requests.py:35-45 | brace-free text, one placeholder and brace-free text yield base URL + prefix + the rendered argument + suffix, or the placeholder's missing-key error; the empty suffix is the `"/api/v1/test/{arg1}"` shape of `tests/test_requests.py:42-59` |
| Templates.FieldError | clientlib/requests.py:39 | a field is accepted iff it is a keyword name: non-empty, not all digits, and free of `{ } . [ ! :` |
| Templates.Scan | clientlib/requests.py:39 | each piece read consumes exactly its own template text and is well formed |
| Templates.Format | clientlib/requests.py:39 | `t.format(**args)`: on a template that parses it equals `Fill` of `Parse` (the independent two-phase reading); a template that does not parse fails under any arguments; it succeeds iff the template parses and every placeholder name is a key |
| Templates.Parse | clientlib/requests.py:39 | the pieces read are well formed and written back give exactly the template |
| Templates.Fill | clientlib/requests.py:39 | substitution succeeds iff every placeholder name is a key; a failure is the missing-key error of the first placeholder without a key |
| Templates.FormatIgnoresUnusedKeys | clientlib/requests.py:39 | argument maps that agree on the template's placeholder names format it identically |
| Templates.ParseUnparse | clientlib/requests.py:39 | writing well-formed pieces as a template and parsing it gives them back |
| Templates.EscapeFormatsToItself | clientlib/requests.py:39 | text with its braces doubled formats back to itself under any arguments |
| Templates.NoBracesFormatsToItself | clientlib/requests.py:38-39 | a template without braces formats to itself for every argument map, the empty one included |
| Templates.FormatAfterText | clientlib/requests.py:39 | a literal prefix contributes itself; the rest formats, or fails, as it would alone |
| Templates.PlaceholderBetweenText | clientlib/requests.py:39 | in `prefix{n}suffix` with brace-free texts, the texts are kept and `{n}` becomes the rendering of `args[n]`, or formatting fails with the missing key `n` |
| Templates.FormatPlaceholder | clientlib/requests.py:39 | a lone placeholder formats to its argument's rendering, or fails with a missing-key error |
| Values.Render | clientlib/requests.py:39 | a str is inserted unchanged, `None` and booleans by name, any other object by its `str()` text, and an int as canonical decimal text (a minus sign only for negatives, then digits with no leading zero) that `int()` reads back as the same int |
| Values.IntToDecimal | clientlib/requests.py:39 | `str(i)` is a minus sign exactly for negative `i`, followed by digits with no leading zero (`0` alone for zero), and reading it back gives `i` |
| Registry.Bind | clientlib/endpoints.py:16-24 | the bound function takes the client's session, base URL, timeout and verify, and the declaration's method and template; auth is passed iff the endpoint requires auth |
| Registry.Access | clientlib/endpoints.py:26-30 | a function is bound on first access and reused afterwards, never replaced; a coherent instance stays coherent and always yields its own client's binding |
| Registry.CallEndpoint | clientlib/endpoints.py:26-57 | a call through a coherent instance is the endpoint call with the function bound from that instance's own client |
| Registry.CachingIsTransparent | clientlib/endpoints.py:26-30 | two coherent instances of one client give the same result for the same call, whatever each has cached |
| Registry.EachInstanceUsesItsOwnClient | clientlib/endpoints.py:26-30 | each instance's function carries its own base URL and session, and a second access returns the same function |

## Findings

| source | as written | input that shows it | evidently intended | confidence | as-written member | corrected member |
|---|---|---|---|---|---|---|
| clientlib/endpoints.py:16-24 | `Function(...)` is called without `session`, which `Function.__init__` requires (`clientlib/functions.py:5`), so it raises TypeError | the first access to any endpoint through any client instance | pass the instance's session along with its other settings | high; not executed | Endpoints.FirstAccessAlwaysFails | Registry.Bind |
| clientlib/endpoints.py:26-30 | the function is cached on the descriptor, which the class shares, so every instance uses the configuration of the first instance bound | hidden in the code as written by the previous row: the first access raises, `_function` stays None, and every later access raises too, so no sharing is observable. It shows once `_function` is assigned directly, as `tests/test_endpoints.py:51` does, or once the session defect is fixed: a second client with another base URL then gets the first binding | one binding per client instance | high; not executed | Endpoints.GetSharesFirstBinding | Registry.EachInstanceUsesItsOwnClient |

`Endpoints` keeps the source's behaviour, so `Endpoints.Get` still fails on a
fresh endpoint. `Endpoints.GetSharesFirstBinding` therefore starts from a
descriptor whose function is already set, the state the test at
`tests/test_endpoints.py:51` creates by assignment. `Registry` gives each instance its own map of bound functions
and binds with the session. Both run endpoint calls through the same
`Endpoints.Execute`.

`tests/test_requests.py:21-25` builds an `APIRequest` without the `session`
that `clientlib/requests.py:9` requires. The model's `APIRequest` always has
a session.

## Left out

- The network send and the session context manager (`clientlib/requests.py:62-70`). These are foreign library calls. `Transport` stands in for prepare-and-send, including how the authenticator is applied. Releasing the session is not modelled.
- Authenticators (`clientlib/authentication.py` is not part of this model). Auth is an opaque value that is forwarded.
- `clientlib/models.py` is not part of this model. `Response` is a plain record of status code, headers and JSON.
- Payload and response schemas, `ExecutionError`, `ResponseDeserializationError` and status-range checks. `tests/test_endpoints.py:161-432` exercises them, but the `Endpoint` constructor modelled here (`clientlib/endpoints.py:5-6`) takes no schema parameters. The model follows that code and has no schema stage.
- `clientlib/exceptions.py`: nothing in this core raises these classes. The exceptions that can escape are the variants of `Errors.Error`.
- Timeout and connection errors get no separate kinds. A send that raises becomes `TransportError` with its reason, because the code catches nothing.
- `timeout` is an `int` and `verify` a `bool`. The HTTP library also accepts a float, a (connect, read) tuple or None for `timeout`, and a CA bundle path for `verify`. Both are only forwarded, so no behaviour depends on the narrower types.
- Templates.Format: supports only `{name}` keyword fields and the `{{`/`}}` escapes. A field containing `. [ ! :` is an error here, although Python would resolve attributes, indexes, conversions and format specs.
- Templates.Format: error kinds are coarse. Success, the output, and the missing-key name agree with Python. Which syntax error is reported can differ, for example for a `{` nested inside a field.
- Templates.FieldError: only ASCII digits make a field positional. Python also treats other Unicode decimal digits as positional.
- Values.Render: only `None`, `bool`, `int` and `str` are rendered by rule. Any other object is given by its `str()` text. The limit on int-to-text conversion (Python 3.11 and later raise ValueError for an int of more than 4300 digits by default) is not modelled: every int renders.
- The order of the query string is not modelled. `_create_params` builds its dict in the declared `params` order (`clientlib/endpoints.py:42-45`), and the HTTP library encodes the parameters in that order. The model's `Kwargs` is an unordered map, so it states which parameters are sent and with what values, but not in which order.
- Accessing an endpoint through the class rather than an instance (`obj` is None in `__get__`) raises AttributeError in Python. It is not modelled.
- `Function.execute` does not change the function's configuration. This holds by construction, because every value in the model is immutable, so no member states it.
