/** One API request: the URL built from the base URL and the path template,
    the request object handed to the HTTP library, one send through the
    session, and the normalised response.

    The HTTP library and the session are outside the model. `Transport` stands
    for preparing the request (which applies the authenticator), sending it and
    reading the reply: it is given everything the source hands over and
    answers with the raw response, or with the reason the send raised. */
module Requests {
  import opened Outcomes
  import opened Values
  import opened Templates
  import opened Errors

  /** The HTTP session object; only forwarded. */
  datatype Session = Session(id: nat)

  /** An authenticator object; only forwarded, and applied by the HTTP library. */
  datatype Authenticator = Authenticator(id: nat)

  /** The HTTP library's request object: method, URL, query parameters, JSON body, auth. */
  datatype Request = Request(
    httpMethod: string,
    url: string,
    params: Option<Kwargs>,
    json: Value,
    auth: Option<Authenticator>)

  /** What one send hands to the session: the prepared request and the send options. */
  datatype Dispatch = Dispatch(session: Session, request: Request, verify: bool, timeout: int)

  /** The HTTP library's response: `body` is what `response.json()` gives, the
      parsed value or the message of the decode error it raises. */
  datatype RawResponse = RawResponse(statusCode: int, headers: map<string, string>, body: Result<Value, string>)

  /** The normalised response the caller receives. */
  datatype Response = Response(statusCode: int, headers: map<string, string>, json: Value)

  /** Prepare-and-send, as an abstract function of what is sent. */
  type Transport = Dispatch -> Result<RawResponse, string>

  /** The response the caller receives for the transport's answer: the status
      code, headers and parsed body passed through verbatim, or the error that
      the send or the JSON parse raised. */
  function Normalise(sent: Result<RawResponse, string>): (r: Result<Response, Error>)
    ensures r.Ok? <==> sent.Ok? && sent.value.body.Ok?
    ensures r.Ok? ==> && r.value.statusCode == sent.value.statusCode
                      && r.value.headers == sent.value.headers
                      && Ok(r.value.json) == sent.value.body
    ensures sent.Err? ==> r == Err(TransportError(sent.error))
    ensures sent.Ok? && sent.value.body.Err? ==> r == Err(BodyNotJson(sent.value.body.error))
  {
    match sent
    case Err(reason) => Err(TransportError(reason))
    case Ok(raw) =>
      match raw.body
      case Err(reason) => Err(BodyNotJson(reason))
      case Ok(j) => Ok(Response(raw.statusCode, raw.headers, j))
  }

  /** The request as configured; the defaults are the constructor's. */
  datatype APIRequest = APIRequest(
    session: Session,
    baseUrl: string,
    httpMethod: string,
    endpoint: string,
    args: Option<Kwargs> := None,
    params: Option<Kwargs> := None,
    json: Value := Null,
    auth: Option<Authenticator> := None,
    timeout: int := 5,
    verify: bool := true)
  {
    /** The request path: the template itself when there are no args, and the
        template with its placeholders filled otherwise. */
    function CreateEndpoint(): (r: Result<string, FormatError>)
      ensures args.None? ==> r == Ok(endpoint)
      ensures args.Some? ==>
                (r.Ok? <==> Parse(endpoint).Ok? && Names(Parse(endpoint).value) <= args.value.Keys)
      ensures args.Some? && r.Ok? ==> r == Fill(Parse(endpoint).value, args.value)
    {
      if args.None? then Ok(endpoint)
      else Format(endpoint, args.value)
    }

    /** The full URL: the base URL followed by the path, with no separator
        added or removed. */
    function CreateUrl(): (r: Result<string, Error>)
      ensures r.Ok? <==> CreateEndpoint().Ok?
      ensures r.Ok? ==> && |baseUrl| <= |r.value|
                        && r.value[..|baseUrl|] == baseUrl
                        && r.value[|baseUrl|..] == CreateEndpoint().value
      ensures r.Err? ==> r.error == TemplateError(CreateEndpoint().error)
    {
      match CreateEndpoint()
      case Err(e) => Err(TemplateError(e))
      case Ok(path) => Ok(baseUrl + path)
    }

    /** The request object: the configured method, the computed URL, and the
        stored params, JSON body and auth. */
    function CreateRequest(): (r: Result<Request, Error>)
      ensures r.Ok? <==> CreateUrl().Ok?
      ensures r.Ok? ==> && r.value.httpMethod == httpMethod
                        && r.value.url == CreateUrl().value
                        && r.value.params == params
                        && r.value.json == json
                        && r.value.auth == auth
      ensures r.Err? ==> r.error == CreateUrl().error
    {
      match CreateUrl()
      case Err(e) => Err(e)
      case Ok(url) => Ok(Request(httpMethod, url, params, json, auth))
    }

    /** Sends the request through the session with the configured `verify` and
        `timeout`, and normalises the answer. The result is stated here in
        terms of `Format` directly: a template that cannot be filled fails
        before anything is sent. */
    function Execute(transport: Transport): (r: Result<Response, Error>)
      ensures args.None? ==>
                r == Normalise(transport(Dispatch(session, Request(httpMethod, baseUrl + endpoint, params, json, auth), verify, timeout)))
      ensures args.Some? && Format(endpoint, args.value).Err? ==>
                r == Err(TemplateError(Format(endpoint, args.value).error))
      ensures args.Some? && Format(endpoint, args.value).Ok? ==>
                r == Normalise(transport(Dispatch(session, Request(httpMethod, baseUrl + Format(endpoint, args.value).value, params, json, auth), verify, timeout)))
    {
      match CreateRequest()
      case Err(e) => Err(e)
      case Ok(request) => Normalise(transport(Dispatch(session, request, verify, timeout)))
    }
  }

  /** With only the required fields given, the request sends the template
      unformatted, no params, no body and no auth, verifying TLS with a
      timeout of 5. */
  lemma DefaultsSendTemplateVerbatim(session: Session, baseUrl: string, httpMethod: string, endpoint: string, transport: Transport)
    ensures APIRequest(session, baseUrl, httpMethod, endpoint).Execute(transport)
         == Normalise(transport(Dispatch(session, Request(httpMethod, baseUrl + endpoint, None, Null, None), true, 5)))
  {
  }

  /** When the template cannot be filled the transport is never consulted:
      every transport gives the same error. */
  lemma BadTemplateNeverSends(req: APIRequest, t1: Transport, t2: Transport)
    requires req.CreateUrl().Err?
    ensures req.Execute(t1) == req.Execute(t2) == Err(req.CreateUrl().error)
  {
  }

  /** A template made of brace-free text, one placeholder and more brace-free
      text, the shape of "/api/v1/test/{arg1}" (empty suffix) and of
      "/posts/{post_id}/comments": the URL is the base URL, the prefix, the
      rendered argument and the suffix, in that order, or the placeholder's
      missing-key error when the argument is absent. */
  lemma PlaceholderUrl(req: APIRequest, prefix: string, n: string, suffix: string)
    requires forall i :: 0 <= i < |prefix| ==> prefix[i] != '{' && prefix[i] != '}'
    requires forall i :: 0 <= i < |suffix| ==> suffix[i] != '{' && suffix[i] != '}'
    requires IsKeyword(n)
    requires req.endpoint == prefix + "{" + n + "}" + suffix
    requires req.args.Some?
    ensures n in req.args.value ==>
              req.CreateUrl() == Ok(req.baseUrl + prefix + Render(req.args.value[n]) + suffix)
    ensures n !in req.args.value ==> req.CreateUrl() == Err(TemplateError(MissingKey(n)))
  {
    var args := req.args.value;
    PlaceholderBetweenText(prefix, n, suffix, args);
    assert req.CreateEndpoint() == Format(req.endpoint, args);
    if n in args {
      var v := Render(args[n]);
      Regroup3(req.baseUrl, prefix + v, suffix);
      Regroup3(req.baseUrl, prefix, v);
    }
  }

}
