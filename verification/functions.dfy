/** The bound function of an endpoint: the stored per-endpoint configuration
    that turns each call's args, params and JSON body into one `APIRequest`. */
module Functions {
  import opened Outcomes
  import opened Values
  import opened Templates
  import opened Errors
  import opened Requests

  /** The stored configuration; the defaults are the constructor's. */
  datatype Function = Function(
    session: Session,
    baseUrl: string,
    httpMethod: string,
    endpoint: string,
    auth: Option<Authenticator> := None,
    timeout: int := 5,
    verify: bool := true)
  {
    /** The request for one call: every configuration field is this function's,
        and the call's args, params and JSON body are forwarded unchanged. */
    function BuildRequest(args: Option<Kwargs>, params: Option<Kwargs>, json: Value): (r: APIRequest)
      ensures && r.session == session && r.baseUrl == baseUrl && r.httpMethod == httpMethod
              && r.endpoint == endpoint && r.auth == auth && r.timeout == timeout && r.verify == verify
      ensures r.args == args && r.params == params && r.json == json
    {
      APIRequest(session, baseUrl, httpMethod, endpoint, args, params, json, auth, timeout, verify)
    }

    /** One call. Its result is the transport's answer, normalised, for a send
        of this function's method to its base URL followed by the path, with the
        call's params and body and this function's auth, `verify` and
        `timeout`. The path is the template itself when `args` is None and the
        filled template otherwise; a template that cannot be filled fails
        before anything is sent. */
    function Execute(transport: Transport, args: Option<Kwargs> := None, params: Option<Kwargs> := None, json: Value := Null)
      : (r: Result<Response, Error>)
      ensures args.None? ==>
                r == Normalise(transport(Dispatch(session, Request(httpMethod, baseUrl + endpoint, params, json, auth), verify, timeout)))
      ensures args.Some? && Format(endpoint, args.value).Err? ==>
                r == Err(TemplateError(Format(endpoint, args.value).error))
      ensures args.Some? && Format(endpoint, args.value).Ok? ==>
                r == Normalise(transport(Dispatch(session, Request(httpMethod, baseUrl + Format(endpoint, args.value).value, params, json, auth), verify, timeout)))
    {
      BuildRequest(args, params, json).Execute(transport)
    }
  }

  /** Called with no arguments at all, a function sends its template as the
      path without formatting it, braces and all, with no params and no body. */
  lemma DefaultCallSendsTemplateUnformatted(f: Function, transport: Transport)
    ensures f.Execute(transport)
         == Normalise(transport(Dispatch(f.session, Request(f.httpMethod, f.baseUrl + f.endpoint, None, Null, f.auth), f.verify, f.timeout)))
  {
  }

}
