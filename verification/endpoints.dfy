/** The declarative endpoint: its declaration, the routing of a call's
    keyword arguments into path arguments, query parameters and a JSON body,
    and the descriptor state as the source keeps it (one cached function per
    declaration, bound on first access). */
module Endpoints {
  import opened Outcomes
  import opened Values
  import opened Templates
  import opened Errors
  import opened Requests
  import opened Functions

  /** What the declaration fixes: the HTTP method, the path template, the
      names routed into the path, the names routed into the query string, the
      name of the JSON body argument, and whether the client's auth is used. */
  datatype EndpointDef = EndpointDef(
    httpMethod: string,
    endpoint: string,
    args: seq<string>,
    params: seq<string>,
    payload: Option<string>,
    requiresAuth: bool)

  /** The three values one call hands to its function. */
  datatype Call = Call(args: Kwargs, params: Kwargs, json: Value)

  /** The client instance an endpoint is accessed through: the attributes the
      binding reads from it. */
  datatype Client = Client(
    session: Session,
    baseUrl: string,
    auth: Option<Authenticator>,
    timeout: int,
    verify: bool)

  /** The descriptor as the source keeps it: the declaration and the cached
      function, None until the first access binds it. */
  datatype Descriptor = Descriptor(def: EndpointDef, cached: Option<Function>)

  function Elems(names: seq<string>): set<string>
  {
    set n | n in names
  }

  /** A fresh descriptor: the declaration as given, with omitted `args` and
      `params` lists empty and auth required unless said otherwise, and no
      function until the first access binds one. */
  function NewEndpoint(
    httpMethod: string,
    endpoint: string,
    args: Option<seq<string>> := None,
    params: Option<seq<string>> := None,
    payload: Option<string> := None,
    requiresAuth: bool := true): (r: Descriptor)
    ensures r.cached.None?
    ensures r.def.httpMethod == httpMethod && r.def.endpoint == endpoint
    ensures args.None? ==> r.def.args == []
    ensures args.Some? ==> r.def.args == args.value
    ensures params.None? ==> r.def.params == []
    ensures params.Some? ==> r.def.params == params.value
    ensures r.def.payload == payload && r.def.requiresAuth == requiresAuth
  {
    var argNames := if args.Some? then args.value else [];
    var paramNames := if params.Some? then params.value else [];
    Descriptor(EndpointDef(httpMethod, endpoint, argNames, paramNames, payload, requiresAuth), None)
  }

  // ---------------------------------------------------------------------------
  // Routing keyword arguments

  /** The path arguments: every declared name, each required. The dict has
      exactly the declared names as keys, each with its keyword argument; a
      missing name fails, and the failure names the first missing one in
      declaration order. */
  function CreateArgs(names: seq<string>, kwargs: Kwargs): (r: Result<Kwargs, Error>)
    ensures r.Ok? <==> forall i :: 0 <= i < |names| ==> names[i] in kwargs
    ensures r.Ok? ==> r.value.Keys == Elems(names)
    ensures r.Ok? ==> forall n :: n in r.value ==> n in kwargs && r.value[n] == kwargs[n]
    ensures r.Err? ==> exists i :: && 0 <= i < |names|
                                   && r.error == MissingArgument(names[i])
                                   && names[i] !in kwargs
                                   && forall j :: 0 <= j < i ==> names[j] in kwargs
  {
    if |names| == 0 then Ok(map[])
    else if names[0] !in kwargs then Err(MissingArgument(names[0]))
    else
      match CreateArgs(names[1..], kwargs)
      case Err(e) =>
        var i :| && 0 <= i < |names| - 1
                 && e == MissingArgument(names[1..][i])
                 && names[1..][i] !in kwargs
                 && forall j :: 0 <= j < i ==> names[1..][j] in kwargs;
        assert forall j :: 0 <= j < i + 1 ==> names[j] in kwargs by {
          forall j | 0 <= j < i + 1 ensures names[j] in kwargs {
            if 0 < j {
              assert names[j] == names[1..][j - 1];
            }
          }
        }
        Err(e)
      case Ok(m) =>
        assert Elems(names) == {names[0]} + Elems(names[1..]);
        Ok(m[names[0] := kwargs[names[0]]])
  }

  /** The query parameters: the declared names that the call supplies, each
      with its keyword argument. Names the call leaves out are absent, never
      sent as None. */
  function CreateParams(names: seq<string>, kwargs: Kwargs): (r: Kwargs)
    ensures r.Keys == Elems(names) * kwargs.Keys
    ensures forall n :: n in r ==> n in kwargs && r[n] == kwargs[n]
  {
    if |names| == 0 then map[]
    else
      var m := CreateParams(names[1..], kwargs);
      assert Elems(names) == {names[0]} + Elems(names[1..]);
      if names[0] in kwargs then m[names[0] := kwargs[names[0]]] else m
  }

  /** The JSON body: None when no payload name is declared, whatever the call
      supplies; the named keyword argument otherwise, which must be present. */
  function CreatePayload(payload: Option<string>, kwargs: Kwargs): (r: Result<Value, Error>)
    ensures payload.None? ==> r == Ok(Null)
    ensures payload.Some? ==> (r.Ok? <==> payload.value in kwargs)
    ensures payload.Some? && r.Ok? ==> r.value == kwargs[payload.value]
    ensures r.Err? ==> payload.Some? && r.error == MissingArgument(payload.value)
  {
    match payload
    case None => Ok(Null)
    case Some(name) => if name in kwargs then Ok(kwargs[name]) else Err(MissingArgument(name))
  }

  /** Splits one call's keyword arguments, path arguments first, then query
      parameters, then the body. A name declared both as a path argument and
      as a query parameter goes into both, independently; a keyword argument
      the declaration does not name goes nowhere. */
  function Route(d: EndpointDef, kwargs: Kwargs): (r: Result<Call, Error>)
    ensures r.Ok? <==> && (forall i :: 0 <= i < |d.args| ==> d.args[i] in kwargs)
                       && (d.payload.Some? ==> d.payload.value in kwargs)
    ensures r.Ok? ==> && r.value.args.Keys == Elems(d.args)
                      && r.value.params.Keys == Elems(d.params) * kwargs.Keys
                      && (forall n :: n in r.value.args ==> n in kwargs && r.value.args[n] == kwargs[n])
                      && (forall n :: n in r.value.params ==> n in kwargs && r.value.params[n] == kwargs[n])
                      && r.value.json == (if d.payload.Some? then kwargs[d.payload.value] else Null)
    ensures (exists i :: 0 <= i < |d.args| && d.args[i] !in kwargs) ==>
              exists i :: && 0 <= i < |d.args|
                          && r == Err(MissingArgument(d.args[i]))
                          && forall j :: 0 <= j < i ==> d.args[j] in kwargs
    ensures r.Err? ==> && r.error.MissingArgument?
                       && r.error.name !in kwargs
                       && (r.error.name in Elems(d.args) || d.payload == Some(r.error.name))
  {
    match CreateArgs(d.args, kwargs)
    case Err(e) => Err(e)
    case Ok(args) =>
      var params := CreateParams(d.params, kwargs);
      match CreatePayload(d.payload, kwargs)
      case Err(e) => Err(e)
      case Ok(json) => Ok(Call(args, params, json))
  }

  lemma {:induction false} ArgsIgnoreUndeclared(names: seq<string>, kwargs: Kwargs, k: string, v: Value)
    requires k !in Elems(names)
    ensures CreateArgs(names, kwargs[k := v]) == CreateArgs(names, kwargs)
  {
    if 0 < |names| {
      assert names[0] in Elems(names);
      assert Elems(names[1..]) <= Elems(names);
      ArgsIgnoreUndeclared(names[1..], kwargs, k, v);
    }
  }

  /** A keyword argument that the declaration names nowhere changes nothing:
      not the path arguments, not the query parameters, not the body, not
      which error is raised. */
  lemma RouteIgnoresUndeclared(d: EndpointDef, kwargs: Kwargs, k: string, v: Value)
    requires k !in Elems(d.args) && k !in Elems(d.params) && d.payload != Some(k)
    ensures Route(d, kwargs[k := v]) == Route(d, kwargs)
  {
    ArgsIgnoreUndeclared(d.args, kwargs, k, v);
    var p1 := CreateParams(d.params, kwargs[k := v]);
    var p2 := CreateParams(d.params, kwargs);
    assert p1.Keys == p2.Keys;
    assert p1 == p2;
  }

  /** The declaration with nothing but a method and a template routes every
      call, whatever its keyword arguments, to empty args, empty params and no
      body. */
  lemma DefaultRoutesNothing(httpMethod: string, endpoint: string, kwargs: Kwargs)
    ensures Route(NewEndpoint(httpMethod, endpoint).def, kwargs) == Ok(Call(map[], map[], Null))
  {
    var r := Route(NewEndpoint(httpMethod, endpoint).def, kwargs);
    assert r.value.args.Keys == {};
    assert r.value.params.Keys == {};
  }

  // ---------------------------------------------------------------------------
  // The descriptor as written

  /** The binding as the source writes it: the `Function` constructor is
      called without the `session` it requires, so Python raises a TypeError
      and nothing is stored. */
  function InitializeFunction(d: Descriptor, obj: Client): (r: Result<Function, Error>)
    ensures r.Err?
  {
    Err(SessionNotPassed)
  }

  /** Attribute access through a client instance. A descriptor whose function
      is unset tries to bind it, which raises; one whose function is set keeps
      it, whichever instance the access goes through. */
  function Get(d: Descriptor, obj: Client): (r: Result<Descriptor, Error>)
    ensures d.cached.None? ==> r == Err(SessionNotPassed)
    ensures d.cached.Some? ==> r == Ok(d)
  {
    if d.cached.None? then
      match InitializeFunction(d, obj)
      case Err(e) => Err(e)
      case Ok(f) => Ok(Descriptor(d.def, Some(f)))
    else Ok(d)
  }

  /** The first access to a fresh descriptor raises, through whichever client
      it goes: as written, no endpoint can ever be bound by access. */
  lemma FirstAccessAlwaysFails(httpMethod: string, endpoint: string, obj: Client)
    ensures Get(NewEndpoint(httpMethod, endpoint), obj) == Err(SessionNotPassed)
  {
  }

  /** The cache lives on the descriptor, which the client class shares among
      its instances: once a function is set, access through any other client
      keeps it, so that client's own base URL is never used. As written no
      access can set the function (see `FirstAccessAlwaysFails`); it is set
      only by assigning it directly, so this defect is hidden behind the
      missing session. */
  lemma GetSharesFirstBinding(d: Descriptor, obj: Client)
    requires d.cached.Some? && d.cached.value.baseUrl != obj.baseUrl
    ensures Get(d, obj).Ok?
    ensures Get(d, obj).value.cached.value.baseUrl != obj.baseUrl
  {
  }

  /** One call: route the keyword arguments, then hand the three values to the
      cached function and return its result unchanged. Stated end to end: a
      routing error is raised before anything else, an unbound descriptor
      raises next, and otherwise the transport sees the function's method and
      base URL with the template filled from the path arguments, the query
      parameters, the body and the function's auth, `verify` and `timeout`. */
  function Execute(d: Descriptor, kwargs: Kwargs, transport: Transport): (r: Result<Response, Error>)
    ensures Route(d.def, kwargs).Err? ==> r == Err(Route(d.def, kwargs).error)
    ensures Route(d.def, kwargs).Ok? && d.cached.None? ==> r == Err(NotBound)
    ensures Route(d.def, kwargs).Ok? && d.cached.Some? ==>
              var c := Route(d.def, kwargs).value;
              var f := d.cached.value;
              match Format(f.endpoint, c.args)
              case Err(e) => r == Err(TemplateError(e))
              case Ok(path) =>
                r == Normalise(transport(Dispatch(f.session, Request(f.httpMethod, f.baseUrl + path, Some(c.params), c.json, f.auth), f.verify, f.timeout)))
  {
    match Route(d.def, kwargs)
    case Err(e) => Err(e)
    case Ok(c) =>
      match d.cached
      case None => Err(NotBound)
      case Some(f) => f.Execute(transport, Some(c.args), Some(c.params), c.json)
  }

  /** A missing declared argument or body is reported without the function
      being called: the result is the same error whatever the transport. */
  lemma MissingArgumentNeverSends(d: Descriptor, kwargs: Kwargs, t1: Transport, t2: Transport)
    requires Route(d.def, kwargs).Err?
    ensures Execute(d, kwargs, t1) == Execute(d, kwargs, t2)
    ensures Execute(d, kwargs, t1).Err? && Execute(d, kwargs, t1).error.MissingArgument?
  {
  }

  /** Only the declared argument names reach the template: a placeholder that
      is not declared among `args` makes every call fail, even when the call
      supplies a keyword argument of that name. */
  lemma UndeclaredPlaceholderFails(d: Descriptor, kwargs: Kwargs, transport: Transport, n: string)
    requires d.cached.Some? && d.cached.value.endpoint == d.def.endpoint
    requires Parse(d.def.endpoint).Ok? && n in Names(Parse(d.def.endpoint).value)
    requires n !in Elems(d.def.args)
    ensures Execute(d, kwargs, transport).Err?
  {
  }

  /** A descriptor made with only a method and a template, once its function
      is set, calls that function with `args={}`, `params={}` and no body, and
      returns its result unchanged. */
  lemma DefaultEndpointCallsWithNothing(httpMethod: string, endpoint: string, f: Function, transport: Transport)
    ensures Execute(Descriptor(NewEndpoint(httpMethod, endpoint).def, Some(f)), map[], transport)
         == f.Execute(transport, Some(map[]), Some(map[]), Null)
  {
    DefaultRoutesNothing(httpMethod, endpoint, map[]);
  }

}
