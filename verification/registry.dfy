/** Binding endpoints to client instances as the descriptor evidently intends:
    the function is built with the instance's session, and each instance
    keeps its own bound functions, so one instance's configuration never
    reaches another's calls. Each instance owns a map from endpoint name to
    the function bound for it, filled lazily on first access. */
module Registry {
  import opened Outcomes
  import opened Values
  import opened Errors
  import opened Requests
  import opened Functions
  import opened Endpoints

  /** The function for a declaration accessed through a client: the client's
      session, base URL, timeout and TLS flag, the declaration's method and
      template, and the client's auth only when the declaration requires it. */
  function Bind(def: EndpointDef, client: Client): (f: Function)
    ensures f.session == client.session
    ensures f.baseUrl == client.baseUrl && f.timeout == client.timeout && f.verify == client.verify
    ensures f.httpMethod == def.httpMethod && f.endpoint == def.endpoint
    ensures f.auth.Some? <==> def.requiresAuth && client.auth.Some?
    ensures f.auth.Some? ==> f.auth == client.auth
  {
    Function(client.session, client.baseUrl, def.httpMethod, def.endpoint,
             if def.requiresAuth then client.auth else None, client.timeout, client.verify)
  }

  /** A client instance and the functions bound for it so far, by endpoint name. */
  datatype Instance = Instance(client: Client, bound: map<string, Function>)

  /** Every function the instance holds is the one its own client gives for
      that endpoint's declaration. */
  ghost predicate Coherent(inst: Instance, defs: map<string, EndpointDef>)
  {
    forall n :: n in inst.bound ==> n in defs && inst.bound[n] == Bind(defs[n], inst.client)
  }

  /** Access to an endpoint through an instance: the function already bound
      for it, or a new one bound now and kept. A function once bound is never
      replaced, and access keeps an instance coherent, so the function
      returned is always the one the instance's own client gives. */
  function Access(inst: Instance, defs: map<string, EndpointDef>, name: string): (r: (Instance, Function))
    requires name in defs
    ensures r.0.client == inst.client
    ensures r.0.bound.Keys == inst.bound.Keys + {name} && r.0.bound[name] == r.1
    ensures forall n :: n in inst.bound ==> r.0.bound[n] == inst.bound[n]
    ensures name in inst.bound ==> r == (inst, inst.bound[name])
    ensures Coherent(inst, defs) ==> Coherent(r.0, defs) && r.1 == Bind(defs[name], inst.client)
  {
    if name in inst.bound then (inst, inst.bound[name])
    else
      var f := Bind(defs[name], inst.client);
      (Instance(inst.client, inst.bound[name := f]), f)
  }

  /** One endpoint call through an instance: access, then execute. */
  function CallEndpoint(inst: Instance, defs: map<string, EndpointDef>, name: string, kwargs: Kwargs, transport: Transport)
    : (r: (Instance, Result<Response, Error>))
    requires name in defs
    ensures Coherent(inst, defs) ==> Coherent(r.0, defs)
    ensures Coherent(inst, defs) ==>
              r.1 == Execute(Descriptor(defs[name], Some(Bind(defs[name], inst.client))), kwargs, transport)
  {
    var (next, f) := Access(inst, defs, name);
    (next, Execute(Descriptor(defs[name], Some(f)), kwargs, transport))
  }

  /** Caching is invisible: two coherent instances of the same client give the
      same result for the same call, whatever each has bound before. */
  lemma CachingIsTransparent(i1: Instance, i2: Instance, defs: map<string, EndpointDef>, name: string, kwargs: Kwargs, transport: Transport)
    requires name in defs && Coherent(i1, defs) && Coherent(i2, defs)
    requires i1.client == i2.client
    ensures CallEndpoint(i1, defs, name, kwargs, transport).1 == CallEndpoint(i2, defs, name, kwargs, transport).1
  {
  }

  /** Instances do not share configuration: through each coherent instance the
      endpoint's function carries that instance's own base URL, session,
      timeout and TLS flag, even after the other instance bound it first. */
  lemma EachInstanceUsesItsOwnClient(i1: Instance, i2: Instance, defs: map<string, EndpointDef>, name: string)
    requires name in defs && Coherent(i1, defs) && Coherent(i2, defs)
    ensures var (after1, f1) := Access(i1, defs, name);
            var f2 := Access(i2, defs, name).1;
            && f1.baseUrl == i1.client.baseUrl && f2.baseUrl == i2.client.baseUrl
            && f1.session == i1.client.session && f2.session == i2.client.session
            && Access(after1, defs, name).1 == f1
  {
  }

}
