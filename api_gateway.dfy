/**
 * The API gateway: two string-keyed handler registries, one for API
 * routes and one for external-system connectors.  A lookup turns each of
 * its three outcomes (no such key, the handler raised, the handler
 * returned) into a uniform answer and never lets an exception through.
 */
module ApiGateway {
  import opened Interfaces

  /** The dynamically typed values handlers take and return. */
  datatype Value =
    | Null
    | Bool(b: bool)
    | Num(n: real)
    | Str(s: string)
    | List(items: seq<Value>)
    | Dict(fields: map<string, Value>)

  /** Keyword arguments of a route call. */
  type Kwargs = map<string, Value>

  /** A route handler: its `__name__` and what a call with given keyword arguments does. */
  datatype RouteHandler = RouteHandler(name: string, call: Kwargs -> Outcome<Value>)

  /** An external-system connector: its `__name__` and what `handler(action, data)` does. */
  datatype SystemHandler = SystemHandler(name: string, call: (string, map<string, Value>) -> Outcome<Value>)

  /** The envelope of an external-system call. */
  datatype ExternalSystemResponse = ExternalSystemResponse(systemName: string, status: string, data: Value)

  /** An answer together with whether a registered handler was invoked to produce it. */
  datatype Dispatched<+T> = Dispatched(value: T, handlerCalled: bool)

  /** `{"error": message}`. */
  function ErrorEnvelope(message: string): (v: Value)
    ensures v.Dict? && v.fields.Keys == {"error"} && v.fields["error"] == Str(message)
  {
    Dict(map["error" := Str(message)])
  }

  function RouteNotFound(endpoint: string): string {
    "Route '" + endpoint + "' not found"
  }

  function SystemNotFound(systemName: string): string {
    "System '" + systemName + "' not found"
  }

  class APIGateway {
    var routes: map<string, RouteHandler>
    var externalSystems: map<string, SystemHandler>

    constructor ()
      ensures routes == map[] && externalSystems == map[]
    {
      routes := map[];
      externalSystems := map[];
    }

    /** Binds `endpoint` to `handler`, replacing any earlier binding. */
    method RegisterRoute(endpoint: string, handler: RouteHandler)
      modifies this`routes
      ensures routes == old(routes)[endpoint := handler]
      ensures forall kwargs :: handler.call(kwargs).Ok? ==>
        HandleRoute(endpoint, kwargs) == Dispatched(handler.call(kwargs).value, true)
      ensures forall e, kwargs :: e != endpoint ==> HandleRoute(e, kwargs) == old(HandleRoute(e, kwargs))
    {
      routes := routes[endpoint := handler];
    }

    /** Binds `systemName` to `handler`, replacing any earlier binding. */
    method RegisterExternalSystem(systemName: string, handler: SystemHandler)
      modifies this`externalSystems
      ensures externalSystems == old(externalSystems)[systemName := handler]
      ensures forall action, data :: handler.call(action, data).Ok? ==>
        CallExternalSystem(systemName, action, data).value ==
        ExternalSystemResponse(systemName, "success", handler.call(action, data).value)
      ensures forall name, action, data :: name != systemName ==>
        CallExternalSystem(name, action, data) == old(CallExternalSystem(name, action, data))
    {
      externalSystems := externalSystems[systemName := handler];
    }

    /**
     * Calls the connector registered under `systemName`.  The response
     * always echoes the name; its status is "success" exactly when the
     * connector exists and returns, and then carries what it returned.
     */
    function CallExternalSystem(systemName: string, action: string, data: map<string, Value>): (r: Dispatched<ExternalSystemResponse>)
      reads this
      ensures r.value.systemName == systemName
      ensures r.handlerCalled <==> systemName in externalSystems
      ensures r.value.status == "success" <==> systemName in externalSystems && externalSystems[systemName].call(action, data).Ok?
      ensures r.value.status == "success" || r.value.status == "error"
      ensures r.value.status == "success" ==> r.value.data == externalSystems[systemName].call(action, data).value
      ensures systemName !in externalSystems ==> r.value.data == ErrorEnvelope(SystemNotFound(systemName))
      ensures systemName in externalSystems && externalSystems[systemName].call(action, data).Raised? ==>
        r.value.data == ErrorEnvelope(externalSystems[systemName].call(action, data).error.message)
    {
      if systemName !in externalSystems then
        Dispatched(ExternalSystemResponse(systemName, "error", ErrorEnvelope(SystemNotFound(systemName))), false)
      else
        match externalSystems[systemName].call(action, data)
        case Ok(result) => Dispatched(ExternalSystemResponse(systemName, "success", result), true)
        case Raised(e) => Dispatched(ExternalSystemResponse(systemName, "error", ErrorEnvelope(e.message)), true)
    }

    /**
     * Calls the handler of `endpoint` with the keyword arguments: its
     * result unchanged when it returns, and an error envelope when it
     * raises or when the endpoint is not registered.
     */
    function HandleRoute(endpoint: string, kwargs: Kwargs): (r: Dispatched<Value>)
      reads this
      ensures r.handlerCalled <==> endpoint in routes
      ensures endpoint !in routes ==> r.value == ErrorEnvelope(RouteNotFound(endpoint))
      ensures endpoint in routes && routes[endpoint].call(kwargs).Ok? ==> r.value == routes[endpoint].call(kwargs).value
      ensures endpoint in routes && routes[endpoint].call(kwargs).Raised? ==>
        r.value == ErrorEnvelope(routes[endpoint].call(kwargs).error.message)
    {
      if endpoint !in routes then
        Dispatched(ErrorEnvelope(RouteNotFound(endpoint)), false)
      else
        match routes[endpoint].call(kwargs)
        case Ok(result) => Dispatched(result, true)
        case Raised(e) => Dispatched(ErrorEnvelope(e.message), true)
    }

    /** Each endpoint with its handler's name. */
    function ListRoutes(): (r: map<string, string>)
      reads this
      ensures r.Keys == routes.Keys
      ensures forall endpoint :: endpoint in r ==> r[endpoint] == routes[endpoint].name
    {
      map endpoint | endpoint in routes :: routes[endpoint].name
    }

    /** Each external system with its connector's name. */
    function ListExternalSystems(): (r: map<string, string>)
      reads this
      ensures r.Keys == externalSystems.Keys
      ensures forall name :: name in r ==> r[name] == externalSystems[name].name
    {
      map name | name in externalSystems :: externalSystems[name].name
    }

    /** Empties both registries. */
    method Cleanup()
      modifies this`routes, this`externalSystems
      ensures routes == map[] && externalSystems == map[]
    {
      routes := map[];
      externalSystems := map[];
    }
  }
}
