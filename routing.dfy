/** Routes: an HttpRoute picks its endpoint by the lower-cased request
    method, a WebSocketRoute by the type of the message it receives. Both
    send a fixed error response when something fails and then re-raise.
    Endpoints are looked up in finite tables instead of by attribute name;
    what a route hands to `send_response` is recorded as the Response value. */
module Routing {
  import opened Errors
  import opened Strings
  import opened Wire
  import opened Requests
  import opened Responses
  import opened Connections
  import H = HttpConnections
  import W = WebSocketConnections
  import opened Protocols

  // ----- endpoint names -----

  /** The nine HTTP method endpoints an HttpRoute defines. */
  datatype HttpMethod = Get | Head | Post | Put | Delete | Connect | Options | Trace | Patch

  function MethodName(m: HttpMethod): string
  {
    match m
    case Get => "get"
    case Head => "head"
    case Post => "post"
    case Put => "put"
    case Delete => "delete"
    case Connect => "connect"
    case Options => "options"
    case Trace => "trace"
    case Patch => "patch"
  }

  const MethodNames: set<string> :=
    {"get", "head", "post", "put", "delete", "connect", "options", "trace", "patch"}

  /** The method endpoint a lower-case name denotes: exactly the nine
      method names resolve, each to its own endpoint. */
  function ParseMethod(name: string): (m: Option<HttpMethod>)
    ensures m.Some? <==> name in MethodNames
    ensures m.Some? ==> MethodName(m.value) == name
  {
    if name == "get" then Some(Get)
    else if name == "head" then Some(Head)
    else if name == "post" then Some(Post)
    else if name == "put" then Some(Put)
    else if name == "delete" then Some(Delete)
    else if name == "connect" then Some(Connect)
    else if name == "options" then Some(Options)
    else if name == "trace" then Some(Trace)
    else if name == "patch" then Some(Patch)
    else None
  }

  /** The three WebSocket endpoints a WebSocketRoute defines. */
  datatype WsEvent = OnConnect | OnReceive | OnDisconnect

  function EventName(e: WsEvent): string
  {
    match e
    case OnConnect => "connect"
    case OnReceive => "receive"
    case OnDisconnect => "disconnect"
  }

  /** The WebSocket endpoint a request type denotes. */
  function ParseEvent(kind: string): (e: Option<WsEvent>)
    ensures e.Some? <==> kind in {"connect", "receive", "disconnect"}
    ensures e.Some? ==> EventName(e.value) == kind
  {
    if kind == "connect" then Some(OnConnect)
    else if kind == "receive" then Some(OnReceive)
    else if kind == "disconnect" then Some(OnDisconnect)
    else None
  }

  // ----- routes -----

  /** The other attributes `getattr` finds on a route with a lower-case
      name: those its class defines, `__init__` and `__call__`, and the
      `_abc_impl` that ABC adds. None can be called with a connection and a
      request: the values are not callable and the methods take other
      arguments. */
  const RouteAttributes: set<string> := {"path", "protocol", "get_endpoint", "__init__", "__call__", "_abc_impl"}
  const HttpOtherAttributes: set<string> :=
    RouteAttributes + {"send_internal_server_error", "send_not_implemented", "send_method_not_allowed"}
  const WsOtherAttributes: set<string> := RouteAttributes + {"send_internal_error"}

  const HttpAttributes: set<string> := MethodNames + HttpOtherAttributes
  const WsAttributes: set<string> := {"connect", "receive", "disconnect"} + WsOtherAttributes

  /** What `getattr(route, name)` yields: the route class's own endpoint; one
      an application subclass supplies, which may hand one response to
      `send_response` and may then raise an exception; or an attribute that
      is no endpoint, whose call raises TypeError. */
  datatype Endpoint = Default | Custom(reply: Option<Response>, raises: Option<string>) | NotEndpoint

  /** A route holds its path and the endpoints an application overrides;
      an endpoint not in the table is the class default. */
  datatype Route =
    | HttpRoute(path: string, methods: map<HttpMethod, Endpoint>)
    | WebSocketRoute(path: string, events: map<WsEvent, Endpoint>)
  {
    /** The class attribute `protocol`. */
    function Kind(): Protocol
    {
      if HttpRoute? then HttpProtocol else WebSocketProtocol
    }

    function MethodEndpoint(m: HttpMethod): Endpoint
      requires HttpRoute?
    {
      if m in methods then methods[m] else Default
    }

    function EventEndpoint(e: WsEvent): Endpoint
      requires WebSocketRoute?
    {
      if e in events then events[e] else Default
    }

    /** `get_endpoint(name)` for a name the route has as an attribute. */
    function Attribute(name: string): (ep: Endpoint)
      requires name in (if HttpRoute? then HttpAttributes else WsAttributes)
      ensures HttpRoute? && ParseMethod(name).Some? ==> ep == MethodEndpoint(ParseMethod(name).value)
      ensures WebSocketRoute? && ParseEvent(name).Some? ==> ep == EventEndpoint(ParseEvent(name).value)
      ensures (if HttpRoute? then ParseMethod(name).None? else ParseEvent(name).None?) ==> ep == NotEndpoint
    {
      if HttpRoute? then
        match ParseMethod(name)
        case Some(m) => MethodEndpoint(m)
        case None => NotEndpoint
      else
        match ParseEvent(name)
        case Some(e) => EventEndpoint(e)
        case None => NotEndpoint
    }
  }

  /** The bodies b"Method Not Allowed", b"Internal Server Error" and
      b"Not Implemented", byte by byte. */
  const MethodNotAllowedBody: Bytes := [0x4D, 0x65, 0x74, 0x68, 0x6F, 0x64, 0x20, 0x4E, 0x6F, 0x74, 0x20, 0x41, 0x6C, 0x6C, 0x6F, 0x77, 0x65, 0x64]
  const InternalServerErrorBody: Bytes := [0x49, 0x6E, 0x74, 0x65, 0x72, 0x6E, 0x61, 0x6C, 0x20, 0x53, 0x65, 0x72, 0x76, 0x65, 0x72, 0x20, 0x45, 0x72, 0x72, 0x6F, 0x72]
  const NotImplementedBody: Bytes := [0x4E, 0x6F, 0x74, 0x20, 0x49, 0x6D, 0x70, 0x6C, 0x65, 0x6D, 0x65, 0x6E, 0x74, 0x65, 0x64]

  const MethodNotAllowed: Response := BodyResponse(405, [], MethodNotAllowedBody)
  const InternalServerError: Response := BodyResponse(500, [], InternalServerErrorBody)
  const NotImplemented: Response := BodyResponse(501, [], NotImplementedBody)
  const InternalError: Response := CloseResponse(1011)

  /** An endpoint called, by name, with the request it was passed. */
  datatype Invocation = Invocation(endpoint: string, request: Request)

  /** The connection after a route ran, how the route ended, and the
      endpoint call it made, if any. */
  datatype RouteStep<S> = RouteStep(state: S, result: Outcome, invoked: Option<Invocation>)

  /** An `except` handler that sends a response and then re-raises: the
      original exception, unless sending raised one of its own. */
  function Reraise<S>(handler: Step<S, Outcome>, e: Error, invoked: Option<Invocation>): (t: RouteStep<S>)
    ensures t.result.Fail?
    ensures handler.result.Pass? ==> t.result == Fail(e)
  {
    RouteStep(handler.state, if handler.result.Fail? then handler.result else Fail(e), invoked)
  }

  // ----- HttpRoute -----

  /** The attribute name `get_endpoint(connection.method.lower())` finds:
      KeyError when the scope has no method; TypeError for a bytes method,
      which lowers but is no attribute name; AttributeError for any other
      value without `lower`, and for a name the route has no attribute
      for. */
  function ResolveMethod(scope: Message): (r: Result<string>)
    ensures "method" !in scope ==> r == Err(KeyError("method"))
    ensures "method" in scope && scope["method"].Blob? ==> r == Err(TypeError)
    ensures "method" in scope && !scope["method"].Str? && !scope["method"].Blob? ==> r == Err(AttributeError)
    ensures "method" in scope && scope["method"].Str? ==>
      && (r.Ok? <==> Lower(scope["method"].str) in HttpAttributes)
      && (r.Err? ==> r.error == AttributeError)
      && (r.Ok? ==> r.value == Lower(scope["method"].str))
  {
    if "method" !in scope then Err(KeyError("method"))
    else match scope["method"]
      case Blob(_) => Err(TypeError)
      case Str(name) => if Lower(name) in HttpAttributes then Ok(Lower(name)) else Err(AttributeError)
      case Nil => Err(AttributeError)
      case Bool(_) => Err(AttributeError)
      case Int(_) => Err(AttributeError)
      case HeaderList(_) => Err(AttributeError)
      case Tuple(_) => Err(AttributeError)
  }

  /** An endpoint of an HttpRoute run on the connection. The default sends
      405 Method Not Allowed. */
  function HttpEndpointStep(ep: Endpoint, s: H.HttpSnap): (t: Step<H.HttpSnap, Outcome>)
    ensures ep.Default? ==> t == H.SendResponseStep(s, MethodNotAllowed)
    ensures ep.NotEndpoint? ==> t == Step(s, Fail(TypeError))
    ensures t.state.inbox == s.inbox
    ensures H.SentMatchesStatus(s) ==> H.SentMatchesStatus(t.state)
  {
    match ep
    case Default => H.SendResponseStep(s, MethodNotAllowed)
    case NotEndpoint => Step(s, Fail(TypeError))
    case Custom(reply, raises) =>
      var replied := if reply.Some? then H.SendResponseStep(s, reply.value) else Step(s, Pass);
      if replied.result.Fail? || raises.None? then replied
      else Step(replied.state, Fail(Raised(raises.value)))
  }

  /** `HttpRoute.__call__` on an HTTP connection. A lookup that fails other
      than with AttributeError escapes untouched; AttributeError sends 501
      and re-raises without receiving; otherwise exactly one request is
      received and the attribute found is called with it; a failure of
      either sends 500 and re-raises. The route completes only when its
      endpoint did. */
  function HttpRouteStep(route: Route, scope: Message, s: H.HttpSnap): (t: RouteStep<H.HttpSnap>)
    requires route.HttpRoute?
    ensures ResolveMethod(scope).Err? && ResolveMethod(scope).error != AttributeError ==>
      t == RouteStep(s, Fail(ResolveMethod(scope).error), None)
    ensures ResolveMethod(scope).Ok? ==> t.state.inbox == (if s.inbox == [] then [] else s.inbox[1..])
    ensures ResolveMethod(scope).Err? ==> t.state.inbox == s.inbox && t.invoked.None? && t.result.Fail?
    ensures t.invoked.Some? ==>
      && ResolveMethod(scope) == Ok(t.invoked.value.endpoint)
      && s.inbox != [] && ParseRequest(s.inbox[0]) == Ok(t.invoked.value.request)
    ensures t.result.Pass? ==> t.invoked.Some? && ParseMethod(t.invoked.value.endpoint).Some?
    ensures H.SentMatchesStatus(s) ==> H.SentMatchesStatus(t.state)
  {
    match ResolveMethod(scope)
    case Err(e) =>
      if e != AttributeError then RouteStep(s, Fail(e), None)
      else Reraise(H.SendResponseStep(s, NotImplemented), e, None)
    case Ok(name) =>
      var received := H.ReceiveStep(s);
      match received.result
      case Err(e) => Reraise(H.SendResponseStep(received.state, InternalServerError), e, None)
      case Ok(request) =>
        var invoked := Some(Invocation(name, request));
        var ran := HttpEndpointStep(route.Attribute(name), received.state);
        match ran.result
        case Pass => RouteStep(ran.state, Pass, invoked)
        case Fail(e) => Reraise(H.SendResponseStep(ran.state, InternalServerError), e, invoked)
  }

  /** Once the method resolved and a request was received, the route calls
      that endpoint with the request on the connection itself: when it
      completes, the route completes in the endpoint's own state; when it
      raises, 500 is handed over in that state and the exception re-raised. */
  lemma HttpEndpointOutcome(route: Route, scope: Message, s: H.HttpSnap)
    requires route.HttpRoute? && ResolveMethod(scope).Ok? && H.ReceiveStep(s).result.Ok?
    ensures var t := HttpRouteStep(route, scope, s);
      var name := ResolveMethod(scope).value;
      var received := H.ReceiveStep(s);
      var ran := HttpEndpointStep(route.Attribute(name), received.state);
      && t.invoked == Some(Invocation(name, received.result.value))
      && (ran.result.Pass? ==> t.result == Pass && t.state == ran.state)
      && (ran.result.Fail? ==>
            t == Reraise(H.SendResponseStep(ran.state, InternalServerError), ran.result.error, t.invoked))
  {
  }

  /** A method that has no `lower`, or whose lower-cased name is no
      attribute, hands 501 Not Implemented to
      `send_response`, receives nothing, and re-raises the AttributeError
      (on an open connection the 501 goes out as its two messages). */
  lemma HttpUnresolvedMethod(route: Route, scope: Message, s: H.HttpSnap)
    requires route.HttpRoute? && ResolveMethod(scope) == Err(AttributeError)
    ensures var t := HttpRouteStep(route, scope, s);
      && t.state.inbox == s.inbox && t.invoked.None?
      && t.state.handed == s.handed + [NotImplemented]
      && (s.status == H.Open ==>
            t.result == Fail(AttributeError) && t.state.sent == s.sent + RenderMessages(NotImplemented))
  {
  }

  /** A method of "GET" finds the `get` endpoint. */
  lemma GetResolves(scope: Message)
    requires "method" in scope && scope["method"] == Str("GET")
    ensures ResolveMethod(scope) == Ok(MethodName(Get))
  {
    var lowered := Lower("GET");
    assert lowered[0] == 'g' && lowered[1] == 'e' && lowered[2] == 't';
    assert lowered == "get";
  }

  /** An endpoint left at its default on an open connection with a
      well-formed request hands 405 Method Not Allowed to `send_response`,
      which sends its two messages, and the route completes normally. */
  lemma HttpDefaultEndpoint(route: Route, scope: Message, s: H.HttpSnap, m: HttpMethod)
    requires route.HttpRoute? && m !in route.methods
    requires ResolveMethod(scope) == Ok(MethodName(m))
    requires s.status == H.Open && s.inbox != [] && ParseRequest(s.inbox[0]).Ok?
    ensures var t := HttpRouteStep(route, scope, s);
      && t.result == Pass
      && t.invoked == Some(Invocation(MethodName(m), ParseRequest(s.inbox[0]).value))
      && t.state.handed == s.handed + [MethodNotAllowed]
      && t.state.sent == s.sent + RenderMessages(MethodNotAllowed)
      && t.state.status == H.Closed && t.state.inbox == s.inbox[1..]
  {
  }

  /** A request that cannot be received hands 500 Internal Server Error to
      `send_response` and re-raises the receive error; nothing is called. */
  lemma HttpReceiveFailureSends500(route: Route, scope: Message, s: H.HttpSnap)
    requires route.HttpRoute? && ResolveMethod(scope).Ok? && s.status == H.Open
    requires H.ReceiveStep(s).result.Err?
    ensures var t := HttpRouteStep(route, scope, s);
      && t.result == Fail(H.ReceiveStep(s).result.error)
      && t.invoked.None?
      && t.state.handed == s.handed + [InternalServerError]
      && t.state.sent == s.sent + RenderMessages(InternalServerError)
  {
    var received := H.ReceiveStep(s);
    assert received.state.status == H.Open && received.state.sent == s.sent && received.state.handed == s.handed;
  }

  /** An endpoint that raises before sending anything makes the route hand
      500 Internal Server Error to `send_response` and re-raise that very
      exception, after it was called with the received request. */
  lemma HttpEndpointFailureSends500(route: Route, scope: Message, s: H.HttpSnap, e: Error)
    requires route.HttpRoute? && ResolveMethod(scope).Ok? && s.status == H.Open
    requires s.inbox != [] && ParseRequest(s.inbox[0]).Ok?
    requires HttpEndpointStep(route.Attribute(ResolveMethod(scope).value), H.ReceiveStep(s).state)
             == Step(H.ReceiveStep(s).state, Fail(e))
    ensures var t := HttpRouteStep(route, scope, s);
      && t.result == Fail(e)
      && t.invoked == Some(Invocation(ResolveMethod(scope).value, ParseRequest(s.inbox[0]).value))
      && t.state.handed == s.handed + [InternalServerError]
      && t.state.sent == s.sent + RenderMessages(InternalServerError)
  {
    var received := H.ReceiveStep(s);
    assert received.state == s.(inbox := s.inbox[1..]);
  }

  /** Whatever fails after the method resolved, the route hands 500 to
      `send_response` last and ends in an exception: it never swallows
      one. */
  lemma HttpNeverSwallows(route: Route, scope: Message, s: H.HttpSnap)
    requires route.HttpRoute? && ResolveMethod(scope).Ok?
    ensures var t := HttpRouteStep(route, scope, s);
      var received := H.ReceiveStep(s);
      var failed := received.result.Err? ||
        HttpEndpointStep(route.Attribute(ResolveMethod(scope).value), received.state).result.Fail?;
      && (failed <==> t.result.Fail?)
      && (failed ==> |t.state.handed| > 0 && t.state.handed[|t.state.handed| - 1] == InternalServerError)
  {
  }

  /** A method naming a route attribute that is no endpoint (such as
      "PATH") is received for, then fails with TypeError when called: 500
      goes out and the TypeError is re-raised. */
  lemma HttpNonEndpointAttribute(route: Route, scope: Message, s: H.HttpSnap)
    requires route.HttpRoute? && s.status == H.Open && s.inbox != [] && ParseRequest(s.inbox[0]).Ok?
    requires "method" in scope && scope["method"].Str?
    requires Lower(scope["method"].str) in HttpAttributes - MethodNames
    ensures var t := HttpRouteStep(route, scope, s);
      && t.result == Fail(TypeError)
      && t.invoked == Some(Invocation(Lower(scope["method"].str), ParseRequest(s.inbox[0]).value))
      && t.state.handed == s.handed + [InternalServerError]
      && t.state.sent == s.sent + RenderMessages(InternalServerError)
  {
    var name := Lower(scope["method"].str);
    assert ResolveMethod(scope) == Ok(name);
    assert route.Attribute(name) == NotEndpoint;
    HttpEndpointFailureSends500(route, scope, s, TypeError);
  }

  // ----- WebSocketRoute -----

  /** An endpoint of a WebSocketRoute run on the connection. The default
      `connect` hands an AcceptResponse() to `send_response`; the default
      `receive` and `disconnect` do nothing. */
  function WsEndpointStep(ep: Endpoint, name: string, s: W.WsSnap): (t: Step<W.WsSnap, Outcome>)
    ensures ep.Default? && name == "connect" ==> t == W.SendResponseStep(s, AcceptResponse())
    ensures ep.Default? && name != "connect" ==> t == Step(s, Pass)
    ensures ep.NotEndpoint? ==> t == Step(s, Fail(TypeError))
    ensures t.state.inbox == s.inbox && t.state.sent == s.sent && t.state.state == s.state
  {
    match ep
    case Default => if name == "connect" then W.SendResponseStep(s, AcceptResponse()) else Step(s, Pass)
    case NotEndpoint => Step(s, Fail(TypeError))
    case Custom(reply, raises) =>
      var replied := if reply.Some? then W.SendResponseStep(s, reply.value) else Step(s, Pass);
      if raises.None? then replied
      else Step(replied.state, Fail(Raised(raises.value)))
  }

  /** The `except` handler of a WebSocketRoute: close with 1011, then
      re-raise. */
  function InternalErrorExit(s: W.WsSnap, e: Error, invoked: Option<Invocation>): (t: RouteStep<W.WsSnap>)
    ensures t.state == s.(handed := s.handed + [InternalError]) && t.result == Fail(e)
  {
    Reraise(W.SendResponseStep(s, InternalError), e, invoked)
  }

  /** `WebSocketRoute.__call__` on a WebSocket connection: receive one
      request and call the attribute its type names; a type naming no
      attribute (AttributeError), or any other exception, hands
      CloseResponse(1011) to `send_response` and re-raises the same
      exception. */
  function WsRouteStep(route: Route, s: W.WsSnap): (t: RouteStep<W.WsSnap>)
    requires route.WebSocketRoute?
    ensures t.state.sent == s.sent
    ensures t.state.inbox == (if s.state == W.Disconnected || s.inbox == [] then s.inbox else s.inbox[1..])
    ensures W.ReceiveStep(s).result.Err? ==> t.result == Fail(W.ReceiveStep(s).result.error) && t.invoked.None?
    ensures t.result.Fail? ==> |t.state.handed| > 0 && t.state.handed[|t.state.handed| - 1] == InternalError
    ensures t.result.Pass? ==> t.invoked.Some? && ParseEvent(t.invoked.value.endpoint).Some?
    ensures t.invoked.Some? ==>
      && W.ReceiveStep(s).result == Ok(t.invoked.value.request)
      && t.invoked.value.endpoint == t.invoked.value.request.kind
      && t.invoked.value.endpoint in WsAttributes
  {
    var received := W.ReceiveStep(s);
    match received.result
    case Err(e) => InternalErrorExit(received.state, e, None)
    case Ok(request) =>
      if request.kind !in WsAttributes then InternalErrorExit(received.state, AttributeError, None)
      else
        var invoked := Some(Invocation(request.kind, request));
        var ran := WsEndpointStep(route.Attribute(request.kind), request.kind, received.state);
        match ran.result
        case Pass => RouteStep(ran.state, Pass, invoked)
        case Fail(err) => InternalErrorExit(ran.state, err, invoked)
  }

  /** A WebSocketRoute never swallows an exception: a failed receive, a
      type naming no attribute (AttributeError), or an endpoint that raises,
      including an attribute that is no endpoint (TypeError), ends with
      CloseResponse(1011) handed over and that same exception re-raised; an
      endpoint that completes leaves the route's result and state as its
      own. */
  lemma WsNeverSwallows(route: Route, s: W.WsSnap)
    requires route.WebSocketRoute?
    ensures var t := WsRouteStep(route, s);
      var received := W.ReceiveStep(s);
      var closed := received.state.(handed := received.state.handed + [InternalError]);
      && (received.result.Err? ==> t.result == Fail(received.result.error) && t.state == closed)
      && (received.result.Ok? && received.result.value.kind !in WsAttributes ==>
            t.result == Fail(AttributeError) && t.state == closed)
  {
  }

  /** The endpoint's own outcome is the route's: the same exception when it
      raises, after 1011 is handed over; otherwise its state unchanged. */
  lemma WsEndpointOutcome(route: Route, s: W.WsSnap)
    requires route.WebSocketRoute?
    requires W.ReceiveStep(s).result.Ok? && W.ReceiveStep(s).result.value.kind in WsAttributes
    ensures var t := WsRouteStep(route, s);
      var received := W.ReceiveStep(s);
      var kind := received.result.value.kind;
      var ran := WsEndpointStep(route.Attribute(kind), kind, received.state);
      && t.result == ran.result
      && t.state == (if ran.result.Fail? then ran.state.(handed := ran.state.handed + [InternalError]) else ran.state)
      && t.invoked == Some(Invocation(kind, received.result.value))
      && (route.Attribute(kind) == NotEndpoint ==> t.result == Fail(TypeError))
  {
  }

  /** Once a request of kind "connect" is received, the default `connect`
      hands AcceptResponse() to `send_response` and the route completes. */
  lemma WsDefaultConnectRuns(route: Route, s: W.WsSnap)
    requires route.WebSocketRoute? && OnConnect !in route.events
    requires W.ReceiveStep(s).result.Ok? && W.ReceiveStep(s).result.value.kind == "connect"
    ensures var received := W.ReceiveStep(s);
      WsRouteStep(route, s) == RouteStep(W.SendResponseStep(received.state, AcceptResponse()).state, Pass,
                                         Some(Invocation("connect", received.result.value)))
  {
    assert "connect" in WsAttributes && route.Attribute("connect") == Default;
  }

  /** With the default `connect`, a `websocket.connect` message moves the
      connection to connected and hands AcceptResponse() (no subprotocol, no
      headers) to `send_response`; the route completes normally. */
  lemma WsDefaultConnect(route: Route, s: W.WsSnap)
    requires route.WebSocketRoute? && OnConnect !in route.events
    requires s.state != W.Disconnected && s.inbox != []
    requires "type" in s.inbox[0] && s.inbox[0]["type"] == Str("websocket.connect")
    ensures var t := WsRouteStep(route, s);
      && t.result == Pass
      && t.state.state == W.Connected
      && t.state.handed == s.handed + [AcceptResponse(None, [])]
      && t.invoked == Some(Invocation("connect", Request(s.inbox[0] - {"type"}, WEBSOCKET, "connect")))
  {
    W.ReceiveTransitions(s, "connect");
    WsDefaultConnectRuns(route, s);
  }

  /** With the default `receive` and `disconnect`, the route hands nothing
      to `send_response` and completes normally. */
  lemma WsDefaultReceiveDisconnect(route: Route, s: W.WsSnap, kind: string)
    requires route.WebSocketRoute? && kind in {"receive", "disconnect"}
    requires ParseEvent(kind).value !in route.events
    requires s.state != W.Disconnected && s.inbox != []
    requires "type" in s.inbox[0] && s.inbox[0]["type"] == Str(WEBSOCKET + "." + kind)
    ensures var t := WsRouteStep(route, s);
      && t.result == Pass
      && t.state.handed == s.handed
      && t.state.state == (if kind == "disconnect" then W.Disconnected else s.state)
  {
    W.ReceiveTransitions(s, kind);
  }

  /** A message type that names no attribute of the route hands
      CloseResponse(1011) to `send_response` and raises AttributeError. */
  lemma WsUnknownType(route: Route, s: W.WsSnap, kind: string)
    requires route.WebSocketRoute? && '.' !in kind && kind !in WsAttributes
    requires s.state != W.Disconnected && s.inbox != []
    requires "type" in s.inbox[0] && s.inbox[0]["type"] == Str(WEBSOCKET + "." + kind)
    ensures var t := WsRouteStep(route, s);
      && t.result == Fail(AttributeError)
      && t.state.handed == s.handed + [InternalError]
      && t.invoked.None?
  {
    W.ReceiveTransitions(s, kind);
  }

  // ----- Route.__call__ -----

  /** `Route.__call__` then the subclass's: a connection of the other
      protocol raises ProtocolMismatch before anything is received or
      sent. */
  function RouteCallStep(route: Route, scope: Message, c: ConnSnap): (t: RouteStep<ConnSnap>)
    ensures (route.Kind() == HttpProtocol) != c.HttpView? ==> t == RouteStep(c, Fail(ProtocolMismatch), None)
    ensures route.HttpRoute? && c.HttpView? ==>
      var h := HttpRouteStep(route, scope, c.http);
      t == RouteStep(HttpView(h.state), h.result, h.invoked)
    ensures route.WebSocketRoute? && c.WsView? ==>
      var w := WsRouteStep(route, c.ws);
      t == RouteStep(WsView(w.state), w.result, w.invoked)
  {
    match c
    case HttpView(h) =>
      if !route.HttpRoute? then RouteStep(c, Fail(ProtocolMismatch), None)
      else
        var t := HttpRouteStep(route, scope, h);
        RouteStep(HttpView(t.state), t.result, t.invoked)
    case WsView(w) =>
      if !route.WebSocketRoute? then RouteStep(c, Fail(ProtocolMismatch), None)
      else
        var t := WsRouteStep(route, w);
        RouteStep(WsView(t.state), t.result, t.invoked)
  }

  // ----- the route calls, as the source runs them -----

  method InvokeHttpEndpoint(ep: Endpoint, conn: H.HttpConnection) returns (r: Outcome)
    requires conn.Valid()
    modifies conn
    ensures conn.Valid()
    ensures Step(conn.Snap(), r) == HttpEndpointStep(ep, old(conn.Snap()))
  {
    match ep
    case Default =>
      r := conn.SendResponse(MethodNotAllowed);
    case NotEndpoint =>
      r := Fail(TypeError);
    case Custom(reply, raises) =>
      r := Pass;
      if reply.Some? {
        r := conn.SendResponse(reply.value);
      }
      if r.Pass? && raises.Some? {
        r := Fail(Raised(raises.value));
      }
  }

  method CallHttpRoute(route: Route, conn: H.HttpConnection) returns (r: Outcome, invoked: Option<Invocation>)
    requires route.HttpRoute? && conn.Valid()
    modifies conn
    ensures conn.Valid()
    ensures RouteStep(conn.Snap(), r, invoked) == HttpRouteStep(route, conn.scope, old(conn.Snap()))
  {
    invoked := None;
    var endpoint := ResolveMethod(conn.scope);
    if endpoint.Err? {
      r := Fail(endpoint.error);
      if endpoint.error == AttributeError {
        var sent := conn.SendResponse(NotImplemented);
        if sent.Fail? {
          r := sent;
        }
      }
      return;
    }
    var request := conn.ReceiveRequest();
    if request.Err? {
      r := Fail(request.error);
    } else {
      invoked := Some(Invocation(endpoint.value, request.value));
      r := InvokeHttpEndpoint(route.Attribute(endpoint.value), conn);
    }
    if r.Fail? {
      var sent := conn.SendResponse(InternalServerError);
      if sent.Fail? {
        r := sent;
      }
    }
  }

  method InvokeWsEndpoint(ep: Endpoint, name: string, conn: W.WebSocketConnection) returns (r: Outcome)
    modifies conn
    ensures Step(conn.Snap(), r) == WsEndpointStep(ep, name, old(conn.Snap()))
  {
    match ep
    case Default =>
      r := Pass;
      if name == "connect" {
        r := conn.SendResponse(AcceptResponse());
      }
    case NotEndpoint =>
      r := Fail(TypeError);
    case Custom(reply, raises) =>
      r := Pass;
      if reply.Some? {
        r := conn.SendResponse(reply.value);
      }
      if raises.Some? {
        r := Fail(Raised(raises.value));
      }
  }

  method CallWebSocketRoute(route: Route, conn: W.WebSocketConnection) returns (r: Outcome, invoked: Option<Invocation>)
    requires route.WebSocketRoute?
    modifies conn
    ensures RouteStep(conn.Snap(), r, invoked) == WsRouteStep(route, old(conn.Snap()))
  {
    invoked := None;
    var request := conn.ReceiveRequest();
    if request.Err? {
      r := Fail(request.error);
    } else {
      var name := request.value.kind;
      if name !in WsAttributes {
        r := Fail(AttributeError);
      } else {
        invoked := Some(Invocation(name, request.value));
        r := InvokeWsEndpoint(route.Attribute(name), name, conn);
      }
    }
    if r.Fail? {
      var _ := conn.SendResponse(InternalError);
    }
  }

  method CallRoute(route: Route, conn: Connection) returns (r: Outcome, invoked: Option<Invocation>)
    requires conn.Valid()
    modifies conn.Objects()
    ensures conn.Valid()
    ensures RouteStep(conn.Snap(), r, invoked) == RouteCallStep(route, conn.Scope(), old(conn.Snap()))
  {
    match conn
    case HttpConn(c) =>
      if !route.HttpRoute? {
        return Fail(ProtocolMismatch), None;
      }
      r, invoked := CallHttpRoute(route, c);
    case WebSocketConn(c) =>
      if !route.WebSocketRoute? {
        return Fail(ProtocolMismatch), None;
      }
      r, invoked := CallWebSocketRoute(route, c);
  }
}
