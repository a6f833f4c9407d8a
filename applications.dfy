/** The Xiao application: make a connection for the scope, hand it to the
    first route whose path is the connection's path, and answer 404 Not
    Found through the raw send primitive when no route has that path. */
module Applications {
  import opened Errors
  import opened Wire
  import opened Requests
  import opened Responses
  import opened Connections
  import opened Protocols
  import opened Routing

  /** The index of the first route whose path equals `url["path"]`. The
      comparison is Python's `==` with a str, so only a string value with
      the same characters matches (a missing path is None and matches
      nothing). */
  function FirstMatch(routes: seq<Route>, path: Value): (i: Option<nat>)
    ensures i.Some? ==> i.value < |routes| && path == Str(routes[i.value].path)
    ensures i.Some? ==> forall j :: 0 <= j < i.value ==> path != Str(routes[j].path)
    ensures i.None? ==> forall j :: 0 <= j < |routes| ==> path != Str(routes[j].path)
  {
    if routes == [] then None
    else if path == Str(routes[0].path) then Some(0)
    else
      match FirstMatch(routes[1..], path)
      case None => None
      case Some(k) => Some(k + 1)
  }

  /** The body b"Not Found", byte by byte. */
  const NotFoundBody: Bytes := [0x4E, 0x6F, 0x74, 0x20, 0x46, 0x6F, 0x75, 0x6E, 0x64]

  const NotFound: Response := BodyResponse(404, [], NotFoundBody)

  /** What one call of the application did: whether it raised, the
      connection it made, the route it chose and what that route's endpoint
      was called with, and the messages it sent itself through the raw send
      primitive. */
  datatype AppRun = AppRun(
    result: Outcome,
    connection: Option<ConnSnap>,
    route: Option<nat>,
    invoked: Option<Invocation>,
    raw: seq<Message>)

  /** `Xiao.__call__` once the connection exists: the scan for the first
      route whose path is the connection's, then either that route's call,
      whose exception is logged and swallowed, or the 404 through the raw
      send primitive, which leaves the connection untouched. */
  function Dispatch(routes: seq<Route>, scope: Message, c: ConnSnap): (r: AppRun)
    ensures r.result == Pass && r.connection.Some?
    ensures r.route == FirstMatch(routes, Url(scope)["path"])
    ensures r.route.Some? ==> r.raw == []
    ensures r.route.None? ==> r.raw == RenderMessages(NotFound) && r.connection == Some(c) && r.invoked.None?
  {
    match FirstMatch(routes, Url(scope)["path"])
    case Some(i) =>
      var t := RouteCallStep(routes[i], scope, c);
      AppRun(Pass, Some(t.state), Some(i), t.invoked, [])
    case None => AppRun(Pass, Some(c), None, None, RenderMessages(NotFound))
  }

  /** `Xiao.__call__`. Only `make_connection` can make the call raise
      (ProtocolUnknown, or TypeError for an unhashable type); whatever the
      chosen route raises is swallowed; the 404 goes out only when no route
      has the path. */
  function AppStep(routes: seq<Route>, scope: Message, inbox: seq<Message>): (r: AppRun)
    ensures r.result.Fail? <==> SelectProtocol(scope).Err?
    ensures r.result.Fail? ==> r == AppRun(Fail(SelectProtocol(scope).error), None, None, None, [])
    ensures r.result.Pass? ==> r.connection.Some? && r.route == FirstMatch(routes, Url(scope)["path"])
    ensures r.route.Some? ==> r.raw == []
    ensures r.result.Pass? && r.route.None? ==>
      && (forall j :: 0 <= j < |routes| ==> Url(scope)["path"] != Str(routes[j].path))
      && r.raw == RenderMessages(NotFound)
      && r.connection == Some(Initial(SelectProtocol(scope).value, inbox))
      && r.invoked.None?
  {
    match SelectProtocol(scope)
    case Err(e) => AppRun(Fail(e), None, None, None, [])
    case Ok(p) => Dispatch(routes, scope, Initial(p, inbox))
  }

  /** The 404 is one complete HTTP response: a start message with status 404
      and no headers, then the body "Not Found" with `more_body` False. It
      is sent for a WebSocket scope just the same. */
  lemma NotFoundResponse(routes: seq<Route>, scope: Message, inbox: seq<Message>)
    requires SelectProtocol(scope).Ok?
    requires forall j :: 0 <= j < |routes| ==> Url(scope)["path"] != Str(routes[j].path)
    ensures var r := AppStep(routes, scope, inbox);
      && FinishedResponse(r.raw) && |r.raw| == 2
      && r.raw[0]["status"] == Int(404) && r.raw[0]["headers"] == HeaderList([])
      && r.raw[1]["body"] == Blob(NotFoundBody)
      && r.connection == Some(Initial(SelectProtocol(scope).value, inbox))
  {
    BodyRendering(404, [], NotFoundBody);
  }

  /** Whatever the chosen route raises, the application returns normally
      and sends nothing of its own. */
  lemma RouteErrorsSwallowed(routes: seq<Route>, scope: Message, inbox: seq<Message>, i: nat)
    requires SelectProtocol(scope).Ok? && FirstMatch(routes, Url(scope)["path"]) == Some(i)
    ensures var r := AppStep(routes, scope, inbox);
      var t := RouteCallStep(routes[i], scope, Initial(SelectProtocol(scope).value, inbox));
      && r.result == Pass && r.raw == []
      && r.connection == Some(t.state) && r.invoked == t.invoked
  {
  }

  /** A route of the other protocol at the path raises ProtocolMismatch,
      which is swallowed: nothing is received and nothing at all is sent,
      not even the 404. */
  lemma MismatchSendsNothing(routes: seq<Route>, scope: Message, inbox: seq<Message>, i: nat)
    requires SelectProtocol(scope).Ok? && FirstMatch(routes, Url(scope)["path"]) == Some(i)
    requires routes[i].Kind() != SelectProtocol(scope).value
    ensures var r := AppStep(routes, scope, inbox);
      && r.result == Pass && r.raw == [] && r.invoked.None?
      && r.connection == Some(Initial(SelectProtocol(scope).value, inbox))
  {
  }

  /** An HTTP scope makes an open HttpConnection that has received and sent
      nothing, and the application dispatches on it. */
  lemma HttpScopeDispatches(routes: seq<Route>, scope: Message, inbox: seq<Message>)
    requires "type" in scope && scope["type"] == Str(HTTP)
    ensures AppStep(routes, scope, inbox)
         == Dispatch(routes, scope, HttpView(HttpConnections.HttpSnap(HttpConnections.Open, inbox, [], [])))
  {
    assert SelectProtocol(scope) == Ok(HttpProtocol);
  }

  /** An HTTP scope whose path a HttpRoute has: the application's run is
      that route's run on a fresh open connection. */
  lemma MatchedHttpRoute(routes: seq<Route>, scope: Message, inbox: seq<Message>, i: nat)
    requires "type" in scope && scope["type"] == Str(HTTP)
    requires FirstMatch(routes, Url(scope)["path"]) == Some(i)
    requires i < |routes| && routes[i].HttpRoute?
    ensures var t := HttpRouteStep(routes[i], scope, HttpConnections.HttpSnap(HttpConnections.Open, inbox, [], []));
      AppStep(routes, scope, inbox) == AppRun(Pass, Some(HttpView(t.state)), Some(i), t.invoked, [])
  {
    HttpScopeDispatches(routes, scope, inbox);
  }

  /** End to end: a request whose method resolves to an endpoint the
      matched HttpRoute keeps at its default is received, and answered with
      405 Method Not Allowed as exactly the two messages that response
      renders to; the connection ends closed. */
  lemma DefaultEndpointAnswers405(routes: seq<Route>, scope: Message, inbox: seq<Message>, i: nat, m: HttpMethod)
    requires "type" in scope && scope["type"] == Str(HTTP)
    requires ResolveMethod(scope) == Ok(MethodName(m))
    requires FirstMatch(routes, Url(scope)["path"]) == Some(i)
    requires routes[i].HttpRoute? && m !in routes[i].methods
    requires inbox != [] && ParseRequest(inbox[0]).Ok?
    ensures var r := AppStep(routes, scope, inbox);
      && r.result == Pass && r.raw == []
      && r.invoked == Some(Invocation(MethodName(m), ParseRequest(inbox[0]).value))
      && r.connection == Some(HttpView(HttpConnections.HttpSnap(
           HttpConnections.Closed, inbox[1..], RenderMessages(MethodNotAllowed), [MethodNotAllowed])))
  {
    var s := HttpConnections.HttpSnap(HttpConnections.Open, inbox, [], []);
    MatchedHttpRoute(routes, scope, inbox, i);
    HttpDefaultEndpoint(routes[i], scope, s, m);
    var t := HttpRouteStep(routes[i], scope, s);
    assert [] + RenderMessages(MethodNotAllowed) == RenderMessages(MethodNotAllowed);
    assert [] + [MethodNotAllowed] == [MethodNotAllowed];
    assert t.state == HttpConnections.HttpSnap(
      HttpConnections.Closed, inbox[1..], RenderMessages(MethodNotAllowed), [MethodNotAllowed]);
  }

  /** The application: its routes, tried in order. */
  class Xiao {
    const routes: seq<Route>

    constructor (routes: seq<Route>)
      ensures this.routes == routes
    {
      this.routes := routes;
    }

    /** The scan `for route in self._routes` for the first route whose path
        is the connection's. */
    method FindRoute(path: Value) returns (found: Option<nat>)
      ensures found == FirstMatch(routes, path)
    {
      var i := 0;
      while i < |routes|
        invariant 0 <= i <= |routes|
        invariant forall j :: 0 <= j < i ==> path != Str(routes[j].path)
      {
        if path == Str(routes[i].path) {
          return Some(i);
        }
        i := i + 1;
      }
      return None;
    }

    /** The loop handing each message of the 404 response to the raw send
        primitive; what it sends is one complete HTTP response. */
    method SendNotFound() returns (raw: seq<Message>)
      ensures raw == RenderMessages(NotFound) && FinishedResponse(raw)
    {
      var messages := RenderMessages(NotFound);
      raw := [];
      for k := 0 to |messages|
        invariant raw == messages[..k]
      {
        raw := raw + [messages[k]];
      }
    }

    /** Routes one connection, as Dispatch says. */
    method Serve(c: Connection) returns (route: Option<nat>, invoked: Option<Invocation>, raw: seq<Message>)
      requires c.Valid()
      modifies c.Objects()
      ensures c.Valid()
      ensures AppRun(Pass, Some(c.Snap()), route, invoked, raw) == Dispatch(routes, c.Scope(), old(c.Snap()))
    {
      route := FindRoute(Url(c.Scope())["path"]);
      if route.Some? {
        var _, called := CallRoute(routes[route.value], c);
        return route, called, [];
      }
      raw := SendNotFound();
      return None, None, raw;
    }

    /** Serves one scope. The connection reads its messages from `inbox`;
        `raw` is what the application itself sends. */
    method Call(scope: Message, inbox: seq<Message>)
      returns (r: Outcome, conn: Option<Connection>, route: Option<nat>, invoked: Option<Invocation>, raw: seq<Message>)
      ensures conn.Some? ==> fresh(conn.value.Objects()) && conn.value.Valid() && conn.value.Scope() == scope
      ensures AppRun(r, if conn.Some? then Some(conn.value.Snap()) else None, route, invoked, raw)
              == AppStep(routes, scope, inbox)
    {
      var made := MakeConnection(scope, inbox);
      if made.Err? {
        return Fail(made.error), None, None, None, [];
      }
      var c := made.value;
      route, invoked, raw := Serve(c);
      return Pass, Some(c), route, invoked, raw;
    }
  }
}
