/** The `protocols` table and `make_connection`: a connection of the class
    the scope's type names. */
module Protocols {
  import opened Errors
  import opened Wire
  import opened Connections
  import opened HttpConnections
  import opened WebSocketConnections

  /** A connection of either class. */
  datatype Connection = HttpConn(http: HttpConnection) | WebSocketConn(ws: WebSocketConnection)
  {
    function Objects(): set<object>
    {
      if HttpConn? then {http} else {ws}
    }

    function Scope(): Message
    {
      if HttpConn? then http.scope else ws.scope
    }

    function Kind(): Protocol
    {
      if HttpConn? then HttpProtocol else WebSocketProtocol
    }

    ghost function Snap(): ConnSnap
      reads Objects()
    {
      if HttpConn? then HttpView(http.Snap()) else WsView(ws.Snap())
    }

    ghost predicate Valid()
      reads Objects()
    {
      HttpConn? ==> http.Valid()
    }
  }

  /** What can be observed of a connection of either class. */
  datatype ConnSnap = HttpView(http: HttpSnap) | WsView(ws: WsSnap)

  /** A freshly made connection: open (HTTP) or connecting (WebSocket),
      nothing received, nothing sent. */
  function Initial(p: Protocol, inbox: seq<Message>): ConnSnap
  {
    match p
    case HttpProtocol => HttpView(HttpSnap(Open, inbox, [], []))
    case WebSocketProtocol => WsView(WsSnap(Connecting, inbox, [], []))
  }

  /** `make_connection`: the lookup's error for a scope type with no class;
      otherwise a fresh connection of that class, whose construction cannot
      fail. */
  method MakeConnection(scope: Message, inbox: seq<Message>) returns (r: Result<Connection>)
    ensures r.Err? <==> SelectProtocol(scope).Err?
    ensures r.Err? ==> r.error == SelectProtocol(scope).error
    ensures r.Ok? ==> fresh(r.value.Objects()) && r.value.Scope() == scope && r.value.Valid()
    ensures r.Ok? ==> r.value.Kind() == SelectProtocol(scope).value
    ensures r.Ok? ==> r.value.Snap() == Initial(r.value.Kind(), inbox)
  {
    var selected := SelectProtocol(scope);
    if selected.Err? {
      return Err(selected.error);
    }
    match selected.value
    case HttpProtocol =>
      var c := new HttpConnection(scope, inbox);
      r := Ok(HttpConn(c));
    case WebSocketProtocol =>
      var c := new WebSocketConnection(scope, inbox);
      r := Ok(WebSocketConn(c));
  }
}
