# xiao-asgi core, modelled in Dafny

This project models the core of xiao-asgi, a small ASGI web framework:

- the five response classes and the ASGI messages each renders to;
- the HTTP and WebSocket connection classes, over a scope dictionary and a
  receive/send primitive pair;
- `make_connection` and its protocol table;
- the HTTP and WebSocket routes, which dispatch a received request to a named
  endpoint and answer failures with 405/500/501 responses or a 1011 close;
- the `Xiao` application, which hands a connection to the first route with its
  path and answers 404 otherwise.

ASGI dictionaries are `map<string, Value>`. `Value` covers the Python values
that occur in them: None, bool, int, str, bytes, header lists and tuples.
A raised exception is an `Err`/`Fail` carrying an `Error`.

Each connection is a class whose fields the operations update in place:

- the HTTP status (`connection_status`) or the WebSocket state
  (`connection_state`);
- `inbox`, the messages the receive primitive still has to deliver;
- `sent`, everything handed to the send primitive;
- a ghost `handed`, the Response values passed to `send_response`.

Every HTTP operation, and the WebSocket `receive_request` and
`send_response`, is first written as a pure step function on a snapshot of
those fields; the class method is then proved to act exactly as that
function says. The WebSocket `accept_connection`, `close_connection`,
`send_bytes` and `send_text` each change one or two fields, and their
methods state the new fields directly. Route and application behaviour is composed from the same
step functions (`HttpRouteStep`, `WsRouteStep`, `RouteCallStep`, `AppStep`).
The imperative route calls and `Xiao.Call` are proved equal to them.

Main invariant: a HTTP connection's sent log always agrees with its status.
- open: nothing sent;
- closing: one start message followed by `more_body` True bodies;
- closed: such a response ended by exactly one `more_body` False body.

Every send and every route preserves this.

Modules, one per file: `Errors`, `Strings` (`str.split` and `str.lower`),
`Wire` (values, bytes and message shapes), `Requests`, `Responses`,
`Connections` (what all connections share), `HttpConnections`,
`WebSocketConnections`, `Protocols` (`make_connection`), `Routing`,
`Applications`.

## Model

| member | source | states |
|---|---|---|
| Strings.Split | xiao_asgi/connections.py:182 | `str.split` on one character yields one more part than there are separators, none containing the separator |
| Strings.JoinSplit | xiao_asgi/connections.py:182 | joining the parts of a split with the separator gives back the string |
| Strings.SplitJoin | xiao_asgi/connections.py:182 | splitting a join of separator-free parts gives back the parts |
| Strings.SplitInTwo | xiao_asgi/connections.py:182 | a split yields exactly `[a, b]` iff the string is `a + "." + b` with neither part containing "." (so unpacking into two names succeeds) |
| Strings.Lower | xiao_asgi/routing.py:250 | `lower()` keeps the length, maps each ASCII letter to lower case and leaves no upper-case letter |
| Wire.Latin1Decode | xiao_asgi/connections.py:116 | `.decode("latin-1")`: one character per byte, each with that byte's code |
| Wire.Latin1Injective | xiao_asgi/connections.py:115-118 | distinct byte strings decode to distinct strings |
| Wire.StartMessage | xiao_asgi/connections.py:254-260 | the start message has exactly the type, status and headers keys, carrying the given status and headers |
| Wire.BodyMessage | xiao_asgi/connections.py:209-215 | the body message has exactly type, body and more_body, and is a body with the given `more_body` flag and not the other |
| Wire.AcceptMessage | xiao_asgi/connections.py:300-306 | the accept message has type `websocket.accept`, the subprotocol (None when absent) and the headers |
| Wire.BytesMessage | xiao_asgi/connections.py:352-357 | `send_bytes` sends `websocket.send` with only a bytes payload, no text key |
| Wire.TextMessage | xiao_asgi/connections.py:365-370 | `send_text` sends `websocket.send` with only a text payload, no bytes key |
| Wire.CloseMessage | xiao_asgi/connections.py:317 | the close message has type `websocket.close` and the given code |
| Wire.SendMessage | xiao_asgi/responses.py:140-145 | a MessageResponse message always carries both the bytes and the text key, None when unset |
| Wire.FinishedResponseFacts | xiao_asgi/responses.py:57-60 | in a complete HTTP response only the first message is a start and only the last is a body with `more_body` False |
| Responses.ChunkMessages | xiao_asgi/responses.py:104-107 | one `more_body` True body message per chunk, in order |
| Responses.RenderMessages | xiao_asgi/responses.py:62-153 | every HTTP response renders to a complete start-then-bodies response; each WebSocket response renders to one message; a BodyResponse to 2 messages, a StreamResponse to chunks + 2; every message carries the response's protocol |
| Responses.BodyRendering | xiao_asgi/responses.py:62-80 | a BodyResponse renders its status and headers in a start message, then its body with `more_body` False |
| Responses.StreamRendering | xiao_asgi/responses.py:90-109 | a StreamResponse renders the start message, each chunk with `more_body` True, then an empty body with `more_body` False |
| Responses.AcceptRendering | xiao_asgi/responses.py:125-130 | an AcceptResponse renders one accept message with its subprotocol and headers |
| Responses.MessageRendering | xiao_asgi/responses.py:140-145 | a MessageResponse renders one send message with its bytes and text |
| Responses.CloseRendering | xiao_asgi/responses.py:152-153 | a CloseResponse renders one close message with its code |
| Connections.CheckScopeType | xiao_asgi/connections.py:96-102 | construction succeeds iff the scope's type is the class's protocol ; when it fails, the error is KeyError("type") for a missing type and ValueError for any other |
| Connections.SelectProtocol | xiao_asgi/connections.py:373-396 | "http" and "websocket" select their class, which then accepts the scope; the type is the selected protocol's name; any other type is ProtocolUnknown, except an unhashable one, which is an uncaught TypeError |
| Connections.HeaderMap | xiao_asgi/connections.py:115-118 | the header dictionary's names are exactly the Latin-1 decoded names of the pairs |
| Connections.HeaderMapLastWins | xiao_asgi/connections.py:115-118 | each name maps to the decoded value of its last pair |
| Connections.TupleHeaders | xiao_asgi/connections.py:115-118 | a tuple of entries yields its pairs in order exactly when every entry is a pair of bytes; otherwise the first entry that is not raises its own error |
| Connections.ScopeHeaders | xiao_asgi/connections.py:108-118 | `headers` is empty without a headers entry or with an empty str or bytes value, the decoded dictionary for a list, and for a tuple exactly when its entries are byte pairs, else the first bad entry's error; a non-empty str fails to unpack; non-empty bytes, None, a bool or an int raise TypeError |
| Connections.TupleHeadersAsList | xiao_asgi/connections.py:115-118 | a tuple of (bytes, bytes) tuples gives the same dictionary as the list of those pairs |
| Connections.Url | xiao_asgi/connections.py:120-135 | `url` always has the five keys, each the scope's value or None |
| Connections.ParseRequest | xiao_asgi/connections.py:181-186 | a received message parses iff its type is a string with exactly one "." (KeyError, TypeError, AttributeError, unpacking ValueError otherwise); the request is the type's two halves and the message without its type |
| Connections.ParseRequestOfType | xiao_asgi/connections.py:175-186 | every message typed `protocol.kind` parses back to exactly that protocol and kind |
| HttpConnections.SendStartStep | xiao_asgi/connections.py:235-262 | `send_start` succeeds iff open, then sends one start message and moves to closing; otherwise InvalidConnectionState and nothing changes; the sent log stays consistent with the status |
| HttpConnections.SendBodyStep | xiao_asgi/connections.py:188-218 | `send_body` succeeds iff closing, sends one body message and closes exactly when `more_body` is False; otherwise InvalidConnectionState and nothing changes |
| HttpConnections.StartedGrows | xiao_asgi/connections.py:217-218 | a `more_body` True body keeps a response under way; a False one completes it |
| HttpConnections.NothingAfterClosed | xiao_asgi/connections.py:203-207 | once closed, neither `send_start` nor `send_body` sends anything |
| HttpConnections.SendResponseStep | xiao_asgi/connections.py:220-233 | on an open connection a BodyResponse goes out as exactly the messages it renders to and closes the connection; on any other status it fails and sends nothing; any other response raises AttributeError |
| HttpConnections.ReceiveStep | xiao_asgi/connections.py:175-186 | receiving consumes exactly one message and parses it; status and sent log are untouched |
| HttpConnections.ReceiveAnyKind | xiao_asgi/connections.py:181-186 | any `http.<kind>` message is accepted as a request of that kind |
| HttpConnections.HttpConnection.constructor | xiao_asgi/connections.py:160-164 | a new connection is open, has sent nothing, and keeps its scope |
| HttpConnections.HttpConnection.SendStart | xiao_asgi/connections.py:235-262 | acts exactly as SendStartStep and keeps the sent log consistent with the status |
| HttpConnections.HttpConnection.SendBody | xiao_asgi/connections.py:188-218 | acts exactly as SendBodyStep |
| HttpConnections.RenderResponse | xiao_asgi/connections.py:226 | assumed: a BodyResponse renders to its status, headers and body with `more_body` False; any other response has no `render_response` (AttributeError) |
| HttpConnections.HttpConnection.SendResponse | xiao_asgi/connections.py:220-233 | acts exactly as SendResponseStep |
| HttpConnections.HttpConnection.ReceiveRequest | xiao_asgi/connections.py:175-186 | acts exactly as ReceiveStep |
| HttpConnections.NewHttpConnection | xiao_asgi/connections.py:83-106 | direct construction fails iff the scope type is not "http", with CheckScopeType's error; otherwise a fresh open connection |
| WebSocketConnections.ReceiveStep | xiao_asgi/connections.py:320-344 | a disconnected connection refuses to receive and consumes nothing; otherwise one message is consumed and parsed, and the state follows its type; a failed parse leaves the state |
| WebSocketConnections.ReceiveTransitions | xiao_asgi/connections.py:337-340 | connect moves to connected, disconnect to disconnected, any other type leaves the state |
| WebSocketConnections.WebSocketConnection.constructor | xiao_asgi/connections.py:279-283 | a new connection is connecting and has sent nothing |
| WebSocketConnections.WebSocketConnection.AcceptConnection | xiao_asgi/connections.py:285-307 | sends one accept message and moves to accepted, from any state |
| WebSocketConnections.WebSocketConnection.CloseConnection | xiao_asgi/connections.py:309-318 | sends one close message and moves to closed, from any state |
| WebSocketConnections.WebSocketConnection.ReceiveRequest | xiao_asgi/connections.py:320-344 | acts exactly as ReceiveStep |
| WebSocketConnections.WebSocketConnection.SendBytes | xiao_asgi/connections.py:346-357 | sends one bytes message; the state is unchanged |
| WebSocketConnections.WebSocketConnection.SendText | xiao_asgi/connections.py:359-370 | sends one text message; the state is unchanged |
| WebSocketConnections.SendResponseStep | xiao_asgi/routing.py:284 | assumed, since the class defines no `send_response`: the response is recorded as handed over, the call succeeds, nothing is sent and the state is unchanged |
| WebSocketConnections.WebSocketConnection.SendResponse | xiao_asgi/routing.py:325 | assumed as SendResponseStep: records the response and succeeds |
| WebSocketConnections.NewWebSocketConnection | xiao_asgi/connections.py:83-106 | direct construction fails iff the scope type is not "websocket"; otherwise a fresh connecting connection |
| Protocols.MakeConnection | xiao_asgi/connections.py:373-396 | fails iff the protocol lookup fails, with its error; otherwise a fresh connection of the selected class, on the scope, in its initial state |
| Routing.ParseMethod | xiao_asgi/routing.py:72-188 | exactly the nine lower-case method names name an endpoint, each its own |
| Routing.ParseEvent | xiao_asgi/routing.py:272-312 | exactly connect, receive and disconnect name a WebSocket endpoint |
| Routing.Route.Attribute | xiao_asgi/routing.py:37-46 | `get_endpoint` finds the (possibly overridden) endpoint of a method or event name, and, for the route's other names, an attribute that is no endpoint, whose call with a connection and a request raises TypeError |
| Routing.Reraise | xiao_asgi/routing.py:251-253 | an except handler that sends then re-raises always ends in an exception, the original one when the send succeeded |
| Routing.ResolveMethod | xiao_asgi/routing.py:249-250 | KeyError without a method, TypeError for bytes, AttributeError for other non-strings and for names the route lacks; otherwise the lower-cased name |
| Routing.HttpEndpointStep | xiao_asgi/routing.py:72-188 | a default endpoint hands 405 to `send_response`; a non-endpoint attribute raises TypeError; nothing is received |
| Routing.HttpRouteStep | xiao_asgi/routing.py:233-260 | non-AttributeError lookup failures escape untouched; otherwise the route receives at most one message; the endpoint is called with exactly the parsed first message; the route completes only if a method endpoint ran; the sent log stays consistent |
| Routing.HttpEndpointOutcome | xiao_asgi/routing.py:255-260 | after the method resolved and a request was received, the endpoint is called with that request; a completed endpoint leaves the route completed in the endpoint's own state, a raising one gets 500 handed over in that state and its exception re-raised |
| Routing.HttpUnresolvedMethod | xiao_asgi/routing.py:249-253 | a method that raises AttributeError when lowered or looked up (a str naming no attribute, or a None, int, bool, list or tuple, which has no `lower`) hands 501 to `send_response`, receives nothing and re-raises AttributeError |
| Routing.GetResolves | xiao_asgi/routing.py:250 | a method of "GET" lower-cases to the `get` endpoint |
| Routing.HttpDefaultEndpoint | xiao_asgi/routing.py:72-82 | a default endpoint on an open connection sends the 405 response as its two messages and completes |
| Routing.HttpReceiveFailureSends500 | xiao_asgi/routing.py:255-260 | a failed receive sends 500 and re-raises the receive error without calling any endpoint |
| Routing.HttpEndpointFailureSends500 | xiao_asgi/routing.py:255-260 | an endpoint that raises before sending anything is called with the received request, then 500 is sent and that same exception re-raised |
| Routing.HttpNeverSwallows | xiao_asgi/routing.py:255-260 | after the lookup, the route fails exactly when receiving or the endpoint failed, and then 500 is the last response handed over |
| Routing.HttpNonEndpointAttribute | xiao_asgi/routing.py:250-260 | a method naming a route attribute that is not one of the nine endpoints is received for, then raises TypeError after 500 is sent |
| Routing.WsEndpointStep | xiao_asgi/routing.py:272-312 | the default connect hands AcceptResponse() to `send_response`; the default receive and disconnect do nothing |
| Routing.InternalErrorExit | xiao_asgi/routing.py:314-325 | the handler hands CloseResponse(1011) over and re-raises the error |
| Routing.WsRouteStep | xiao_asgi/routing.py:327-349 | the route sends nothing itself, receives at most one message and re-raises receive errors; every failure ends with 1011 handed over last; a completed route called a WebSocket endpoint with the received request |
| Routing.WsNeverSwallows | xiao_asgi/routing.py:343-349 | a failed receive, or a type naming no attribute (AttributeError), hands 1011 over and re-raises that same exception |
| Routing.WsEndpointOutcome | xiao_asgi/routing.py:343-349 | the route's outcome is its endpoint's: the same exception re-raised after 1011 is handed over, TypeError for an attribute that is no endpoint, and the endpoint's own state when it completes |
| Routing.WsDefaultConnectRuns | xiao_asgi/routing.py:272-284 | once a connect request is received, the default endpoint hands AcceptResponse() over and the route completes |
| Routing.WsDefaultConnect | xiao_asgi/routing.py:272-284 | a connect message with the default endpoint moves to connected and hands AcceptResponse() over |
| Routing.WsDefaultReceiveDisconnect | xiao_asgi/routing.py:286-312 | the default receive and disconnect hand nothing over and complete |
| Routing.WsUnknownType | xiao_asgi/routing.py:343-349 | a type that names no route attribute hands 1011 over and raises AttributeError |
| Routing.RouteCallStep | xiao_asgi/routing.py:48-60 | a connection of the other protocol raises ProtocolMismatch before anything is received or sent |
| Routing.InvokeHttpEndpoint | xiao_asgi/routing.py:72-188 | runs the endpoint exactly as HttpEndpointStep |
| Routing.CallHttpRoute | xiao_asgi/routing.py:233-260 | runs the route exactly as HttpRouteStep and keeps the connection valid |
| Routing.InvokeWsEndpoint | xiao_asgi/routing.py:272-312 | runs the endpoint exactly as WsEndpointStep |
| Routing.CallWebSocketRoute | xiao_asgi/routing.py:327-349 | runs the route exactly as WsRouteStep |
| Routing.CallRoute | xiao_asgi/routing.py:48-60 | runs the route exactly as RouteCallStep on either connection class |
| Applications.FirstMatch | xiao_asgi/applications.py:43-44 | the chosen index is the first route whose path equals `url["path"]`; none is chosen only when no route's path does |
| Applications.Dispatch | xiao_asgi/applications.py:43-55 | with a connection made, the call never raises; the route chosen is the first match; a match sends nothing raw, no match sends the 404 messages and leaves the connection untouched |
| Applications.AppStep | xiao_asgi/applications.py:29-55 | only `make_connection` can make the call raise; a matched route's errors are swallowed and nothing is sent raw; without a match the connection is untouched and the 404 messages go out |
| Applications.NotFoundResponse | xiao_asgi/applications.py:52-55 | the 404 is one complete HTTP response, status 404, no headers, body "Not Found", for either protocol |
| Applications.RouteErrorsSwallowed | xiao_asgi/applications.py:45-50 | whatever the route does, the call returns normally with the route's effects and no raw message |
| Applications.MismatchSendsNothing | xiao_asgi/applications.py:43-50 | a route of the other protocol at the path leads to nothing received and nothing sent, not even a 404 |
| Applications.HttpScopeDispatches | xiao_asgi/applications.py:41-43 | an HTTP scope makes an open connection that has received and sent nothing, and the call dispatches on it |
| Applications.MatchedHttpRoute | xiao_asgi/applications.py:41-50 | for an HTTP scope whose path an HttpRoute has, the application's run is exactly that route's run on a fresh open connection, with nothing sent raw |
| Applications.DefaultEndpointAnswers405 | xiao_asgi/applications.py:41-50 | end to end: a request whose method resolves to an endpoint the matched HttpRoute keeps at its default is received and answered with exactly the 405 messages; the connection ends closed |
| Applications.Xiao.constructor | xiao_asgi/applications.py:20-27 | the application keeps the routes it is given, in order |
| Applications.Xiao.FindRoute | xiao_asgi/applications.py:43-44 | the loop stops at the first route whose path equals the connection's path, and finds none only when no route has it |
| Applications.Xiao.SendNotFound | xiao_asgi/applications.py:52-55 | the send loop hands out exactly the 404 response's messages, which form one complete HTTP response |
| Applications.Xiao.Serve | xiao_asgi/applications.py:43-55 | serving a made connection changes it and sends raw exactly as Dispatch says |
| Applications.Xiao.Call | xiao_asgi/applications.py:29-55 | serves a connection exactly as AppStep, first-match loop and 404 send loop included |

## Left out

- Concurrency and the transport. `receive` is a finite inbox and `send` an
  append-only log. An empty inbox fails with `NoMessage`, where the real
  primitive would wait.
- Logging of swallowed exceptions in `Xiao.__call__`. Only the fact that the
  exception is swallowed is modelled.
- `render_response`, which `HttpConnection.send_response` calls, is defined
  by no response class. The model assumes it yields a BodyResponse's status,
  headers and body with `more_body` False. For every other response the
  lookup fails with AttributeError, as it does in the code.
- `WebSocketConnection` has no `send_response`, although the WebSocket
  route calls it. The model assumes a step that records the response and
  succeeds. What that step would send or how it would change the state is
  not modelled.
- `getattr` on a route is a finite table. It covers the nine HTTP method
  endpoints, the three WebSocket endpoints, the other attributes each route
  class defines (`path`, `protocol`, `get_endpoint`, the error senders),
  the classes' own `__init__` and `__call__`, and the `_abc_impl` that ABC
  adds; calling any of those others raises TypeError. Any other attribute,
  such as the names inherited from `object` (`__class__`, `__doc__`,
  `__subclasshook__`), is absent from the table and resolves as
  AttributeError in the model, whereas the code finds it and mostly fails
  with TypeError when calling it.
- Application endpoints are `Custom(reply, raises)`. Such an endpoint hands
  at most one response to `send_response` and may then raise. Arbitrary user
  code is not modelled.
- Strings.Lower: maps only ASCII letters, not the full Unicode case mapping
  of `str.lower`.
- Responses.RenderMessages: a StreamResponse body is taken as a sequence of
  byte chunks. A `bytes` body, over which the code would iterate as
  integers, is not modelled. A status, code or headers value passed
  explicitly as None is not modelled either.
- Connections.ScopeHeaders: an entry of a header list is a byte pair by
  type, so a malformed entry inside a list is not modelled; malformed
  entries inside a tuple, and headers values of every other kind, are.
  Iterables the value type cannot express (dicts, sets, generators) are not
  modelled.
- `Request` is a plain record. Its own module holds no behaviour.
- Where the code and its tests or docstrings disagree, the model follows
  the code:
  - construction checks the scope's type (xiao_asgi/connections.py:96-102),
    so the empty scope used in tests/unit/test_connections.py:222-232
    raises KeyError;
  - nothing checks the protocol prefix of a sent message, although the
    ProtocolMismatch docstring (xiao_asgi/connections.py:46-51) and
    tests/unit/test_connections.py:131-147 describe such a check;
  - HTTP `receive_request` (xiao_asgi/connections.py:175-186) accepts any
    `http.<kind>` type, although tests/unit/test_connections.py:222-232
    expects "http.invalid" to be refused;
  - the 404 for an unmatched path (xiao_asgi/applications.py:52-55) is sent
    as HTTP messages even on a WebSocket connection.
