/** WebSocketConnection: one `connection_state` that receiving and the
    accept and close sends move between five values. */
module WebSocketConnections {
  import opened Errors
  import opened Wire
  import opened Requests
  import opened Responses
  import opened Connections

  /** The five values the source assigns to `connection_state`. */
  datatype WsState = Connecting | Connected | Disconnected | Accepted | Closed

  /** What can be observed of a WebSocketConnection; `handed` records the
      Response values handed to `send_response`. */
  datatype WsSnap = WsSnap(state: WsState, inbox: seq<Message>, sent: seq<Message>, handed: seq<Response>)

  /** The state after receiving a message of the given type. */
  function NextState(state: WsState, kind: string): WsState
  {
    if kind == "connect" then Connected
    else if kind == "disconnect" then Disconnected
    else state
  }

  /** `receive_request`: refused without consuming anything once
      disconnected; otherwise consumes exactly one message, parses it, and
      updates the state by its type. A failed parse leaves the state as it
      was. Nothing is sent. */
  function ReceiveStep(s: WsSnap): (t: Step<WsSnap, Result<Request>>)
    ensures s.state == Disconnected ==> t == Step(s, Err(InvalidConnectionState))
    ensures s.state != Disconnected && s.inbox == [] ==> t == Step(s, Err(NoMessage))
    ensures s.state != Disconnected && s.inbox != [] ==>
      t.state.inbox == s.inbox[1..] && t.result == ParseRequest(s.inbox[0])
    ensures t.state.sent == s.sent && t.state.handed == s.handed
    ensures t.result.Ok? ==> t.state.state == NextState(s.state, t.result.value.kind)
    ensures t.result.Err? ==> t.state.state == s.state
  {
    if s.state == Disconnected then Step(s, Err(InvalidConnectionState))
    else if s.inbox == [] then Step(s, Err(NoMessage))
    else
      var rest := s.(inbox := s.inbox[1..]);
      match ParseRequest(s.inbox[0])
      case Err(e) => Step(rest, Err(e))
      case Ok(request) => Step(rest.(state := NextState(s.state, request.kind)), Ok(request))
  }

  /** A `websocket.connect` message moves any state but disconnected to
      connected, and a `websocket.disconnect` message to disconnected; any
      other kind leaves the state unchanged. */
  lemma ReceiveTransitions(s: WsSnap, kind: string)
    requires s.state != Disconnected && s.inbox != [] && '.' !in kind
    requires "type" in s.inbox[0] && s.inbox[0]["type"] == Str(WEBSOCKET + "." + kind)
    ensures ReceiveStep(s).result == Ok(Request(s.inbox[0] - {"type"}, WEBSOCKET, kind))
    ensures kind == "connect" ==> ReceiveStep(s).state.state == Connected
    ensures kind == "disconnect" ==> ReceiveStep(s).state.state == Disconnected
    ensures kind != "connect" && kind != "disconnect" ==> ReceiveStep(s).state.state == s.state
  {
    ParseRequestOfType(s.inbox[0], WEBSOCKET, kind);
  }

  /** The class has no `send_response`, yet routes call it. The model
      assumes it as a step that records the response handed over and
      succeeds, sending nothing on its own. */
  function SendResponseStep(s: WsSnap, response: Response): (t: Step<WsSnap, Outcome>)
    ensures t.state == s.(handed := s.handed + [response]) && t.result == Pass
  {
    Step(s.(handed := s.handed + [response]), Pass)
  }

  class WebSocketConnection {
    const scope: Message
    var state: WsState
    var inbox: seq<Message>
    var sent: seq<Message>
    ghost var handed: seq<Response>

    ghost function Snap(): WsSnap
      reads this
    {
      WsSnap(state, inbox, sent, handed)
    }

    /** `WebSocketConnection.__init__` once the scope type has been checked. */
    constructor (scope: Message, inbox: seq<Message>)
      requires CheckScopeType(scope, WEBSOCKET) == Pass
      ensures this.scope == scope
      ensures Snap() == WsSnap(Connecting, inbox, [], [])
    {
      this.scope := scope;
      state := Connecting;
      this.inbox := inbox;
      sent := [];
      handed := [];
    }

    /** Sends one accept message and sets the state to accepted, whatever
        it was. */
    method AcceptConnection(subprotocol: Option<string> := None, headers: seq<Header> := [])
      modifies this
      ensures sent == old(sent) + [AcceptMessage(subprotocol, headers)]
      ensures state == Accepted
      ensures inbox == old(inbox) && handed == old(handed)
    {
      sent := sent + [AcceptMessage(subprotocol, headers)];
      state := Accepted;
    }

    /** Sends one close message and sets the state to closed, whatever it
        was. */
    method CloseConnection(code: int := 1000)
      modifies this
      ensures sent == old(sent) + [CloseMessage(code)]
      ensures state == Closed
      ensures inbox == old(inbox) && handed == old(handed)
    {
      sent := sent + [CloseMessage(code)];
      state := Closed;
    }

    method ReceiveRequest() returns (r: Result<Request>)
      modifies this
      ensures Step(Snap(), r) == ReceiveStep(old(Snap()))
    {
      if state == Disconnected {
        return Err(InvalidConnectionState);
      }
      if inbox == [] {
        return Err(NoMessage);
      }
      var message := inbox[0];
      inbox := inbox[1..];
      r := ParseRequest(message);
      if r.Ok? {
        if r.value.kind == "connect" {
          state := Connected;
        } else if r.value.kind == "disconnect" {
          state := Disconnected;
        }
      }
    }

    /** Sends one message carrying only the bytes payload; the state is
        unchanged. */
    method SendBytes(data: Bytes)
      modifies this
      ensures sent == old(sent) + [BytesMessage(data)]
      ensures state == old(state) && inbox == old(inbox) && handed == old(handed)
    {
      sent := sent + [BytesMessage(data)];
    }

    /** Sends one message carrying only the text payload; the state is
        unchanged. */
    method SendText(data: string)
      modifies this
      ensures sent == old(sent) + [TextMessage(data)]
      ensures state == old(state) && inbox == old(inbox) && handed == old(handed)
    {
      sent := sent + [TextMessage(data)];
    }

    method SendResponse(response: Response) returns (r: Outcome)
      modifies this
      ensures Step(Snap(), r) == SendResponseStep(old(Snap()), response)
    {
      handed := handed + [response];
      r := Pass;
    }
  }

  /** Direct construction: the scope's type must be "websocket" (KeyError
      when absent, ValueError when different). */
  method NewWebSocketConnection(scope: Message, inbox: seq<Message>) returns (r: Result<WebSocketConnection>)
    ensures r.Err? <==> CheckScopeType(scope, WEBSOCKET).Fail?
    ensures r.Err? ==> r.error == CheckScopeType(scope, WEBSOCKET).error
    ensures r.Ok? ==> fresh(r.value) && r.value.scope == scope
    ensures r.Ok? ==> r.value.Snap() == WsSnap(Connecting, inbox, [], [])
  {
    var check := CheckScopeType(scope, WEBSOCKET);
    if check.Fail? {
      return Err(check.error);
    }
    var c := new WebSocketConnection(scope, inbox);
    return Ok(c);
  }
}
