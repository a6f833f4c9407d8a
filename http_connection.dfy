/** HttpConnection: a response lifecycle guarded by `connection_status`
    (open, then closing once the start message is out, then closed once a
    body message with `more_body` False is out). Each operation is first a
    function on a snapshot of the connection, then a method of the class
    proved to act as that function says. */
module HttpConnections {
  import opened Errors
  import opened Wire
  import opened Requests
  import opened Responses
  import opened Connections

  datatype HttpStatus = Open | Closing | Closed

  /** Position of a status in the lifecycle. */
  function Rank(s: HttpStatus): nat
  {
    match s
    case Open => 0
    case Closing => 1
    case Closed => 2
  }

  /** What can be observed of an HttpConnection: its status, the messages
      the receive primitive has still to deliver, the messages handed to the
      send primitive, and the Response values handed to `send_response`. */
  datatype HttpSnap = HttpSnap(status: HttpStatus, inbox: seq<Message>, sent: seq<Message>, handed: seq<Response>)

  /** The sent log agrees with the status: nothing before the start, a
      response under way while closing, a complete response once closed. */
  predicate SentMatchesStatus(s: HttpSnap)
  {
    match s.status
    case Open => s.sent == []
    case Closing => StartedResponse(s.sent)
    case Closed => FinishedResponse(s.sent)
  }

  /** A body message that promises more keeps a response under way; one
      that does not completes it. */
  lemma StartedGrows(ms: seq<Message>, m: Message)
    ensures StartedResponse(ms) && IsBody(m, true) ==> StartedResponse(ms + [m])
    ensures StartedResponse(ms) && IsBody(m, false) ==> FinishedResponse(ms + [m])
  {
    assert forall i :: 1 <= i < |ms| ==> (ms + [m])[i] == ms[i];
    assert (ms + [m])[..|ms|] == ms;
  }

  /** `send_start`: allowed only while open; sends one start message and
      moves to closing. Otherwise InvalidConnectionState, nothing sent. */
  function SendStartStep(s: HttpSnap, code: int, headers: seq<Header>): (t: Step<HttpSnap, Outcome>)
    ensures t.result.Pass? <==> s.status == Open
    ensures t.result.Fail? ==> t.result.error == InvalidConnectionState && t.state == s
    ensures t.result.Pass? ==> t.state == s.(status := Closing, sent := s.sent + [StartMessage(code, headers)])
    ensures Rank(t.state.status) >= Rank(s.status)
    ensures SentMatchesStatus(s) ==> SentMatchesStatus(t.state)
  {
    if s.status != Open then Step(s, Fail(InvalidConnectionState))
    else Step(s.(status := Closing, sent := s.sent + [StartMessage(code, headers)]), Pass)
  }

  /** `send_body`: allowed only while closing; sends one body message and
      closes exactly when `more_body` is False. Otherwise
      InvalidConnectionState, nothing sent. */
  function SendBodyStep(s: HttpSnap, data: Bytes, moreBody: bool): (t: Step<HttpSnap, Outcome>)
    ensures t.result.Pass? <==> s.status == Closing
    ensures t.result.Fail? ==> t.result.error == InvalidConnectionState && t.state == s
    ensures t.result.Pass? ==>
      && t.state.sent == s.sent + [BodyMessage(data, moreBody)]
      && t.state.status == (if moreBody then Closing else Closed)
      && t.state.inbox == s.inbox && t.state.handed == s.handed
    ensures Rank(t.state.status) >= Rank(s.status)
    ensures SentMatchesStatus(s) ==> SentMatchesStatus(t.state)
  {
    if s.status != Closing then Step(s, Fail(InvalidConnectionState))
    else
      var s' := s.(sent := s.sent + [BodyMessage(data, moreBody)]);
      StartedGrows(s.sent, BodyMessage(data, moreBody));
      Step(if moreBody then s' else s'.(status := Closed), Pass)
  }

  /** Once closed, no operation sends anything more. */
  lemma NothingAfterClosed(s: HttpSnap, code: int, headers: seq<Header>, data: Bytes, moreBody: bool)
    requires s.status == Closed
    ensures SendStartStep(s, code, headers) == Step(s, Fail(InvalidConnectionState))
    ensures SendBodyStep(s, data, moreBody) == Step(s, Fail(InvalidConnectionState))
  {
  }

  /** The four fields `send_response` reads from `render_response()`. */
  datatype Rendered = Rendered(status: int, headers: seq<Header>, body: Bytes, moreBody: bool)

  /** No response class defines `render_response`. The model assumes it
      returns, for a BodyResponse, its status, headers and body with
      `more_body` False; for any other response the attribute lookup fails
      as it does in the source. */
  function RenderResponse(response: Response): (r: Result<Rendered>)
    ensures r.Ok? <==> response.BodyResponse?
    ensures r.Ok? ==> r.value == Rendered(response.status, response.headers, response.body, false)
    ensures r.Err? ==> r.error == AttributeError
  {
    match response
    case BodyResponse(status, headers, body) => Ok(Rendered(status, headers, body, false))
    case _ => Err(AttributeError)
  }

  /** `send_response`: record the response handed over, render it, then
      `send_start` followed by `send_body`. On an open connection a
      BodyResponse goes out as exactly the messages it renders to, and the
      connection is closed; on any other status it fails and sends nothing. */
  function SendResponseStep(s: HttpSnap, response: Response): (t: Step<HttpSnap, Outcome>)
    ensures t.state.handed == s.handed + [response] && t.state.inbox == s.inbox
    ensures t.result.Fail? ==> t.state.sent == s.sent && t.state.status == s.status
    ensures !response.BodyResponse? ==> t.result == Fail(AttributeError)
    ensures response.BodyResponse? ==> (t.result.Pass? <==> s.status == Open)
    ensures response.BodyResponse? && s.status != Open ==> t.result == Fail(InvalidConnectionState)
    ensures response.BodyResponse? && s.status == Open ==>
      t.state.sent == s.sent + RenderMessages(response) && t.state.status == Closed
    ensures Rank(t.state.status) >= Rank(s.status)
    ensures SentMatchesStatus(s) ==> SentMatchesStatus(t.state)
  {
    var s1 := s.(handed := s.handed + [response]);
    match RenderResponse(response)
    case Err(e) => Step(s1, Fail(e))
    case Ok(rendered) =>
      var started := SendStartStep(s1, rendered.status, rendered.headers);
      if started.result.Fail? then started
      else SendBodyStep(started.state, rendered.body, rendered.moreBody)
  }

  /** `receive_request`: take the next message from the receive primitive
      and parse it; nothing else changes. */
  function ReceiveStep(s: HttpSnap): (t: Step<HttpSnap, Result<Request>>)
    ensures s.inbox == [] ==> t.result == Err(NoMessage) && t.state == s
    ensures s.inbox != [] ==> t.state == s.(inbox := s.inbox[1..]) && t.result == ParseRequest(s.inbox[0])
  {
    if s.inbox == [] then Step(s, Err(NoMessage))
    else Step(s.(inbox := s.inbox[1..]), ParseRequest(s.inbox[0]))
  }

  /** `receive_request` does not check the message type: any `http.<kind>`
      message becomes a Request of that kind. */
  lemma ReceiveAnyKind(s: HttpSnap, kind: string)
    requires s.inbox != [] && '.' !in kind
    requires "type" in s.inbox[0] && s.inbox[0]["type"] == Str(HTTP + "." + kind)
    ensures ReceiveStep(s).result == Ok(Request(s.inbox[0] - {"type"}, HTTP, kind))
    ensures ReceiveStep(s).state.status == s.status && ReceiveStep(s).state.sent == s.sent
  {
    ParseRequestOfType(s.inbox[0], HTTP, kind);
  }

  class HttpConnection {
    const scope: Message
    var status: HttpStatus
    var inbox: seq<Message>
    var sent: seq<Message>
    ghost var handed: seq<Response>

    ghost function Snap(): HttpSnap
      reads this
    {
      HttpSnap(status, inbox, sent, handed)
    }

    ghost predicate Valid()
      reads this
    {
      SentMatchesStatus(Snap())
    }

    /** `HttpConnection.__init__` once the scope type has been checked. */
    constructor (scope: Message, inbox: seq<Message>)
      requires CheckScopeType(scope, HTTP) == Pass
      ensures this.scope == scope
      ensures Snap() == HttpSnap(Open, inbox, [], [])
      ensures Valid()
    {
      this.scope := scope;
      status := Open;
      this.inbox := inbox;
      sent := [];
      handed := [];
    }

    method SendStart(code: int := 200, headers: seq<Header> := []) returns (r: Outcome)
      requires Valid()
      modifies this
      ensures Valid()
      ensures Step(Snap(), r) == SendStartStep(old(Snap()), code, headers)
    {
      if status != Open {
        return Fail(InvalidConnectionState);
      }
      sent := sent + [StartMessage(code, headers)];
      status := Closing;
      return Pass;
    }

    method SendBody(data: Bytes := [], moreBody: bool := false) returns (r: Outcome)
      requires Valid()
      modifies this
      ensures Valid()
      ensures Step(Snap(), r) == SendBodyStep(old(Snap()), data, moreBody)
    {
      if status != Closing {
        return Fail(InvalidConnectionState);
      }
      sent := sent + [BodyMessage(data, moreBody)];
      if !moreBody {
        status := Closed;
      }
      return Pass;
    }

    method SendResponse(response: Response) returns (r: Outcome)
      requires Valid()
      modifies this
      ensures Valid()
      ensures Step(Snap(), r) == SendResponseStep(old(Snap()), response)
    {
      handed := handed + [response];
      var rendered := RenderResponse(response);
      if rendered.Err? {
        return Fail(rendered.error);
      }
      r := SendStart(rendered.value.status, rendered.value.headers);
      if r.Fail? {
        return;
      }
      r := SendBody(rendered.value.body, rendered.value.moreBody);
    }

    method ReceiveRequest() returns (r: Result<Request>)
      requires Valid()
      modifies this
      ensures Valid()
      ensures Step(Snap(), r) == ReceiveStep(old(Snap()))
    {
      if inbox == [] {
        return Err(NoMessage);
      }
      var message := inbox[0];
      inbox := inbox[1..];
      r := ParseRequest(message);
    }
  }

  /** Direct construction: the scope's type must be "http" (KeyError when
      absent, ValueError when different). */
  method NewHttpConnection(scope: Message, inbox: seq<Message>) returns (r: Result<HttpConnection>)
    ensures r.Err? <==> CheckScopeType(scope, HTTP).Fail?
    ensures r.Err? ==> r.error == CheckScopeType(scope, HTTP).error
    ensures r.Ok? ==> fresh(r.value) && r.value.scope == scope && r.value.Valid()
    ensures r.Ok? ==> r.value.Snap() == HttpSnap(Open, inbox, [], [])
  {
    var check := CheckScopeType(scope, HTTP);
    if check.Fail? {
      return Err(check.error);
    }
    var c := new HttpConnection(scope, inbox);
    return Ok(c);
  }
}
