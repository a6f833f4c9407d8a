/** The ASGI wire format: bytes, the dynamic values that appear in a scope
    or a message, and the message shapes of the HTTP and WebSocket
    protocols. */
module Wire {
  import opened Errors

  newtype byte = x: int | 0 <= x < 256
  type Bytes = seq<byte>

  /** One header: a (name, value) pair of byte strings. */
  type Header = (Bytes, Bytes)

  /** A Python value stored in a scope or a message dictionary. */
  datatype Value =
    | Nil                          // None
    | Bool(flag: bool)
    | Int(num: int)
    | Str(str: string)
    | Blob(bytes: Bytes)
    | HeaderList(pairs: seq<Header>)
    | Tuple(items: seq<Value>)

  /** Whether the value can be a dictionary key: a list cannot, nor a
      tuple holding one. */
  predicate Hashable(v: Value)
  {
    match v
    case HeaderList(_) => false
    case Tuple(items) => forall i :: 0 <= i < |items| ==> Hashable(items[i])
    case _ => true
  }

  /** A scope or a message: a dictionary keyed by strings. */
  type Message = map<string, Value>

  const HTTP: string := "http"
  const WEBSOCKET: string := "websocket"

  /** Latin-1 decoding: each byte becomes the character with that code. */
  function Latin1Decode(b: Bytes): (s: string)
    ensures |s| == |b|
    ensures forall i :: 0 <= i < |b| ==> s[i] as int == b[i] as int
  {
    seq(|b|, i requires 0 <= i < |b| => (b[i] as int) as char)
  }

  /** Decoding is injective, so distinct header names stay distinct. */
  lemma Latin1Injective(a: Bytes, b: Bytes)
    ensures Latin1Decode(a) == Latin1Decode(b) ==> a == b
  {
    if Latin1Decode(a) == Latin1Decode(b) {
      assert |a| == |b|;
      forall i | 0 <= i < |a| ensures a[i] == b[i] {
        assert Latin1Decode(a)[i] == Latin1Decode(b)[i];
      }
    }
  }

  /** The message type `protocol.suffix`. */
  function EventType(protocol: string, suffix: string): string
  {
    protocol + "." + suffix
  }

  /** The message carries a type of the form `protocol.suffix` with a
      non-empty suffix. */
  predicate HasProtocol(m: Message, protocol: string)
  {
    && "type" in m && m["type"].Str?
    && |m["type"].str| > |protocol| + 1
    && m["type"].str[..|protocol| + 1] == protocol + "."
  }

  function OptionalStr(o: Option<string>): Value
  {
    match o
    case None => Nil
    case Some(s) => Str(s)
  }

  function OptionalBytes(o: Option<Bytes>): Value
  {
    match o
    case None => Nil
    case Some(b) => Blob(b)
  }

  // ----- HTTP response messages -----

  predicate IsStart(m: Message)
  {
    "type" in m && m["type"] == Str(EventType(HTTP, "response.start"))
  }

  predicate IsBody(m: Message, moreBody: bool)
  {
    && "type" in m && m["type"] == Str(EventType(HTTP, "response.body"))
    && "more_body" in m && m["more_body"] == Bool(moreBody)
  }

  /** `http.response.start` with a status and headers. */
  function StartMessage(status: int, headers: seq<Header>): (m: Message)
    ensures m.Keys == {"type", "status", "headers"}
    ensures IsStart(m) && HasProtocol(m, HTTP)
    ensures m["status"] == Int(status) && m["headers"] == HeaderList(headers)
  {
    map["type" := Str(EventType(HTTP, "response.start")),
        "status" := Int(status),
        "headers" := HeaderList(headers)]
  }

  /** `http.response.body` with a body chunk and the continuation flag. */
  function BodyMessage(body: Bytes, moreBody: bool): (m: Message)
    ensures m.Keys == {"type", "body", "more_body"}
    ensures IsBody(m, moreBody) && !IsBody(m, !moreBody) && !IsStart(m) && HasProtocol(m, HTTP)
    ensures m["body"] == Blob(body)
  {
    map["type" := Str(EventType(HTTP, "response.body")),
        "body" := Blob(body),
        "more_body" := Bool(moreBody)]
  }

  /** A response under way: one start message, then body messages that all
      promise more body. */
  predicate StartedResponse(ms: seq<Message>)
  {
    && |ms| >= 1
    && IsStart(ms[0])
    && forall i :: 1 <= i < |ms| ==> IsBody(ms[i], true)
  }

  /** A complete response: a response under way closed by one body message
      whose `more_body` is False. */
  predicate FinishedResponse(ms: seq<Message>)
  {
    && |ms| >= 2
    && StartedResponse(ms[..|ms| - 1])
    && IsBody(ms[|ms| - 1], false)
  }

  /** In a complete response the first message is the only start message,
      every later one is a body message, and exactly one message, the last,
      has `more_body` False. */
  lemma FinishedResponseFacts(ms: seq<Message>)
    requires FinishedResponse(ms)
    ensures forall i :: 0 <= i < |ms| ==> (IsStart(ms[i]) <==> i == 0)
    ensures forall i :: 1 <= i < |ms| ==> IsBody(ms[i], true) || IsBody(ms[i], false)
    ensures forall i :: 0 <= i < |ms| ==> (IsBody(ms[i], false) <==> i == |ms| - 1)
  {
    var n := |ms|;
    forall i | 0 <= i < n
      ensures (IsStart(ms[i]) <==> i == 0)
      ensures 1 <= i ==> IsBody(ms[i], true) || IsBody(ms[i], false)
      ensures (IsBody(ms[i], false) <==> i == n - 1)
    {
      if i < n - 1 {
        assert ms[..n - 1][i] == ms[i];
      }
    }
  }

  // ----- WebSocket messages -----

  /** `websocket.accept` with a subprotocol (None when absent) and headers. */
  function AcceptMessage(subprotocol: Option<string>, headers: seq<Header>): (m: Message)
    ensures m.Keys == {"type", "subprotocol", "headers"}
    ensures m["type"] == Str(EventType(WEBSOCKET, "accept")) && HasProtocol(m, WEBSOCKET)
    ensures m["subprotocol"] == (if subprotocol.Some? then Str(subprotocol.value) else Nil)
    ensures m["headers"] == HeaderList(headers)
  {
    map["type" := Str(EventType(WEBSOCKET, "accept")),
        "subprotocol" := OptionalStr(subprotocol),
        "headers" := HeaderList(headers)]
  }

  /** `websocket.send` carrying both payload keys, either possibly None. */
  function SendMessage(bytes: Option<Bytes>, text: Option<string>): (m: Message)
    ensures m.Keys == {"type", "bytes", "text"}
    ensures m["type"] == Str(EventType(WEBSOCKET, "send")) && HasProtocol(m, WEBSOCKET)
    ensures m["bytes"] == (if bytes.Some? then Blob(bytes.value) else Nil)
    ensures m["text"] == (if text.Some? then Str(text.value) else Nil)
  {
    map["type" := Str(EventType(WEBSOCKET, "send")),
        "bytes" := OptionalBytes(bytes),
        "text" := OptionalStr(text)]
  }

  /** `websocket.send` carrying the bytes payload only. */
  function BytesMessage(data: Bytes): (m: Message)
    ensures m.Keys == {"type", "bytes"} && "text" !in m
    ensures m["type"] == Str(EventType(WEBSOCKET, "send")) && m["bytes"] == Blob(data)
  {
    map["type" := Str(EventType(WEBSOCKET, "send")), "bytes" := Blob(data)]
  }

  /** `websocket.send` carrying the text payload only. */
  function TextMessage(data: string): (m: Message)
    ensures m.Keys == {"type", "text"} && "bytes" !in m
    ensures m["type"] == Str(EventType(WEBSOCKET, "send")) && m["text"] == Str(data)
  {
    map["type" := Str(EventType(WEBSOCKET, "send")), "text" := Str(data)]
  }

  /** `websocket.close` with a close code. */
  function CloseMessage(code: int): (m: Message)
    ensures m.Keys == {"type", "code"}
    ensures m["type"] == Str(EventType(WEBSOCKET, "close")) && HasProtocol(m, WEBSOCKET)
    ensures m["code"] == Int(code)
  {
    map["type" := Str(EventType(WEBSOCKET, "close")), "code" := Int(code)]
  }
}
