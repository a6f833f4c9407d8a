/** Response objects and the fixed message sequences they render to. */
module Responses {
  import opened Errors
  import opened Wire

  /** The five response classes. The constructor defaults are those of the
      Python constructors; a StreamResponse left at its default body b""
      yields no chunk, which is the empty chunk sequence here. */
  datatype Response =
    | BodyResponse(status: int := 200, headers: seq<Header> := [], body: Bytes := [])
    | StreamResponse(status: int := 200, headers: seq<Header> := [], chunks: seq<Bytes> := [])
    | AcceptResponse(subprotocol: Option<string> := None, headers: seq<Header> := [])
    | MessageResponse(bytes: Option<Bytes> := None, text: Option<string> := None)
    | CloseResponse(code: int := 1000)
  {
    predicate IsHttp()
    {
      BodyResponse? || StreamResponse?
    }

    /** The class attribute `protocol`. */
    function Protocol(): string
    {
      if IsHttp() then HTTP else WEBSOCKET
    }
  }

  /** One body message per chunk, in order, each promising more body. */
  function ChunkMessages(chunks: seq<Bytes>): (ms: seq<Message>)
    ensures |ms| == |chunks|
    ensures forall i :: 0 <= i < |chunks| ==> ms[i] == BodyMessage(chunks[i], true)
  {
    if chunks == [] then []
    else [BodyMessage(chunks[0], true)] + ChunkMessages(chunks[1..])
  }

  /** `render_messages`, collected into a sequence. Every HTTP rendering is a
      complete response; every WebSocket rendering is a single message; all
      message types carry the class protocol as their prefix. */
  function RenderMessages(r: Response): (ms: seq<Message>)
    ensures r.IsHttp() ==> FinishedResponse(ms)
    ensures !r.IsHttp() ==> |ms| == 1
    ensures r.BodyResponse? ==> |ms| == 2
    ensures r.StreamResponse? ==> |ms| == |r.chunks| + 2
    ensures forall i :: 0 <= i < |ms| ==> HasProtocol(ms[i], r.Protocol())
  {
    match r
    case BodyResponse(status, headers, body) =>
      var ms := [StartMessage(status, headers), BodyMessage(body, false)];
      assert ms[..1] == [StartMessage(status, headers)];
      ms
    case StreamResponse(status, headers, chunks) =>
      var ms := [StartMessage(status, headers)] + ChunkMessages(chunks) + [BodyMessage([], false)];
      assert ms[..|ms| - 1] == [StartMessage(status, headers)] + ChunkMessages(chunks);
      ms
    case AcceptResponse(subprotocol, headers) => [AcceptMessage(subprotocol, headers)]
    case MessageResponse(bytes, text) => [SendMessage(bytes, text)]
    case CloseResponse(code) => [CloseMessage(code)]
  }

  /** A BodyResponse renders a start message carrying its status and
      headers, then one body message carrying its body with `more_body`
      False. */
  lemma BodyRendering(status: int, headers: seq<Header>, body: Bytes)
    ensures var ms := RenderMessages(BodyResponse(status, headers, body));
      && |ms| == 2
      && IsStart(ms[0]) && ms[0]["status"] == Int(status) && ms[0]["headers"] == HeaderList(headers)
      && IsBody(ms[1], false) && ms[1]["body"] == Blob(body)
  {
  }

  /** A StreamResponse of n chunks renders n + 2 messages: the start
      message, each chunk in order with `more_body` True, then an empty
      body with `more_body` False. */
  lemma StreamRendering(status: int, headers: seq<Header>, chunks: seq<Bytes>)
    ensures var ms := RenderMessages(StreamResponse(status, headers, chunks));
      && |ms| == |chunks| + 2
      && IsStart(ms[0]) && ms[0]["status"] == Int(status) && ms[0]["headers"] == HeaderList(headers)
      && (forall i :: 0 <= i < |chunks| ==> IsBody(ms[i + 1], true) && ms[i + 1]["body"] == Blob(chunks[i]))
      && IsBody(ms[|chunks| + 1], false) && ms[|chunks| + 1]["body"] == Blob([])
  {
    var ms := RenderMessages(StreamResponse(status, headers, chunks));
    forall i | 0 <= i < |chunks|
      ensures ms[i + 1] == BodyMessage(chunks[i], true)
    {
      assert ms[i + 1] == ChunkMessages(chunks)[i];
    }
  }

  /** An AcceptResponse renders one `websocket.accept` message with its
      subprotocol (None when absent) and headers. */
  lemma AcceptRendering(subprotocol: Option<string>, headers: seq<Header>)
    ensures var ms := RenderMessages(AcceptResponse(subprotocol, headers));
      && |ms| == 1
      && ms[0].Keys == {"type", "subprotocol", "headers"}
      && ms[0]["type"] == Str("websocket.accept")
      && ms[0]["subprotocol"] == (if subprotocol.Some? then Str(subprotocol.value) else Nil)
      && ms[0]["headers"] == HeaderList(headers)
  {
  }

  /** A MessageResponse renders one `websocket.send` message that carries
      both the bytes and the text keys. */
  lemma MessageRendering(bytes: Option<Bytes>, text: Option<string>)
    ensures var ms := RenderMessages(MessageResponse(bytes, text));
      && |ms| == 1
      && ms[0].Keys == {"type", "bytes", "text"}
      && ms[0]["type"] == Str("websocket.send")
      && ms[0]["bytes"] == (if bytes.Some? then Blob(bytes.value) else Nil)
      && ms[0]["text"] == (if text.Some? then Str(text.value) else Nil)
  {
  }

  /** A CloseResponse renders one `websocket.close` message with its code. */
  lemma CloseRendering(code: int)
    ensures var ms := RenderMessages(CloseResponse(code));
      && |ms| == 1
      && ms[0].Keys == {"type", "code"}
      && ms[0]["type"] == Str("websocket.close")
      && ms[0]["code"] == Int(code)
  {
  }
}
