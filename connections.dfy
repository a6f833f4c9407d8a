/** What every connection shares: the construction check on the scope, the
    `headers` and `url` views of the scope, the protocol table used by
    `make_connection`, and the parsing of a received message into a
    Request. */
module Connections {
  import opened Errors
  import opened Strings
  import opened Wire
  import opened Requests

  /** The state after an operation, with what the operation returned. */
  datatype Step<S, R> = Step(state: S, result: R)

  // ----- construction -----

  /** `Connection.__init__`'s check `scope["type"] != self.protocol`. */
  function CheckScopeType(scope: Message, protocol: string): (o: Outcome)
    ensures o.Pass? <==> "type" in scope && scope["type"] == Str(protocol)
    ensures o.Fail? ==> o.error == (if "type" in scope then ValueError else KeyError("type"))
  {
    if "type" !in scope then Fail(KeyError("type"))
    else if scope["type"] != Str(protocol) then Fail(ValueError)
    else Pass
  }

  /** The connection classes `make_connection` knows. */
  datatype Protocol = HttpProtocol | WebSocketProtocol

  function ProtocolName(p: Protocol): string
  {
    match p
    case HttpProtocol => HTTP
    case WebSocketProtocol => WEBSOCKET
  }

  /** The lookup `protocols[scope["type"]]`: "http" and "websocket" select
      their class; any other type, or no type at all, is ProtocolUnknown,
      except a type that cannot be a dictionary key, whose TypeError is not
      caught. The selected class always accepts the scope, so
      `make_connection` never raises the constructor's ValueError. */
  function SelectProtocol(scope: Message): (r: Result<Protocol>)
    ensures r.Ok? <==> "type" in scope && scope["type"] in {Str(HTTP), Str(WEBSOCKET)}
    ensures r.Err? ==> r.error == (if "type" in scope && !Hashable(scope["type"]) then TypeError else ProtocolUnknown)
    ensures r.Ok? ==> scope["type"] == Str(ProtocolName(r.value))
    ensures r.Ok? ==> CheckScopeType(scope, ProtocolName(r.value)) == Pass
  {
    if "type" !in scope then Err(ProtocolUnknown)
    else if !Hashable(scope["type"]) then Err(TypeError)
    else if scope["type"] == Str(HTTP) then Ok(HttpProtocol)
    else if scope["type"] == Str(WEBSOCKET) then Ok(WebSocketProtocol)
    else Err(ProtocolUnknown)
  }

  // ----- headers -----

  /** The dictionary comprehension over the header pairs: names and values
      decoded as Latin-1, a later pair overwriting an earlier one with the
      same name. */
  function HeaderMap(pairs: seq<Header>): (m: map<string, string>)
    ensures m.Keys == set i | 0 <= i < |pairs| :: Latin1Decode(pairs[i].0)
  {
    if pairs == [] then map[]
    else
      var n := |pairs| - 1;
      var m := HeaderMap(pairs[..n])[Latin1Decode(pairs[n].0) := Latin1Decode(pairs[n].1)];
      assert forall i :: 0 <= i < n ==> pairs[..n][i] == pairs[i];
      m
  }

  /** Each header name maps to the value of its last pair. */
  lemma {:induction false} HeaderMapLastWins(pairs: seq<Header>, i: nat)
    requires i < |pairs|
    requires forall j :: i < j < |pairs| ==> pairs[j].0 != pairs[i].0
    ensures Latin1Decode(pairs[i].0) in HeaderMap(pairs)
    ensures HeaderMap(pairs)[Latin1Decode(pairs[i].0)] == Latin1Decode(pairs[i].1)
  {
    var n := |pairs| - 1;
    if i < n {
      assert forall j :: i < j < n ==> pairs[..n][j] == pairs[j];
      HeaderMapLastWins(pairs[..n], i);
      assert pairs[..n][i] == pairs[i];
      Latin1Injective(pairs[n].0, pairs[i].0);
    }
  }

  /** Whether an entry of a headers tuple unpacks into two byte strings,
      the only entries whose name and value both have `decode`. */
  predicate IsBytePair(v: Value)
  {
    v.Tuple? && |v.items| == 2 && v.items[0].Blob? && v.items[1].Blob?
  }

  /** What an entry that is no byte pair raises in `for key, value in ...`:
      TypeError when it is not iterable, a failed unpacking when it does not
      hold two items, and AttributeError when one of its two items (a
      character, an integer, a pair) has no `decode`. */
  function EntryError(v: Value): Error
  {
    match v
    case Tuple(items) => if |items| != 2 then UnpackError else AttributeError
    case Str(chars) => if |chars| != 2 then UnpackError else AttributeError
    case Blob(bytes) => if |bytes| != 2 then UnpackError else AttributeError
    case HeaderList(pairs) => if |pairs| != 2 then UnpackError else AttributeError
    case _ => TypeError
  }

  /** The entries of a headers tuple unpacked in order; the first entry that
      is no byte pair raises. */
  function TupleHeaders(items: seq<Value>): (r: Result<seq<Header>>)
    ensures r.Ok? <==> forall i :: 0 <= i < |items| ==> IsBytePair(items[i])
    ensures r.Ok? ==> |r.value| == |items|
    ensures r.Ok? ==> forall i :: 0 <= i < |r.value| ==>
      r.value[i] == (items[i].items[0].bytes, items[i].items[1].bytes)
    ensures r.Err? ==>
      exists i :: (0 <= i < |items| && !IsBytePair(items[i])
                   && (forall j :: 0 <= j < i ==> IsBytePair(items[j])) && r.error == EntryError(items[i]))
  {
    if items == [] then Ok([])
    else if !IsBytePair(items[0]) then Err(EntryError(items[0]))
    else
      var rest := TupleHeaders(items[1..]);
      assert forall i :: 1 <= i < |items| ==> items[1..][i - 1] == items[i];
      match rest
      case Err(e) => Err(e)
      case Ok(pairs) => Ok([(items[0].items[0].bytes, items[0].items[1].bytes)] + pairs)
  }

  /** The pairs that `for key, value in scope.get("headers", [])` visits:
      a list of byte pairs as it is, a tuple entry by entry; an empty string
      or bytes value visits nothing; a non-empty string yields one-character
      strings, which do not unpack into two; a non-empty bytes value yields
      integers and None, a bool or an integer is not iterable, all of which
      raise TypeError. */
  function HeaderPairs(v: Value): (r: Result<seq<Header>>)
  {
    match v
    case HeaderList(pairs) => Ok(pairs)
    case Tuple(items) => TupleHeaders(items)
    case Str(chars) => if chars == [] then Ok([]) else Err(UnpackError)
    case Blob(bytes) => if bytes == [] then Ok([]) else Err(TypeError)
    case _ => Err(TypeError)
  }

  /** The `headers` property: the scope's header pairs as a dictionary, empty
      when the scope has no "headers" entry. */
  function ScopeHeaders(scope: Message): (r: Result<map<string, string>>)
    ensures "headers" !in scope ==> r == Ok(map[])
    ensures "headers" in scope && scope["headers"].HeaderList? ==> r == Ok(HeaderMap(scope["headers"].pairs))
    ensures "headers" in scope && scope["headers"].Tuple? ==>
      && (r.Ok? <==> forall i :: 0 <= i < |scope["headers"].items| ==> IsBytePair(scope["headers"].items[i]))
      && (r.Ok? ==>
            (r.value.Keys == set i | 0 <= i < |scope["headers"].items| :: Latin1Decode(scope["headers"].items[i].items[0].bytes)))
    ensures "headers" in scope && scope["headers"].Tuple? && r.Err? ==>
      r.error == TupleHeaders(scope["headers"].items).error
    ensures "headers" in scope && scope["headers"] in {Str(""), Blob([])} ==> r == Ok(map[])
    ensures "headers" in scope && scope["headers"].Str? && scope["headers"].str != "" ==> r == Err(UnpackError)
    ensures "headers" in scope && scope["headers"].Blob? && scope["headers"].bytes != [] ==> r == Err(TypeError)
    ensures "headers" in scope && (scope["headers"].Nil? || scope["headers"].Bool? || scope["headers"].Int?) ==>
      r == Err(TypeError)
  {
    if "headers" !in scope then Ok(map[])
    else match HeaderPairs(scope["headers"])
      case Ok(pairs) => Ok(HeaderMap(pairs))
      case Err(e) => Err(e)
  }

  /** A tuple of (bytes, bytes) tuples gives the same dictionary as the list
      of those pairs. */
  lemma TupleHeadersAsList(scope: Message, pairs: seq<Header>)
    requires "headers" in scope
    requires scope["headers"] == Tuple(seq(|pairs|, i requires 0 <= i < |pairs| => Tuple([Blob(pairs[i].0), Blob(pairs[i].1)])))
    ensures ScopeHeaders(scope) == ScopeHeaders(scope["headers" := HeaderList(pairs)])
  {
    var items := scope["headers"].items;
    assert forall i :: 0 <= i < |items| ==> IsBytePair(items[i]);
    assert TupleHeaders(items).value == pairs;
  }

  // ----- url -----

  const UrlKeys: set<string> := {"scheme", "server", "root_path", "path", "query_string"}

  /** The `url` property: always the five keys, each the scope's value or
      None when the scope lacks it. */
  function Url(scope: Message): (url: map<string, Value>)
    ensures url.Keys == UrlKeys
    ensures forall k :: k in url ==> url[k] == (if k in scope then scope[k] else Nil)
  {
    map k | k in UrlKeys :: if k in scope then scope[k] else Nil
  }

  // ----- receiving -----

  /** A received message turned into a Request: `message["type"]` (KeyError
      when absent) is split on "." (TypeError for bytes, which need a bytes
      separator; AttributeError for any other value that is not a string)
      and unpacked into exactly two parts (UnpackError otherwise); the data
      is the message without its "type". The type is not checked further. */
  function ParseRequest(message: Message): (r: Result<Request>)
    ensures "type" !in message ==> r == Err(KeyError("type"))
    ensures "type" in message && message["type"].Blob? ==> r == Err(TypeError)
    ensures "type" in message && !message["type"].Str? && !message["type"].Blob? ==> r == Err(AttributeError)
    ensures "type" in message && message["type"].Str? ==>
      (r.Ok? <==> Count(message["type"].str, '.') == 1)
    ensures r.Err? && "type" in message && message["type"].Str? ==> r.error == UnpackError
    ensures r.Ok? ==>
      && r.value.data == message - {"type"}
      && "type" in message
      && message["type"] == Str(r.value.protocol + "." + r.value.kind)
      && '.' !in r.value.protocol && '.' !in r.value.kind
  {
    if "type" !in message then Err(KeyError("type"))
    else match message["type"]
      case Str(t) =>
        var parts := Split(t, '.');
        if |parts| != 2 then Err(UnpackError)
        else
          SplitInTwo(t, '.', parts[0], parts[1]);
          Ok(Request(message - {"type"}, parts[0], parts[1]))
      case Blob(_) => Err(TypeError)
      case _ => Err(AttributeError)
  }

  /** Every message whose type is `protocol.kind`, neither part containing a
      ".", parses back to exactly that protocol and kind, with the rest of
      the message as data. */
  lemma ParseRequestOfType(message: Message, protocol: string, kind: string)
    requires '.' !in protocol && '.' !in kind
    requires "type" in message && message["type"] == Str(protocol + "." + kind)
    ensures ParseRequest(message) == Ok(Request(message - {"type"}, protocol, kind))
  {
    SplitInTwo(protocol + "." + kind, '.', protocol, kind);
  }
}
