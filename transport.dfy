/** The client side of the Streamable HTTP transport of the Model Context
    Protocol (revision 2025-03-26): every JSON-RPC message is POSTed on its own;
    the reply is either one JSON response or an event stream that ends with
    the response, possibly preceded by server notifications. The session
    token (`Mcp-Session-Id`) is handed out by the server on `initialize`,
    dropped on 404 and announced to the server as ended on `Close`.

    HTTP itself is not modelled: an exchange receives the server's reply as
    an input (`None` when the request could not be sent), and the JSON
    decoding of payloads is a `Codec`. */
module Transport {
  import opened Wrappers
  import opened Json
  import opened JsonRpc
  import opened Sse
  import opened Headers

  const InitializeMethod: string := "initialize"
  const PingMethod: string := "ping"
  const EventStreamMediaType: string := "text/event-stream"

  /** What the server answered: the status code, the `Mcp-Session-Id`
      response header ("" when absent), the raw `Content-Type` header and the
      media type parsed from it, the body, and how reading the body ended. */
  datatype Reply = Reply(
    status: int, sessionHeader: string, contentType: string, mediaType: string,
    body: string, end: StreamEnd)

  datatype TransportError =
    | SendFailed                                // the HTTP request could not be sent
    | SessionTerminated                         // 404: the client must re-initialize
    | RequestFailed(status: int, body: string)  // other failure status, undecodable body
    | DecodeFailed(payload: string)
    | MissingId(payload: string)
    | UnexpectedContentType(contentType: string)
    | NilResponse                               // the stream ended without a response
    | ContextDone                               // the exchange was cancelled
    | NotificationFailed(status: int, body: string)
    | InitializeFailed(cause: TransportError)
    | InitializeRejected(error: RpcError)       // the server answered initialize with an error

  type HandlerId = nat

  /** One call of the notification handler. */
  datatype Delivery = Delivery(handler: HandlerId, notification: Notification)

  /** Only 200 OK and 202 Accepted count as success. */
  predicate IsSuccess(status: int) {
    status == 200 || status == 202
  }

  // ---------------------------------------------------------------------------
  // Correlating the events of a stream with the request.

  /** An event whose data decodes to a response with an id: the response the
      exchange waits for. */
  predicate IsTerminal(codec: Codec, e: Event) {
    codec.response(e.data).Some? && codec.response(e.data).value.id.Some?
  }

  /** The position of the first terminal event (`|events|` when there is
      none). */
  function TerminalIndex(codec: Codec, events: seq<Event>): (k: nat)
    ensures k <= |events|
    ensures k < |events| ==> IsTerminal(codec, events[k])
    ensures forall j :: 0 <= j < k ==> !IsTerminal(codec, events[j])
  {
    if events == [] then 0
    else if IsTerminal(codec, events[0]) then 0
    else 1 + TerminalIndex(codec, events[1..])
  }

  /** The notification a non-terminal event carries: one whose data decodes
      to a response with a null id and then to a notification. */
  function NoticeOf(codec: Codec, e: Event): seq<Notification> {
    match codec.response(e.data)
    case None => []
    case Some(m) =>
      if m.id.Some? then []
      else
        match codec.notification(e.data)
        case None => []
        case Some(n) => [n]
  }

  function Notices(codec: Codec, events: seq<Event>): seq<Notification> {
    if events == [] then []
    else Notices(codec, events[..|events| - 1]) + NoticeOf(codec, events[|events| - 1])
  }

  /** The callback of the stream reader, over the events in order: skips
      what does not decode, hands notifications to the handler (when one is
      set) and stops at the first response with an id. */
  method Correlate(codec: Codec, events: seq<Event>, handlerSet: bool)
    returns (terminal: Option<Response>, delivered: seq<Notification>)
    ensures terminal.Some? <==> TerminalIndex(codec, events) < |events|
    ensures terminal.Some? ==> terminal == codec.response(events[TerminalIndex(codec, events)].data)
    ensures delivered == if handlerSet then Notices(codec, events[..TerminalIndex(codec, events)]) else []
  {
    terminal := None;
    delivered := [];
    var i := 0;
    while i < |events|
      invariant i <= TerminalIndex(codec, events)
      invariant delivered == if handlerSet then Notices(codec, events[..i]) else []
    {
      var e := events[i];
      assert events[..i + 1][..i] == events[..i];
      var message := codec.response(e.data);
      if message.Some? && message.value.id.Some? {
        terminal := message;
        return;
      }
      if message.Some? {
        var notification := codec.notification(e.data);
        if notification.Some? && handlerSet {
          delivered := delivered + [notification.value];
        }
      }
      i := i + 1;
    }
    assert events[..|events|] == events;
  }

  /** The result of an exchange answered with an event stream. A cancelled
      stream without a response gives the context error: of the two cases
      Go's final `select` may find ready then, this is the one taken. A
      response read before the cancellation is returned. */
  function StreamOutcome(codec: Codec, events: seq<Event>, end: StreamEnd): Result<Response, TransportError> {
    var k := TerminalIndex(codec, events);
    if k < |events| then Ok(codec.response(events[k].data).value)
    else if end == Cancelled then Err(ContextDone)
    else Err(NilResponse)
  }

  // ---------------------------------------------------------------------------
  // The outcome of one exchange.

  /** The result `SendRequest` returns for a request with method `method`. */
  function ExchangeResult(methodName: string, reply: Option<Reply>, codec: Codec): Result<Response, TransportError> {
    match reply
    case None => Err(SendFailed)
    case Some(r) =>
      if !IsSuccess(r.status) then
        if r.status == 404 then Err(SessionTerminated)
        else if codec.response(r.body).Some? then Ok(codec.response(r.body).value)
        else Err(RequestFailed(r.status, r.body))
      else if r.mediaType == JsonMediaType then
        if codec.response(r.body).None? then Err(DecodeFailed(r.body))
        else if codec.response(r.body).value.id.None? && methodName != PingMethod then Err(MissingId(r.body))
        else Ok(codec.response(r.body).value)
      else if r.mediaType == EventStreamMediaType then
        StreamOutcome(codec, DecodeBody(r.body, r.end), r.end)
      else Err(UnexpectedContentType(r.contentType))
  }

  /** The notifications handed to the handler during an exchange. */
  function ExchangeNotices(reply: Option<Reply>, codec: Codec, handlerSet: bool): seq<Notification> {
    if reply.Some? && IsSuccess(reply.value.status) && reply.value.mediaType == EventStreamMediaType && handlerSet
    then
      var events := DecodeBody(reply.value.body, reply.value.end);
      Notices(codec, events[..TerminalIndex(codec, events)])
    else []
  }

  /** The session token after an exchange that loaded `loaded` when it
      started, given the token `current` held when the reply arrives. */
  function SessionAfter(current: string, loaded: string, methodName: string, reply: Option<Reply>): string {
    match reply
    case None => current
    case Some(r) =>
      if r.status == 404 then (if current == loaded then "" else current)
      else if IsSuccess(r.status) && methodName == InitializeMethod && r.sessionHeader != "" then r.sessionHeader
      else current
  }

  /** The error `SendNotification` returns, if any. */
  function NotificationOutcome(reply: Option<Reply>): Option<TransportError> {
    match reply
    case None => Some(SendFailed)
    case Some(r) => if IsSuccess(r.status) then None else Some(NotificationFailed(r.status, r.body))
  }

  function Deliveries(handler: Option<HandlerId>, notes: seq<Notification>): seq<Delivery> {
    if handler.None? then []
    else seq(|notes|, i requires 0 <= i < |notes| => Delivery(handler.value, notes[i]))
  }

  // ---------------------------------------------------------------------------
  // What an exchange yields.

  /** A response is returned only when the server answered with a status
      other than 404; on any other failure status it is the decoded body. */
  lemma ResponseOnlyFromServer(methodName: string, reply: Option<Reply>, codec: Codec)
    requires ExchangeResult(methodName, reply, codec).Ok?
    ensures reply.Some? && reply.value.status != 404
    ensures !IsSuccess(reply.value.status) ==>
      codec.response(reply.value.body) == Some(ExchangeResult(methodName, reply, codec).value)
  {
  }

  /** A failure status: 404 asks for a new session; any other one yields the
      body when it decodes as a response, and an error naming the status and
      the body otherwise. */
  lemma FailureStatus(methodName: string, r: Reply, codec: Codec)
    requires !IsSuccess(r.status)
    ensures r.status == 404 ==> ExchangeResult(methodName, Some(r), codec) == Err(SessionTerminated)
    ensures r.status != 404 ==>
      ExchangeResult(methodName, Some(r), codec)
        == if codec.response(r.body).Some? then Ok(codec.response(r.body).value)
           else Err(RequestFailed(r.status, r.body))
  {
  }

  /** A JSON reply: the decoded response is returned whatever its id, except
      that a null id is refused unless the request was a ping. */
  lemma JsonReply(methodName: string, r: Reply, codec: Codec)
    requires IsSuccess(r.status) && r.mediaType == JsonMediaType
    ensures ExchangeResult(methodName, Some(r), codec).Ok? <==>
      codec.response(r.body).Some? && (codec.response(r.body).value.id.Some? || methodName == PingMethod)
    ensures ExchangeResult(methodName, Some(r), codec).Ok? ==>
      ExchangeResult(methodName, Some(r), codec).value == codec.response(r.body).value
    ensures codec.response(r.body).None? ==> ExchangeResult(methodName, Some(r), codec) == Err(DecodeFailed(r.body))
  {
  }

  /** A stream reply: the result is the first event whose data decodes to a
      response with an id; when there is none the exchange fails, with
      `ContextDone` if it was cancelled and `NilResponse` otherwise. */
  lemma StreamReply(methodName: string, r: Reply, codec: Codec) returns (k: nat)
    requires IsSuccess(r.status) && r.mediaType == EventStreamMediaType
    ensures var events := DecodeBody(r.body, r.end);
      var result := ExchangeResult(methodName, Some(r), codec);
      && (result.Ok? <==> exists i :: 0 <= i < |events| && IsTerminal(codec, events[i]))
      && (result.Ok? ==>
            && k < |events| && IsTerminal(codec, events[k])
            && result.value == codec.response(events[k].data).value
            && forall j :: 0 <= j < k ==> !IsTerminal(codec, events[j]))
      && (result.Err? ==> result.error == if r.end == Cancelled then ContextDone else NilResponse)
  {
    var events := DecodeBody(r.body, r.end);
    k := TerminalIndex(codec, events);
  }

  /** Any other media type is refused, naming the `Content-Type` header. */
  lemma OtherMediaType(methodName: string, r: Reply, codec: Codec)
    requires IsSuccess(r.status) && r.mediaType != JsonMediaType && r.mediaType != EventStreamMediaType
    ensures ExchangeResult(methodName, Some(r), codec) == Err(UnexpectedContentType(r.contentType))
  {
  }

  /** Event `j` decodes to a response with a null id and then to `n`. */
  predicate IsNoticeEvent(codec: Codec, events: seq<Event>, j: int, n: Notification) {
    && 0 <= j < |events|
    && codec.response(events[j].data).Some?
    && codec.response(events[j].data).value.id.None?
    && codec.notification(events[j].data) == Some(n)
  }

  /** Every notification handed over comes from an event before the
      response whose data decodes to a response with a null id and then to
      that notification. */
  lemma {:induction false} NoticesFromNullIdEvents(codec: Codec, events: seq<Event>, n: Notification)
    requires n in Notices(codec, events)
    ensures exists j :: IsNoticeEvent(codec, events, j, n)
  {
    var init := events[..|events| - 1];
    if n in Notices(codec, init) {
      NoticesFromNullIdEvents(codec, init, n);
      var j :| IsNoticeEvent(codec, init, j, n);
      assert init[j] == events[j];
      assert IsNoticeEvent(codec, events, j, n);
    } else {
      assert n in NoticeOf(codec, events[|events| - 1]);
      assert IsNoticeEvent(codec, events, |events| - 1, n);
    }
  }

  /** Every event before the response that carries a notification yields
      exactly it, in stream order. */
  /** The notifications of a prefix of the stream come first, in order. */
  lemma {:induction false} NoticesPrefix(codec: Codec, events: seq<Event>, k: nat)
    requires k <= |events|
    ensures Notices(codec, events[..k]) <= Notices(codec, events)
    decreases |events|
  {
    if k < |events| {
      var init := events[..|events| - 1];
      NoticesPrefix(codec, init, k);
      assert init[..k] == events[..k];
    } else {
      assert events[..k] == events;
    }
  }

  /** Conversely, every event whose response has a null id and whose data
      decodes as a notification hands that notification over, after those of
      the events before it. */
  lemma NullIdEventNoticed(codec: Codec, events: seq<Event>, j: nat, n: Notification)
    requires IsNoticeEvent(codec, events, j, n)
    ensures Notices(codec, events[..j]) + [n] <= Notices(codec, events)
  {
    assert events[..j + 1][..j] == events[..j];
    assert NoticeOf(codec, events[j]) == [n];
    NoticesPrefix(codec, events, j + 1);
  }

  lemma NoticesAppend(codec: Codec, events: seq<Event>, e: Event)
    ensures Notices(codec, events + [e]) == Notices(codec, events) + NoticeOf(codec, e)
  {
    assert (events + [e])[..|events|] == events;
  }

  /** Nothing is handed over when no handler is set, nor outside the stream
      path. */
  lemma NoHandlerNoDeliveries(reply: Option<Reply>, codec: Codec)
    ensures ExchangeNotices(reply, codec, false) == []
    ensures reply.None? || !IsSuccess(reply.value.status) || reply.value.mediaType != EventStreamMediaType ==>
      ExchangeNotices(reply, codec, true) == []
  {
  }

  // ---------------------------------------------------------------------------
  // The session token across an exchange.

  /** No method other than `initialize` stores a token: the token is either
      kept or, on a 404, cleared. */
  lemma OnlyInitializeStores(current: string, loaded: string, methodName: string, reply: Option<Reply>)
    requires methodName != InitializeMethod
    ensures SessionAfter(current, loaded, methodName, reply) == current
         || (SessionAfter(current, loaded, methodName, reply) == ""
             && reply.Some? && reply.value.status == 404 && current == loaded)
  {
  }

  /** A successful `initialize` stores the `Mcp-Session-Id` it receives,
      unless that is empty; it does so whatever the media type, so even an
      exchange that then fails keeps the new token. */
  lemma InitializeStoresHeader(current: string, loaded: string, r: Reply)
    requires IsSuccess(r.status)
    ensures SessionAfter(current, loaded, InitializeMethod, Some(r))
         == if r.sessionHeader != "" then r.sessionHeader else current
  {
  }

  /** A 404 clears the token only if it is still the one the exchange
      loaded: a token stored since then by another exchange survives. */
  lemma NotFoundCompareAndSwap(current: string, loaded: string, methodName: string, r: Reply)
    requires r.status == 404
    ensures SessionAfter(current, loaded, methodName, Some(r)) == if current == loaded then "" else current
  {
  }

  /** A request that could not be sent, or any failure status other than
      404, leaves the token as it is. */
  lemma FailureKeepsToken(current: string, loaded: string, methodName: string, reply: Option<Reply>)
    requires reply.None? || (!IsSuccess(reply.value.status) && reply.value.status != 404)
    ensures SessionAfter(current, loaded, methodName, reply) == current
  {
  }

  // ---------------------------------------------------------------------------
  // The outcome of `initialize`.

  /** The request `Initialize` sends. */
  function InitializeRequest(protocolVersion: string, clientInfo: map<string, Json>, capabilities: map<string, Json>)
    : Request
  {
    Request(Version, Id("1"), InitializeMethod, JObj(map[
      "protocolVersion" := JStr(protocolVersion),
      "clientInfo" := JObj(clientInfo),
      "capabilities" := JObj(capabilities)]))
  }

  /** `Initialize` as written: any response counts as success, even one that
      carries an error. */
  function InitializeFailure(result: Result<Response, TransportError>): (r: Option<TransportError>)
    ensures r.None? <==> result.Ok?
    ensures r.Some? ==> r.value == InitializeFailed(result.error)
  {
    if result.Ok? then None else Some(InitializeFailed(result.error))
  }

  /** `Initialize` as evidently intended: a response carrying an error is a
      failed initialization. */
  function CheckedInitializeFailure(result: Result<Response, TransportError>): (r: Option<TransportError>)
    ensures r.None? <==> result.Ok? && result.value.error.None?
    ensures result.Err? ==> r == Some(InitializeFailed(result.error))
    ensures result.Ok? && result.value.error.Some? ==> r == Some(InitializeRejected(result.value.error.value))
  {
    if result.Err? then Some(InitializeFailed(result.error))
    else if result.value.error.Some? then Some(InitializeRejected(result.value.error.value))
    else None
  }

  /** A server that refuses `initialize` with a JSON-RPC error, here with a
      500 status and the error in the body, is taken as having accepted it. */
  lemma InitializeAcceptsErrorResponse() returns (reply: Reply, codec: Codec)
    ensures reply.status == 500
    ensures ExchangeResult(InitializeMethod, Some(reply), codec).Ok?
    ensures ExchangeResult(InitializeMethod, Some(reply), codec).value.error.Some?
    ensures InitializeFailure(ExchangeResult(InitializeMethod, Some(reply), codec)).None?
    ensures CheckedInitializeFailure(ExchangeResult(InitializeMethod, Some(reply), codec)).Some?
  {
    var refusal := Response(Version, Some(Id("1")), None, Some(RpcError(-32603, "unsupported protocol version", None)));
    reply := Reply(500, "", JsonMediaType, JsonMediaType, "refusal", EndOfStream);
    codec := Codec(payload => Some(refusal), payload => None);
    assert codec.response(reply.body) == Some(refusal);
  }

  // ---------------------------------------------------------------------------
  // The transport.

  class StreamableHttp {
    const baseUrl: string
    /** Headers added to every request, after the fixed ones. */
    const headers: map<string, string>
    var sessionId: string
    var initialized: bool
    var handler: Option<HandlerId>
    var closed: bool
    /** The session tokens of the DELETE requests issued by `Close`. */
    ghost var deleteNotices: seq<string>
    /** Every notification handed to a handler, in order. */
    ghost var deliveries: seq<Delivery>

    /** A DELETE is issued at most once, only after closing, and always
        names a session. */
    ghost predicate Valid()
      reads this
    {
      && (!closed ==> deleteNotices == [])
      && |deleteNotices| <= 1
      && (forall i :: 0 <= i < |deleteNotices| ==> deleteNotices[i] != "")
    }

    constructor (baseUrl: string, headers: map<string, string>)
      ensures Valid()
      ensures this.baseUrl == baseUrl && this.headers == headers
      ensures sessionId == "" && !initialized && handler.None? && !closed
      ensures deleteNotices == [] && deliveries == []
    {
      this.baseUrl := baseUrl;
      this.headers := headers;
      sessionId := "";
      initialized := false;
      handler := None;
      closed := false;
      deleteNotices := [];
      deliveries := [];
    }

    method GetSessionId() returns (token: string)
      ensures token == sessionId
    {
      token := sessionId;
    }

    method SetNotificationHandler(h: Option<HandlerId>)
      modifies this`handler
      ensures handler == h
    {
      handler := h;
    }

    /** The first half of `SendRequest`: loads the session token and builds
        the request headers. `order` is the order in which the static headers
        are visited. */
    method BeginExchange(order: seq<string>) returns (loaded: string, sent: Header)
      requires Enumerates(order, headers)
      ensures loaded == sessionId
      ensures sent == RequestHeaders(sessionId, headers, order)
    {
      loaded := sessionId;
      sent := BuildHeaders(loaded, headers, order);
    }

    /** The second half of `SendRequest`: handles the server's reply to a
        request sent with the token `loaded`. */
    method FinishExchange(request: Request, loaded: string, reply: Option<Reply>, codec: Codec)
      returns (result: Result<Response, TransportError>, delivered: seq<Notification>)
      requires Valid()
      modifies this`sessionId, this`deliveries
      ensures Valid()
      ensures sessionId == SessionAfter(old(sessionId), loaded, request.methodName, reply)
      ensures result == ExchangeResult(request.methodName, reply, codec)
      ensures delivered == ExchangeNotices(reply, codec, handler.Some?)
      ensures deliveries == old(deliveries) + Deliveries(handler, delivered)
    {
      delivered := [];
      if reply.None? {
        return Err(SendFailed), [];
      }
      var r := reply.value;
      if !IsSuccess(r.status) {
        if r.status == 404 {
          if sessionId == loaded {
            sessionId := "";
          }
          return Err(SessionTerminated), [];
        }
        var decoded := codec.response(r.body);
        if decoded.Some? {
          return Ok(decoded.value), [];
        }
        return Err(RequestFailed(r.status, r.body)), [];
      }
      if request.methodName == InitializeMethod && r.sessionHeader != "" {
        sessionId := r.sessionHeader;
      }
      if r.mediaType == JsonMediaType {
        var decoded := codec.response(r.body);
        if decoded.None? {
          return Err(DecodeFailed(r.body)), [];
        }
        if decoded.value.id.None? && request.methodName != PingMethod {
          return Err(MissingId(r.body)), [];
        }
        return Ok(decoded.value), [];
      } else if r.mediaType == EventStreamMediaType {
        var lines := SplitLines(r.body).0;
        var events := ReadSse(lines, r.end);
        var terminal;
        terminal, delivered := Correlate(codec, events, handler.Some?);
        deliveries := deliveries + Deliveries(handler, delivered);
        if terminal.Some? {
          return Ok(terminal.value), delivered;
        } else if r.end == Cancelled {
          return Err(ContextDone), delivered;
        }
        return Err(NilResponse), delivered;
      }
      return Err(UnexpectedContentType(r.contentType)), [];
    }

    /** `SendRequest`: one request, one reply. */
    method SendRequest(request: Request, order: seq<string>, reply: Option<Reply>, codec: Codec)
      returns (sent: Header, result: Result<Response, TransportError>, delivered: seq<Notification>)
      requires Valid() && Enumerates(order, headers)
      modifies this`sessionId, this`deliveries
      ensures Valid()
      ensures sent == RequestHeaders(old(sessionId), headers, order)
      ensures sessionId == SessionAfter(old(sessionId), old(sessionId), request.methodName, reply)
      ensures result == ExchangeResult(request.methodName, reply, codec)
      ensures delivered == ExchangeNotices(reply, codec, handler.Some?)
      ensures deliveries == old(deliveries) + Deliveries(handler, delivered)
    {
      var loaded;
      loaded, sent := BeginExchange(order);
      result, delivered := FinishExchange(request, loaded, reply, codec);
    }

    /** `SendNotification`: only the status matters, and the session is never
        touched. */
    method SendNotification(notification: Notification, order: seq<string>, reply: Option<Reply>)
      returns (sent: Header, err: Option<TransportError>)
      requires Enumerates(order, headers)
      ensures sent == RequestHeaders(sessionId, headers, order)
      ensures err.None? <==> reply.Some? && IsSuccess(reply.value.status)
      ensures err == NotificationOutcome(reply)
    {
      sent := BuildHeaders(sessionId, headers, order);
      if reply.None? {
        return sent, Some(SendFailed);
      }
      if !IsSuccess(reply.value.status) {
        return sent, Some(NotificationFailed(reply.value.status, reply.value.body));
      }
      err := None;
    }

    /** `Initialize`: sends `initialize` with id "1" and marks the transport
        initialized when the exchange yields a response, whatever that
        response says. */
    method Initialize(
      protocolVersion: string, clientInfo: map<string, Json>, capabilities: map<string, Json>,
      order: seq<string>, reply: Option<Reply>, codec: Codec)
      returns (request: Request, sent: Header, err: Option<TransportError>)
      requires Valid() && Enumerates(order, headers)
      modifies this`sessionId, this`deliveries, this`initialized
      ensures Valid()
      ensures request == InitializeRequest(protocolVersion, clientInfo, capabilities)
      ensures sent == RequestHeaders(old(sessionId), headers, order)
      ensures sessionId == SessionAfter(old(sessionId), old(sessionId), InitializeMethod, reply)
      ensures err == InitializeFailure(ExchangeResult(InitializeMethod, reply, codec))
      ensures initialized == (old(initialized) || err.None?)
      ensures deliveries == old(deliveries) + Deliveries(handler, ExchangeNotices(reply, codec, handler.Some?))
    {
      request := InitializeRequest(protocolVersion, clientInfo, capabilities);
      var result, delivered;
      sent, result, delivered := SendRequest(request, order, reply, codec);
      if result.Err? {
        return request, sent, Some(InitializeFailed(result.error));
      }
      initialized := true;
      err := None;
    }

    /** `Initialize` corrected: a response that carries an error leaves the
        transport uninitialized and is reported. */
    method InitializeChecked(
      protocolVersion: string, clientInfo: map<string, Json>, capabilities: map<string, Json>,
      order: seq<string>, reply: Option<Reply>, codec: Codec)
      returns (request: Request, sent: Header, err: Option<TransportError>)
      requires Valid() && Enumerates(order, headers)
      modifies this`sessionId, this`deliveries, this`initialized
      ensures Valid()
      ensures request == InitializeRequest(protocolVersion, clientInfo, capabilities)
      ensures sent == RequestHeaders(old(sessionId), headers, order)
      ensures sessionId == SessionAfter(old(sessionId), old(sessionId), InitializeMethod, reply)
      ensures err == CheckedInitializeFailure(ExchangeResult(InitializeMethod, reply, codec))
      ensures initialized == (old(initialized) || err.None?)
      ensures !old(initialized) && initialized ==>
        var result := ExchangeResult(InitializeMethod, reply, codec);
        result.Ok? && result.value.error.None?
      ensures deliveries == old(deliveries) + Deliveries(handler, ExchangeNotices(reply, codec, handler.Some?))
    {
      request := InitializeRequest(protocolVersion, clientInfo, capabilities);
      var result, delivered;
      sent, result, delivered := SendRequest(request, order, reply, codec);
      if result.Err? {
        return request, sent, Some(InitializeFailed(result.error));
      }
      if result.value.error.Some? {
        return request, sent, Some(InitializeRejected(result.value.error.value));
      }
      initialized := true;
      err := None;
    }

    /** `Close`: the first call closes the transport and, when a session is
        held, forgets it and issues one DELETE naming it; later calls do
        nothing. */
    method Close()
      requires Valid()
      modifies this`closed, this`sessionId, this`deleteNotices
      ensures Valid() && closed
      ensures old(closed) ==> sessionId == old(sessionId) && deleteNotices == old(deleteNotices)
      ensures !old(closed) ==> sessionId == ""
      ensures !old(closed) ==> deleteNotices == if old(sessionId) != "" then [old(sessionId)] else []
    {
      if closed {
        return;
      }
      closed := true;
      var token := sessionId;
      if token != "" {
        sessionId := "";
        deleteNotices := deleteNotices + [token];
      }
    }
  }
}
