/** The `/api/chat` proxy route: the `POST` and `GET` handlers as pure
    functions from the caller's message and session id, and the outcome of
    the one upstream completion call, to the upstream request body the
    handler builds and the JSON reply it returns. */
module ChatRoute {
  import opened JsValues

  /** The reply texts, as the route writes them. */
  const EmptyMessageText := "消息不能为空"
  const ServiceUnavailableText := "智能体服务暂时不可用，请稍后重试"
  const MalformedResponseText := "响应格式异常"
  const InternalErrorText := "服务器内部错误"

  /** The `output` object of an upstream completion reply; both fields may be
      absent. */
  datatype UpstreamOutput = UpstreamOutput(text: Option<string>, sessionId: Option<string>)

  /** What the upstream call produced: a response with its HTTP status and,
      for a JSON body, its `output` field; or an exception on the way. */
  datatype Upstream =
    | Response(status: int, output: Option<UpstreamOutput>)
    | Threw

  /** `Response.ok`: the status is in the range 200 to 299. */
  predicate ResponseOk(status: int) {
    200 <= status <= 299
  }

  /** The statuses a JSON reply with a body can be built with: 200 to 599,
      except the null-body statuses 101, 103, 204, 205 and 304. Building the
      reply with any other status throws. */
  predicate ReplyStatusAllowed(status: int) {
    200 <= status <= 599 && status !in {101, 103, 204, 205, 304}
  }

  /** The JSON reply: `{error}` with a status, or
      `{message, sessionId, success: true}` with status 200. */
  datatype Reply =
    | ErrorReply(status: int, error: string)
    | SuccessReply(message: string, sessionId: Option<string>)

  /** The request body sent upstream: `input` with the prompt and either an
      empty `biz_params` object or an optional `session_id`; an optional
      `parameters.incremental_output`; and whether an empty `debug` object
      is present. */
  datatype UpstreamInput = UpstreamInput(prompt: string, hasBizParams: bool, sessionId: Option<string>)
  datatype Parameters = Parameters(incrementalOutput: bool)
  datatype UpstreamRequest = UpstreamRequest(input: UpstreamInput, parameters: Option<Parameters>, hasDebug: bool)

  /** What a handler does: the upstream request it sends, if any, and its reply. */
  datatype Handled = Handled(upstreamRequest: Option<UpstreamRequest>, reply: Reply)

  /** The body of a `POST`: either reading its fields throws (it does not
      parse as JSON, or it is JSON `null`, which cannot be destructured), or
      it carries optional `message` and `sessionId` fields. */
  datatype PostRequest =
    | UnparsableBody
    | JsonBody(message: Option<string>, sessionId: Option<string>)

  /** Classifies the upstream outcome into the reply, the part both handlers
      share once the request has been sent. Exactly one reply; only a 2xx
      response whose `output.text` is non-empty is a success, and then the
      session id is the upstream one when it is non-empty, else the caller's.
      A non-2xx upstream status is passed on when a reply can carry it;
      otherwise building that reply throws and the reply is an internal
      error. An error reply never carries a 2xx status, and every reply
      carries a status the reply can be built with. */
  function UpstreamReply(callerSessionId: Option<string>, upstream: Upstream): (r: Reply)
    ensures upstream.Threw? ==> r == ErrorReply(500, InternalErrorText)
    ensures upstream.Response? && !ResponseOk(upstream.status) && ReplyStatusAllowed(upstream.status) ==>
              r == ErrorReply(upstream.status, ServiceUnavailableText)
    ensures upstream.Response? && !ResponseOk(upstream.status) && !ReplyStatusAllowed(upstream.status) ==>
              r == ErrorReply(500, InternalErrorText)
    ensures upstream.Response? && ResponseOk(upstream.status) &&
            (upstream.output.None? || !Truthy(upstream.output.value.text)) ==>
              r == ErrorReply(500, MalformedResponseText)
    ensures r.SuccessReply? <==>
              upstream.Response? && ResponseOk(upstream.status) &&
              upstream.output.Some? && Truthy(upstream.output.value.text)
    ensures r.SuccessReply? ==>
              && Some(r.message) == upstream.output.value.text
              && r.message != ""
              && (Truthy(upstream.output.value.sessionId) ==> r.sessionId == upstream.output.value.sessionId)
              && (!Truthy(upstream.output.value.sessionId) ==> r.sessionId == callerSessionId)
    ensures r.ErrorReply? ==> !ResponseOk(r.status) && ReplyStatusAllowed(r.status)
  {
    match upstream
    case Threw => ErrorReply(500, InternalErrorText)
    case Response(status, output) =>
      if !ResponseOk(status) then
        if ReplyStatusAllowed(status) then ErrorReply(status, ServiceUnavailableText)
        else ErrorReply(500, InternalErrorText)
      else if output.Some? && Truthy(output.value.text) then
        SuccessReply(output.value.text.value, Or(output.value.sessionId, callerSessionId))
      else
        ErrorReply(500, MalformedResponseText)
  }

  /** The `POST` handler. An unparsable body is an internal error; a falsy
      message is a 400 and nothing is sent upstream; otherwise the upstream
      body is the prompt with an empty `biz_params`, so the caller's session
      id is never forwarded, and the reply classifies the upstream outcome. */
  function Post(request: PostRequest, upstream: Upstream): (h: Handled)
    ensures h.upstreamRequest.Some? <==> request.JsonBody? && Truthy(request.message)
    ensures request.UnparsableBody? ==> h.reply == ErrorReply(500, InternalErrorText)
    ensures request.JsonBody? && !Truthy(request.message) ==>
              h.reply == ErrorReply(400, EmptyMessageText)
    ensures h.upstreamRequest.Some? ==>
              && h.upstreamRequest.value ==
                 UpstreamRequest(UpstreamInput(request.message.value, true, None), None, false)
              && h.reply == UpstreamReply(request.sessionId, upstream)
  {
    match request
    case UnparsableBody => Handled(None, ErrorReply(500, InternalErrorText))
    case JsonBody(message, sessionId) =>
      if !Truthy(message) then
        Handled(None, ErrorReply(400, EmptyMessageText))
      else
        var body := UpstreamRequest(UpstreamInput(message.value, true, None), None, false);
        Handled(Some(body), UpstreamReply(sessionId, upstream))
  }

  /** The `GET` handler, reading `message` and `sessionId` from the query
      string. A falsy message is a 400 and nothing is sent upstream;
      otherwise the upstream body carries `input.session_id` exactly when the
      session id is non-empty, always asks for incremental output and holds
      an empty `debug` object, and the reply classifies the upstream outcome. */
  function Get(message: Option<string>, sessionId: Option<string>, upstream: Upstream): (h: Handled)
    ensures h.upstreamRequest.Some? <==> Truthy(message)
    ensures !Truthy(message) ==> h.reply == ErrorReply(400, EmptyMessageText)
    ensures h.upstreamRequest.Some? ==>
              && h.upstreamRequest.value.input.prompt == message.value
              && !h.upstreamRequest.value.input.hasBizParams
              && (h.upstreamRequest.value.input.sessionId.Some? <==> Truthy(sessionId))
              && (Truthy(sessionId) ==> h.upstreamRequest.value.input.sessionId == sessionId)
              && h.upstreamRequest.value.parameters == Some(Parameters(true))
              && h.upstreamRequest.value.hasDebug
              && h.reply == UpstreamReply(sessionId, upstream)
  {
    if !Truthy(message) then
      Handled(None, ErrorReply(400, EmptyMessageText))
    else
      var input := UpstreamInput(message.value, false, if Truthy(sessionId) then sessionId else None);
      Handled(Some(UpstreamRequest(input, Some(Parameters(true)), true)), UpstreamReply(sessionId, upstream))
  }

  /** For a parsed body, `POST` and `GET` reply alike; they differ only in the
      upstream body: `GET` forwards a non-empty session id, `POST` never does. */
  lemma PostAndGetReplyAlike(message: Option<string>, sessionId: Option<string>, upstream: Upstream)
    ensures Post(JsonBody(message, sessionId), upstream).reply == Get(message, sessionId, upstream).reply
    ensures Truthy(message) && Truthy(sessionId) ==>
              && Post(JsonBody(message, sessionId), upstream).upstreamRequest.value.input.sessionId == None
              && Get(message, sessionId, upstream).upstreamRequest.value.input.sessionId == sessionId
  {
  }

  /** The route rejects only a falsy message: a non-empty one made only of
      whitespace is sent upstream as it is. */
  lemma WhitespaceMessageIsForwarded(m: string, sessionId: Option<string>, upstream: Upstream)
    requires m != "" && AllWhitespace(m)
    ensures Post(JsonBody(Some(m), sessionId), upstream).upstreamRequest.Some?
    ensures Get(Some(m), sessionId, upstream).upstreamRequest.Some?
  {
  }

  /** Sending "hello" without a session id, to an upstream that answers "hi"
      in session "S1", yields `{message: "hi", sessionId: "S1", success: true}`;
      a 503 from upstream is passed on as a 503, while a 304, which a reply
      with a body cannot carry, ends as an internal error. */
  lemma HelloExchange()
    ensures Post(JsonBody(Some("hello"), None),
                 Response(200, Some(UpstreamOutput(Some("hi"), Some("S1"))))).reply
            == SuccessReply("hi", Some("S1"))
    ensures Post(JsonBody(Some("hello"), Some("S1")), Response(503, None)).reply
            == ErrorReply(503, ServiceUnavailableText)
    ensures Post(JsonBody(Some("hello"), Some("S1")), Response(304, None)).reply
            == ErrorReply(500, InternalErrorText)
  {
  }
}
