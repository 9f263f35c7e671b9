/**
  `handle_mcp_request`: routes one decoded JSON-RPC request by its method name and builds the
  response. The notification sender is an oracle: it receives the text to deliver and answers
  `Ok(())` or the error `send_telegram_notification` returned. The model records every text
  handed to the sender, in order.
*/
module McpDispatch {
  import opened Wrappers
  import opened Json
  import opened Mcp
  import Telegram

  /** The sender bound to a bot token and a chat id. */
  type Sender = string -> Result<(), string>

  /**
    The outcome of one request: the response, or the sender's error propagated by `?`
    (which the caller turns into a transport failure); and the texts handed to the sender.
  */
  datatype Handled = Handled(reply: Result<Response, string>, sent: seq<string>)

  const MethodNotFoundPrefix: string := "Method not found: "
  const InvalidParamsMessage: string := "Invalid params"

  /** The icon of each event method. */
  function Icon(k: EventKind): (icon: string)
    ensures EventName(k) == "$/userInputRequired" ==> icon == "\U{26A0}\U{FE0F}"
    ensures EventName(k) == "$/progress" ==> icon == "\U{23F3}"
    ensures EventName(k) == "$/error" ==> icon == "\U{274C}"
    ensures EventName(k) == "$/taskComplete" ==> icon == "\U{2705}"
  {
    match k
    case UserInputRequired => "\U{26A0}\U{FE0F}"
    case Progress => "\U{23F3}"
    case ErrorOccurred => "\U{274C}"
    case TaskComplete => "\U{2705}"
  }

  /** The title of an event, also its default message. */
  function Title(k: EventKind): (title: string)
    ensures EventName(k) == "$/userInputRequired" ==> title == "User Input Required"
    ensures EventName(k) == "$/progress" ==> title == "Task in Progress"
    ensures EventName(k) == "$/error" ==> title == "Error Occurred"
    ensures EventName(k) == "$/taskComplete" ==> title == "Task Completed"
  {
    match k
    case UserInputRequired => "User Input Required"
    case Progress => "Task in Progress"
    case ErrorOccurred => "Error Occurred"
    case TaskComplete => "Task Completed"
  }

  /**
    The message of an event: the `message` member when present (its text, or the title when it
    is not a string), otherwise the `description` member likewise, otherwise the title.
  */
  function ResolveMessage(params: Json, title: string): (msg: string)
    ensures Get(params, "message").Some? && Get(params, "message").value.Str? ==>
              msg == Get(params, "message").value.s
    ensures Get(params, "message").Some? && !Get(params, "message").value.Str? ==> msg == title
    ensures (Get(params, "message").None? && Get(params, "description").Some?
             && Get(params, "description").value.Str?) ==> msg == Get(params, "description").value.s
    ensures msg != title ==>
              (|| Get(params, "message") == Some(Str(msg))
               || (Get(params, "message").None? && Get(params, "description") == Some(Str(msg))))
  {
    match Get(params, "message")
    case Some(m) => AsStr(m).GetOr(title)
    case None =>
      match Get(params, "description")
      case Some(d) => AsStr(d).GetOr(title)
      case None => title
  }

  /** The text sent for an event: its icon, a space, its title, a blank line, then the message. */
  function EventText(k: EventKind, message: string): (text: string)
    ensures |text| == |Icon(k)| + 3 + |Title(k)| + |message|
    ensures text[..|Icon(k)|] == Icon(k)
    ensures text[|Icon(k)|..|Icon(k)| + 1 + |Title(k)|] == " " + Title(k)
    ensures text[|Icon(k)| + 1 + |Title(k)|..|Icon(k)| + 3 + |Title(k)|] == "\n\n"
    ensures text[|Icon(k)| + 3 + |Title(k)|..] == message
  {
    Icon(k) + " " + Title(k) + "\n\n" + message
  }

  /** The `notify_telegram` message carried by `tools/call` params, when every decoding step succeeds. */
  function NotifyMessage(params: Option<Json>): (r: Option<string>)
    ensures r.Some? ==> params.Some? && DecodeToolCall(params.value).Some?
                        && DecodeToolCall(params.value).value.name == NotifyToolName
                        && DecodeNotifyParams(DecodeToolCall(params.value).value.arguments) == r
    ensures params.Some? && DecodeToolCall(params.value).Some?
            && DecodeToolCall(params.value).value.name == NotifyToolName
            && DecodeNotifyParams(DecodeToolCall(params.value).value.arguments).Some?
            ==> r == DecodeNotifyParams(DecodeToolCall(params.value).value.arguments)
  {
    if params.None? then None
    else match DecodeToolCall(params.value)
      case None => None
      case Some(call) =>
        if call.name != NotifyToolName then None
        else DecodeNotifyParams(call.arguments)
  }

  function Answer(result: Json, id: Option<Json>): Result<Response, string> {
    Ok(ResultResponse(JsonRpcVersion, result, id))
  }

  function Refuse(code: int, message: string, id: Option<Json>): Result<Response, string> {
    Ok(ErrorResponse(JsonRpcVersion, McpError(code, message), id))
  }

  /** Hands `text` to the sender; on success answers `result`, on failure propagates the error. */
  function SendThen(send: Sender, text: string, result: Json, id: Option<Json>): (h: Handled)
    ensures h.sent == [text]
    ensures h.reply.Err? <==> send(text).Err?
  {
    match send(text)
    case Err(e) => Handled(Err(e), [text])
    case Ok(_) => Handled(Answer(result, id), [text])
  }

  /** The whole dispatch of `handle_mcp_request`. */
  function HandleMcpRequest(req: Request, send: Sender): (h: Handled)
    ensures |h.sent| <= 1
    ensures h.reply.Ok? ==> h.reply.value.id == req.id && h.reply.value.jsonrpc == JsonRpcVersion
    ensures h.reply.Err? <==> |h.sent| == 1 && send(h.sent[0]).Err?
    ensures h.reply.Err? ==> h.reply.error == send(h.sent[0]).error
  {
    match ParseMethod(req.methodName)
    case Initialize => Handled(Answer(InitializeResult, req.id), [])
    case ToolsList => Handled(Answer(ToolsListResult, req.id), [])
    case ToolsCall =>
      (match NotifyMessage(req.params)
       case Some(message) => SendThen(send, message, TextContent(SentSuccessfully), req.id)
       case None => Handled(Refuse(InvalidParams, InvalidParamsMessage, req.id), []))
    case Subscribe => Handled(Answer(Empty, req.id), [])
    case Unsubscribe => Handled(Answer(Empty, req.id), [])
    case Event(k) =>
      if req.params.Some? then
        SendThen(send, EventText(k, ResolveMessage(req.params.value, Title(k))), Null, req.id)
      else Handled(Answer(Null, req.id), [])
    case Unknown(name) =>
      Handled(Refuse(MethodNotFound, MethodNotFoundPrefix + name, req.id), [])
  }

  // ---------------------------------------------------------------------------------------
  // Properties of the dispatch
  // ---------------------------------------------------------------------------------------

  /** Any name outside the recognised set, and only such a name, is answered "Method not found" without a send. */
  lemma UnknownMethodIsNotFound(req: Request, send: Sender)
    ensures var h := HandleMcpRequest(req, send);
            req.methodName !in KnownMethods <==>
              h == Handled(Refuse(MethodNotFound, MethodNotFoundPrefix + req.methodName, req.id), [])
  {
  }

  /** A -32601 error is returned only for an unrecognised method. */
  lemma NotFoundOnlyForUnknown(req: Request, send: Sender)
    requires HandleMcpRequest(req, send).reply.Ok?
    requires HandleMcpRequest(req, send).reply.value.ErrorResponse?
    requires HandleMcpRequest(req, send).reply.value.error.code == MethodNotFound
    ensures req.methodName !in KnownMethods
  {
  }

  /** Matching is case-sensitive: changing the case of "initialize" gives "Method not found". */
  lemma MatchingIsCaseSensitive(params: Option<Json>, id: Option<Json>, send: Sender)
    ensures HandleMcpRequest(Request("Initialize", params, id), send).reply
            == Refuse(MethodNotFound, "Method not found: Initialize", id)
  {
    assert ParseMethod("Initialize") == Unknown("Initialize");
    assert MethodNotFoundPrefix + "Initialize" == "Method not found: Initialize";
  }

  /** `initialize` answers the same descriptor whatever the params and id, and sends nothing. */
  lemma InitializeIsConstant(params: Option<Json>, id: Option<Json>, send: Sender)
    ensures var h := HandleMcpRequest(Request("initialize", params, id), send);
            && h.sent == []
            && h.reply == Ok(ResultResponse(JsonRpcVersion, InitializeResult, id))
            && Get(InitializeResult, "protocolVersion") == Some(Str("2024-11-05"))
            && Get(InitializeResult, "serverInfo")
               == Some(Obj(map["name" := Str("telegram-notification-mcp"), "version" := Str("0.1.0")]))
            && Get(InitializeResult, "capabilities")
               == Some(Obj(map["tools" := Obj(map[]), "notifications" := Obj(map[])]))
  {
  }

  /** `tools/list` lists exactly one tool, `notify_telegram`, whose input is an object requiring `message`. */
  lemma ToolsListHasNotifyTool(params: Option<Json>, id: Option<Json>, send: Sender)
    ensures var h := HandleMcpRequest(Request("tools/list", params, id), send);
            && h.sent == []
            && h.reply.Ok? && h.reply.value.ResultResponse? && h.reply.value.id == id
            && var tools := Get(h.reply.value.result, "tools");
               && tools.Some? && tools.value.Arr? && |tools.value.items| == 1
               && Get(tools.value.items[0], "name") == Some(Str("notify_telegram"))
               && var schema := Get(tools.value.items[0], "inputSchema");
                  && schema.Some?
                  && Get(schema.value, "type") == Some(Str("object"))
                  && Get(schema.value, "required") == Some(Arr([Str("message")]))
  {
  }

  /** `tools/call` sends exactly when the params carry a `notify_telegram` message, and sends that message. */
  lemma ToolsCallSendsIffValid(params: Option<Json>, id: Option<Json>, send: Sender)
    ensures var h := HandleMcpRequest(Request("tools/call", params, id), send);
            && (h.sent != [] <==> NotifyMessage(params).Some?)
            && (NotifyMessage(params).Some? ==> h.sent == [NotifyMessage(params).value])
  {
  }

  /** Every accepted `tools/call` whose send is delivered answers the fixed success content. */
  lemma ToolsCallSuccess(params: Option<Json>, id: Option<Json>, send: Sender)
    requires NotifyMessage(params).Some? && send(NotifyMessage(params).value) == Ok(())
    ensures var h := HandleMcpRequest(Request("tools/call", params, id), send);
            && h.sent == [NotifyMessage(params).value]
            && h.reply == Ok(ResultResponse(JsonRpcVersion, TextContent(SentSuccessfully), id))
            && ContentText(h.reply.value.result) == Some("Notification sent successfully")
  {
  }

  /**
    With params objects, whatever other members they carry, `tools/call` named `notify_telegram`
    sends exactly the string `message` member of its `arguments` object.
  */
  lemma ToolsCallSendsArgumentsMessage(params: map<string, Json>, arguments: map<string, Json>,
                                       message: string, id: Option<Json>, send: Sender)
    requires "name" in params && params["name"] == Str(NotifyToolName)
    requires "arguments" in params && params["arguments"] == Obj(arguments)
    requires "message" in arguments && arguments["message"] == Str(message)
    ensures HandleMcpRequest(Request("tools/call", Some(Obj(params)), id), send).sent == [message]
  {
  }

  /** Every other `tools/call` is refused with -32602 "Invalid params" and sends nothing. */
  lemma ToolsCallInvalidParams(params: Option<Json>, id: Option<Json>, send: Sender)
    requires NotifyMessage(params).None?
    ensures HandleMcpRequest(Request("tools/call", params, id), send)
            == Handled(Refuse(-32602, "Invalid params", id), [])
  {
  }

  /** A tool name other than `notify_telegram` is never invoked, whatever the arguments. */
  lemma OtherToolRefused(name: string, arguments: Json, id: Option<Json>, send: Sender)
    requires name != NotifyToolName
    ensures HandleMcpRequest(Request("tools/call", Some(EncodeToolCall(ToolCall(name, arguments))), id), send)
            == Handled(Refuse(InvalidParams, InvalidParamsMessage, id), [])
  {
    DecodeEncodeToolCall(ToolCall(name, arguments));
  }

  /** A sender failure on `tools/call` is propagated as the call's error, not as a protocol error. */
  lemma ToolsCallPropagatesSendFailure(params: Option<Json>, id: Option<Json>, send: Sender)
    requires NotifyMessage(params).Some? && send(NotifyMessage(params).value).Err?
    ensures HandleMcpRequest(Request("tools/call", params, id), send).reply
            == Err(send(NotifyMessage(params).value).error)
  {
  }

  /** -32602 comes only from `tools/call` params that do not carry a `notify_telegram` message. */
  lemma InvalidParamsOnlyFromToolsCall(req: Request, send: Sender)
    requires HandleMcpRequest(req, send).reply.Ok?
    requires HandleMcpRequest(req, send).reply.value.ErrorResponse?
    requires HandleMcpRequest(req, send).reply.value.error.code == InvalidParams
    ensures req.methodName == "tools/call" && NotifyMessage(req.params).None?
  {
  }

  /** Subscribing and unsubscribing acknowledge with `{}`, send nothing and keep no state. */
  lemma SubscriptionsAcknowledge(subscribe: bool, params: Option<Json>, id: Option<Json>, send: Sender)
    ensures var name := if subscribe then "notifications/subscribe" else "notifications/unsubscribe";
            HandleMcpRequest(Request(name, params, id), send) == Handled(Answer(Obj(map[]), id), [])
  {
  }

  /** An event with params sends one formatted text and answers `null`; without params it only answers. */
  lemma EventSendsFormattedText(k: EventKind, params: Option<Json>, id: Option<Json>, send: Sender)
    ensures var h := HandleMcpRequest(Request(EventName(k), params, id), send);
            && (params.None? ==> h == Handled(Answer(Null, id), []))
            && (params.Some? ==>
                  && h.sent == [Icon(k) + " " + Title(k) + "\n\n" + ResolveMessage(params.value, Title(k))]
                  && (send(h.sent[0]).Ok? ==> h.reply == Answer(Null, id)))
  {
    ParseMethodName(Event(k));
  }

  /** The `message` member is used even when a `description` is present. */
  lemma MessageTakesPrecedence(k: EventKind, message: string, description: string, id: Option<Json>, send: Sender)
    ensures var params := Obj(map["message" := Str(message), "description" := Str(description)]);
            HandleMcpRequest(Request(EventName(k), Some(params), id), send).sent
            == [Icon(k) + " " + Title(k) + "\n\n" + message]
  {
    ParseMethodName(Event(k));
  }

  /** A non-string `message` falls back to the title, not to `description`. */
  lemma NonStringMessageUsesTitle(k: EventKind, message: Json, description: string, id: Option<Json>, send: Sender)
    requires !message.Str?
    ensures var params := Obj(map["message" := message, "description" := Str(description)]);
            HandleMcpRequest(Request(EventName(k), Some(params), id), send).sent
            == [Icon(k) + " " + Title(k) + "\n\n" + Title(k)]
  {
    ParseMethodName(Event(k));
  }

  /** A completed task with message "done" sends "✅ Task Completed", a blank line, then "done". */
  lemma TaskCompleteExample(id: Option<Json>, send: Sender)
    ensures HandleMcpRequest(Request("$/taskComplete", Some(Obj(map["message" := Str("done")])), id), send).sent
            == ["\U{2705} Task Completed\n\ndone"]
  {
    var params := Obj(map["message" := Str("done")]);
    assert ResolveMessage(params, Title(TaskComplete)) == "done";
    assert EventText(TaskComplete, "done") == "\U{2705} Task Completed\n\ndone";
  }

  /** Only `tools/call` and the four events ever reach the sender. */
  lemma OnlyToolsCallAndEventsSend(req: Request, send: Sender)
    requires req.methodName != "tools/call" && !ParseMethod(req.methodName).Event?
    ensures HandleMcpRequest(req, send).sent == []
  {
  }

  /**
    Seen on the wire: a request object that decodes gets a serialised response whose `id` is the
    request's `id` member, or `null` when that member is absent or `null`.
  */
  lemma WireIdEchoed(v: Json, send: Sender)
    requires v.Obj? && DecodeRequest(v).Some?
    requires HandleMcpRequest(DecodeRequest(v).value, send).reply.Ok?
    ensures var resp := HandleMcpRequest(DecodeRequest(v).value, send).reply.value;
            SerializeResponse(resp).fields["id"] == if "id" in v.fields then v.fields["id"] else Null
  {
  }

  // ---------------------------------------------------------------------------------------
  // The dispatcher wired to the Telegram sender
  // ---------------------------------------------------------------------------------------

  /** `handle_mcp_request` with its bot token and chat id, sending through `send_telegram_notification`. */
  function Serve(req: Request, botToken: string, chatId: string,
                 fetch: Telegram.HttpRequest -> Telegram.FetchReply): (h: Handled)
    ensures |h.sent| <= 1
    ensures h.reply.Ok? ==> h.reply.value.id == req.id
    ensures h.reply.Err? <==>
              && |h.sent| == 1
              && var reply := fetch(Telegram.BuildRequest(botToken, chatId, h.sent[0]));
                 !(reply.Received? && Telegram.DecodeTelegramResponse(reply.body).Some?
                   && Telegram.DecodeTelegramResponse(reply.body).value.ok)
  {
    HandleMcpRequest(req, m => Telegram.SendTelegramNotification(botToken, chatId, m, fetch))
  }
}
