/**
  The TypeScript worker: the `sendTelegramMessage` helper, the `send_telegram_message` tool
  callback, and the path router of the default `fetch` handler. The network call is an oracle
  that either throws or answers with the Bot API's `{ok, description, result}` reply, of which
  the model keeps the chat id of the sent message.
*/
module Worker {
  import opened Wrappers
  import opened Json
  import Mcp
  import Telegram
  import Decimal

  /** A chat id as the tool accepts it: a string or a number. */
  datatype ChatId = TextChat(text: string) | NumericChat(number: int)

  /** JavaScript truthiness of a chat id: the empty string and zero are falsy. */
  function ChatTruthy(c: ChatId): (truthy: bool)
    ensures truthy <==> c != TextChat("") && c != NumericChat(0)
  {
    match c
    case TextChat(t) => t != ""
    case NumericChat(n) => n != 0
  }

  /** JavaScript truthiness of an optional string: `undefined` and the empty string are falsy. */
  function TextTruthy(s: Option<string>): (truthy: bool)
    ensures truthy <==> s != None && s != Some("")
  {
    s.Some? && s.value != ""
  }

  datatype ParseMode = Markdown | Html

  function ParseModeName(p: ParseMode): string {
    match p
    case Markdown => "Markdown"
    case Html => "HTML"
  }

  /** What a `catch` receives: an `Error` with its message, or any other thrown value. */
  datatype Thrown = ErrorValue(message: string) | NonError

  /** The fetch oracle's answer: it threw, or the Bot API replied. */
  datatype ApiReply = Threw(thrown: Thrown) | Answered(ok: bool, description: Option<string>, sentChatId: int)

  /** The request `sendTelegramMessage` hands to `fetch`. */
  datatype ApiRequest = ApiRequest(verb: string, url: string, contentType: string, body: Json)

  function ChatIdJson(c: ChatId): Json {
    match c
    case TextChat(t) => Str(t)
    case NumericChat(n) => Num(n)
  }

  /** The request body; `JSON.stringify` drops the optional members that are `undefined`. */
  function RequestBody(chatId: ChatId, text: string, parseMode: Option<ParseMode>,
                       disableNotification: Option<bool>): (b: Json)
    ensures b.Obj? && "chat_id" in b.fields && "text" in b.fields
    ensures b.fields["chat_id"] == ChatIdJson(chatId) && b.fields["text"] == Str(text)
    ensures "parse_mode" in b.fields <==> parseMode.Some?
    ensures parseMode.Some? ==> b.fields["parse_mode"] == Str(ParseModeName(parseMode.value))
    ensures "disable_notification" in b.fields <==> disableNotification.Some?
    ensures disableNotification.Some? ==> b.fields["disable_notification"] == Bool(disableNotification.value)
    ensures b.fields.Keys <= {"chat_id", "text", "parse_mode", "disable_notification"}
  {
    var base := map["chat_id" := ChatIdJson(chatId), "text" := Str(text)];
    var withMode := if parseMode.Some? then base["parse_mode" := Str(ParseModeName(parseMode.value))] else base;
    Obj(if disableNotification.Some? then withMode["disable_notification" := Bool(disableNotification.value)]
        else withMode)
  }

  /** The error text when the reply is not `ok`: its description, or "Unknown error" when that is falsy. */
  function ApiErrorMessage(description: Option<string>): (m: string)
    ensures TextTruthy(description) ==> m == Telegram.ApiErrorPrefix + description.value
    ensures !TextTruthy(description) ==> m == "Telegram API error: Unknown error"
  {
    Telegram.ApiErrorPrefix + (if TextTruthy(description) then description.value else Telegram.UnknownError)
  }

  /** The JSON POST of one message to the bot's `sendMessage` endpoint. */
  function ApiCall(botToken: string, chatId: ChatId, text: string, parseMode: Option<ParseMode>,
                   disableNotification: Option<bool>): (r: ApiRequest)
    ensures r.verb == "POST" && r.contentType == "application/json"
    ensures Telegram.BotTokenOf(r.url) == Some(botToken)
    ensures r.body == RequestBody(chatId, text, parseMode, disableNotification)
  {
    Telegram.BotTokenOfSendMessageUrl(botToken);
    ApiRequest("POST", Telegram.SendMessageUrl(botToken), "application/json",
               RequestBody(chatId, text, parseMode, disableNotification))
  }

  /**
    `sendTelegramMessage`: one request to the Bot API; a throw passes through, a reply that is not
    `ok` becomes a thrown `Error`, and an `ok` reply yields the chat id of the sent message.
  */
  function SendTelegramMessage(botToken: string, chatId: ChatId, text: string, parseMode: Option<ParseMode>,
                               disableNotification: Option<bool>, fetch: ApiRequest -> ApiReply)
    : (r: Result<int, Thrown>)
    ensures var request := ApiCall(botToken, chatId, text, parseMode, disableNotification);
            request.verb == "POST" && request.contentType == "application/json"
    ensures var reply := fetch(ApiCall(botToken, chatId, text, parseMode, disableNotification));
            && (r.Ok? <==> reply.Answered? && reply.ok)
            && (r.Ok? ==> r.value == reply.sentChatId)
            && (reply.Threw? ==> r == Err(reply.thrown))
            && (reply.Answered? && !reply.ok ==> r == Err(ErrorValue(ApiErrorMessage(reply.description))))
  {
    var reply := fetch(ApiCall(botToken, chatId, text, parseMode, disableNotification));
    match reply
    case Threw(t) => Err(t)
    case Answered(ok, description, sentChatId) =>
      if !ok then Err(ErrorValue(ApiErrorMessage(description))) else Ok(sentChatId)
  }

  /** The text a caught value contributes: an Error's message, "Unknown error" for anything else. */
  function ThrownText(t: Thrown): (text: string)
    ensures t.ErrorValue? ==> text == t.message
    ensures t == NonError ==> text == "Unknown error"
  {
    match t
    case ErrorValue(m) => m
    case NonError => "Unknown error"
  }

  /** The worker's configuration. */
  datatype Env = Env(botToken: Option<string>, defaultChatId: Option<string>)

  /** The tool's arguments, already validated by its schema. */
  datatype ToolArgs = ToolArgs(text: string, chatId: Option<ChatId>, parseMode: Option<ParseMode>,
                               disableNotification: Option<bool>)

  /** The tool's answer and the requests it handed to `fetch`. */
  datatype ToolOutcome = ToolOutcome(result: Json, sent: seq<ApiRequest>)

  const MissingTokenText: string := "Error: BOT_TOKEN is not configured"
  const MissingChatText: string := "Error: No chat_id provided and DEFAULT_CHAT_ID is not configured"
  const SentPrefix: string := "Message sent successfully to chat "
  const SendErrorPrefix: string := "Error sending message: "

  /** The chat to send to: the given chat when truthy, else the default chat when truthy, else none. */
  function TargetChat(chatId: Option<ChatId>, defaultChatId: Option<string>): (r: Option<ChatId>)
    ensures r.Some? ==> ChatTruthy(r.value)
    ensures r.Some? <==> (chatId.Some? && ChatTruthy(chatId.value)) || TextTruthy(defaultChatId)
    ensures chatId.Some? && ChatTruthy(chatId.value) ==> r == chatId
    ensures r.Some? && r != chatId ==> r.value == TextChat(defaultChatId.value)
  {
    if chatId.Some? && ChatTruthy(chatId.value) then chatId
    else if TextTruthy(defaultChatId) then Some(TextChat(defaultChatId.value))
    else None
  }

  /** The `send_telegram_message` callback: every outcome, failures included, is a text result. */
  function SendMessageTool(env: Env, args: ToolArgs, fetch: ApiRequest -> ApiReply): (o: ToolOutcome)
    ensures Mcp.ContentText(o.result).Some?
    ensures |o.sent| <= 1
    ensures o.sent != [] <==> TextTruthy(env.botToken) && TargetChat(args.chatId, env.defaultChatId).Some?
    ensures !TextTruthy(env.botToken) ==> Mcp.ContentText(o.result) == Some(MissingTokenText)
    ensures TextTruthy(env.botToken) && TargetChat(args.chatId, env.defaultChatId).None? ==>
              Mcp.ContentText(o.result) == Some(MissingChatText)
    ensures o.sent != [] ==>
              && o.sent[0].url == Telegram.SendMessageUrl(env.botToken.value)
              && o.sent[0].body.Obj? && "chat_id" in o.sent[0].body.fields && "text" in o.sent[0].body.fields
              && o.sent[0].body.fields["chat_id"] == ChatIdJson(TargetChat(args.chatId, env.defaultChatId).value)
              && o.sent[0].body.fields["text"] == Str(args.text)
    ensures o.sent != [] ==>
              o.sent == [ApiCall(env.botToken.value, TargetChat(args.chatId, env.defaultChatId).value,
                                 args.text, args.parseMode, args.disableNotification)]
    ensures o.sent != [] ==>
              match SendTelegramMessage(env.botToken.value, TargetChat(args.chatId, env.defaultChatId).value,
                                        args.text, args.parseMode, args.disableNotification, fetch)
              case Ok(chat) => Mcp.ContentText(o.result) == Some(SentPrefix + Decimal.IntToDecimal(chat))
              case Err(t) => Mcp.ContentText(o.result) == Some(SendErrorPrefix + ThrownText(t))
  {
    if !TextTruthy(env.botToken) then ToolOutcome(Mcp.TextContent(MissingTokenText), [])
    else match TargetChat(args.chatId, env.defaultChatId)
      case None => ToolOutcome(Mcp.TextContent(MissingChatText), [])
      case Some(target) =>
        var request := ApiCall(env.botToken.value, target, args.text, args.parseMode, args.disableNotification);
        var text := match SendTelegramMessage(env.botToken.value, target, args.text, args.parseMode,
                                              args.disableNotification, fetch)
                    case Ok(chat) => SentPrefix + Decimal.IntToDecimal(chat)
                    case Err(t) => SendErrorPrefix + ThrownText(t);
        ToolOutcome(Mcp.TextContent(text), [request])
  }

  /** A delivered message reports the chat it went to, whose id can be read back from the text. */
  lemma ToolReportsDeliveredChat(env: Env, args: ToolArgs, fetch: ApiRequest -> ApiReply)
    requires TextTruthy(env.botToken)
    requires TargetChat(args.chatId, env.defaultChatId).Some?
    requires var target := TargetChat(args.chatId, env.defaultChatId).value;
             var reply := fetch(ApiCall(env.botToken.value, target, args.text, args.parseMode, args.disableNotification));
             reply.Answered? && reply.ok
    ensures var target := TargetChat(args.chatId, env.defaultChatId).value;
            var reply := fetch(ApiCall(env.botToken.value, target, args.text, args.parseMode, args.disableNotification));
            var text := Mcp.ContentText(SendMessageTool(env, args, fetch).result).value;
            && SentPrefix <= text
            && Decimal.ParseInt(text[|SentPrefix|..]) == Some(reply.sentChatId)
  {
    var target := TargetChat(args.chatId, env.defaultChatId).value;
    var reply := fetch(ApiCall(env.botToken.value, target, args.text, args.parseMode, args.disableNotification));
    var text := SentPrefix + Decimal.IntToDecimal(reply.sentChatId);
    assert Mcp.ContentText(SendMessageTool(env, args, fetch).result).value == text;
    assert text[|SentPrefix|..] == Decimal.IntToDecimal(reply.sentChatId);
    Decimal.ParseIntToDecimal(reply.sentChatId);
  }

  /** A failed send never escapes the callback: it becomes "Error sending message: " and the error text. */
  lemma ToolReportsSendFailure(env: Env, args: ToolArgs, fetch: ApiRequest -> ApiReply)
    requires TextTruthy(env.botToken)
    requires TargetChat(args.chatId, env.defaultChatId).Some?
    requires var target := TargetChat(args.chatId, env.defaultChatId).value;
             SendTelegramMessage(env.botToken.value, target, args.text, args.parseMode,
                                 args.disableNotification, fetch).Err?
    ensures var target := TargetChat(args.chatId, env.defaultChatId).value;
            var thrown := SendTelegramMessage(env.botToken.value, target, args.text, args.parseMode,
                                              args.disableNotification, fetch).error;
            Mcp.ContentText(SendMessageTool(env, args, fetch).result)
            == Some(SendErrorPrefix + (if thrown.ErrorValue? then thrown.message else "Unknown error"))
  {
  }

  /** Without a bot token nothing is sent, whatever chat is asked for. */
  lemma MissingTokenNeverSends(env: Env, args: ToolArgs, fetch: ApiRequest -> ApiReply)
    requires env.botToken.None? || env.botToken == Some("")
    ensures SendMessageTool(env, args, fetch) == ToolOutcome(Mcp.TextContent(MissingTokenText), [])
  {
  }

  /** A falsy chat id (the empty string or 0) falls back to the configured default chat. */
  lemma FalsyChatIdFallsBack(chatId: ChatId, defaultChatId: string)
    requires chatId == TextChat("") || chatId == NumericChat(0)
    requires defaultChatId != ""
    ensures TargetChat(Some(chatId), Some(defaultChatId)) == Some(TextChat(defaultChatId))
  {
  }

  // ---------------------------------------------------------------------------------------
  // Path router of the default fetch handler
  // ---------------------------------------------------------------------------------------

  /** Where a request goes: the SSE transport mounted at "/sse", the streamable transport at "/mcp", or a 404. */
  datatype Route = SseTransport(mount: string) | StreamableTransport(mount: string) | NotFound(status: int, body: string)

  const SsePaths: set<string> := {"/sse", "/sse/message"}

  /** Routes on the exact URL path. */
  function RoutePath(path: string): (r: Route)
    ensures r.SseTransport? <==> path in SsePaths
    ensures r.StreamableTransport? <==> path == "/mcp"
    ensures r.NotFound? <==> path !in SsePaths + {"/mcp"}
    ensures r.NotFound? ==> r == NotFound(404, "Not found")
    ensures r.SseTransport? ==> r.mount == "/sse"
    ensures r.StreamableTransport? ==> r.mount == "/mcp"
  {
    if path == "/sse" || path == "/sse/message" then SseTransport("/sse")
    else if path == "/mcp" then StreamableTransport("/mcp")
    else NotFound(404, "Not found")
  }
}
