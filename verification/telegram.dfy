/**
  `send_telegram_notification`: builds the Bot API `sendMessage` request for a notification and
  interprets the provider's `{ok, description}` reply. The HTTP exchange itself is an oracle
  that receives the built request and returns what came back.
*/
module Telegram {
  import opened Wrappers
  import opened Json

  const ApiPrefix: string := "https://api.telegram.org/bot"
  const SendMessageSuffix: string := "/sendMessage"

  /** Every notification starts with the robot emoji and a fixed heading, then a blank line. */
  const Heading: string := "\U{1F916} Claude Code Notification\n\n"

  const HtmlParseMode: string := "HTML"
  const ParseFailurePrefix: string := "Failed to parse Telegram response: "
  const ApiErrorPrefix: string := "Telegram API error: "
  const UnknownError: string := "Unknown error"

  /** Stands in for serde's description of a reply that is JSON but not `{ok, description?}`. */
  const ShapeMismatch: string := "invalid type: expected struct TelegramResponse"

  /** The Bot API endpoint for one bot token. */
  function SendMessageUrl(botToken: string): (url: string)
    ensures |url| == |ApiPrefix| + |botToken| + |SendMessageSuffix|
    ensures url[..|ApiPrefix|] == ApiPrefix
    ensures url[|ApiPrefix|..|url| - |SendMessageSuffix|] == botToken
    ensures url[|url| - |SendMessageSuffix|..] == SendMessageSuffix
  {
    ApiPrefix + botToken + SendMessageSuffix
  }

  /** Recovers the bot token from an endpoint URL, when the URL has the endpoint's shape. */
  function BotTokenOf(url: string): (r: Option<string>)
    ensures r.Some? ==> SendMessageUrl(r.value) == url
  {
    if |url| >= |ApiPrefix| + |SendMessageSuffix| && url[..|ApiPrefix|] == ApiPrefix
       && url[|url| - |SendMessageSuffix|..] == SendMessageSuffix
    then
      var token := url[|ApiPrefix|..|url| - |SendMessageSuffix|];
      assert url == ApiPrefix + token + SendMessageSuffix;
      Some(token)
    else None
  }

  /** The endpoint URL determines the bot token: reading it back gives the token unchanged. */
  lemma BotTokenOfSendMessageUrl(botToken: string)
    ensures BotTokenOf(SendMessageUrl(botToken)) == Some(botToken)
  {
    var url := SendMessageUrl(botToken);
    assert url[..|ApiPrefix|] == ApiPrefix;
    assert url[|url| - |SendMessageSuffix|..] == SendMessageSuffix;
    assert url[|ApiPrefix|..|url| - |SendMessageSuffix|] == botToken;
  }

  /** The text Telegram receives for a notification message. */
  function NotificationText(message: string): (text: string)
    ensures |text| == |Heading| + |message|
    ensures text[..|Heading|] == Heading
    ensures text[|Heading|..] == message
  {
    Heading + message
  }

  /** The original message inside a notification text: the text after the heading. */
  function MessageOf(text: string): (r: Option<string>)
    ensures r.Some? ==> NotificationText(r.value) == text
  {
    if Heading <= text then
      assert text == Heading + text[|Heading|..];
      Some(text[|Heading|..])
    else None
  }

  lemma MessageOfNotificationText(message: string)
    ensures MessageOf(NotificationText(message)) == Some(message)
  {
    var text := NotificationText(message);
    assert text[..|Heading|] == Heading;
    assert text[|Heading|..] == message;
  }

  /** The HTTP request handed to the fetch oracle. */
  datatype HttpRequest = HttpRequest(verb: string, url: string, contentType: string, body: Json)

  /** What the fetch produced: a failure of the exchange, a body that is not JSON, or a JSON body. */
  datatype FetchReply = FetchFailed(error: string) | Unparsable(detail: string) | Received(body: Json)

  /** `TelegramResponse`. */
  datatype TelegramResponse = TelegramResponse(ok: bool, description: Option<string>)

  /** The `TelegramMessage` body and the POST request that carries it. */
  function BuildRequest(botToken: string, chatId: string, message: string): (r: HttpRequest)
    ensures r.verb == "POST" && r.contentType == "application/json"
    ensures BotTokenOf(r.url) == Some(botToken)
    ensures r.body.Obj? && r.body.fields.Keys == {"chat_id", "text", "parse_mode"}
    ensures r.body.fields["chat_id"] == Str(chatId)
    ensures r.body.fields["parse_mode"] == Str(HtmlParseMode)
    ensures r.body.fields["text"].Str? && MessageOf(r.body.fields["text"].s) == Some(message)
  {
    BotTokenOfSendMessageUrl(botToken);
    MessageOfNotificationText(message);
    HttpRequest("POST", SendMessageUrl(botToken), "application/json",
                Obj(map["chat_id" := Str(chatId), "text" := Str(NotificationText(message)),
                        "parse_mode" := Str(HtmlParseMode)]))
  }

  /** `Option<String>` as serde reads it: `null` is absent, a string is present, anything else fails. */
  function DecodeOptionalText(v: Json): (r: Option<Option<string>>)
    ensures r.Some? <==> v.Null? || v.Str?
    ensures r == Some(None) <==> v.Null?
    ensures v.Str? ==> r == Some(Some(v.s))
  {
    match v
    case Null => Some(None)
    case Str(s) => Some(Some(s))
    case _ => None
  }

  /** Deserialises `TelegramResponse { ok: bool, description: Option<String> }` from a JSON body. */
  function DecodeTelegramResponse(v: Json): (r: Option<TelegramResponse>)
    ensures v.Obj? ==>
              (r.Some? <==> ("ok" in v.fields && v.fields["ok"].Bool?
                             && ("description" in v.fields ==>
                                   v.fields["description"].Null? || v.fields["description"].Str?)))
    ensures v.Obj? && r.Some? ==>
              r.value == TelegramResponse(v.fields["ok"].b,
                                          if "description" in v.fields && v.fields["description"].Str?
                                          then Some(v.fields["description"].s) else None)
    ensures v.Arr? ==> (r.Some? <==> |v.items| == 2 && v.items[0].Bool? && (v.items[1].Null? || v.items[1].Str?))
    ensures v.Arr? && r.Some? ==>
              r.value == TelegramResponse(v.items[0].b, if v.items[1].Str? then Some(v.items[1].s) else None)
    ensures !v.Obj? && !v.Arr? ==> r.None?
  {
    match v
    case Obj(m) =>
      if "ok" in m && m["ok"].Bool? then
        if "description" !in m then Some(TelegramResponse(m["ok"].b, None))
        else match DecodeOptionalText(m["description"])
          case Some(d) => Some(TelegramResponse(m["ok"].b, d))
          case None => None
      else None
    case Arr(xs) =>
      if |xs| == 2 && xs[0].Bool? then
        match DecodeOptionalText(xs[1])
        case Some(d) => Some(TelegramResponse(xs[0].b, d))
        case None => None
      else None
    case _ => None
  }

  /** The reply as the Bot API writes it, `description` omitted when absent. */
  function EncodeTelegramResponse(t: TelegramResponse): Json {
    Obj(if t.description.Some? then map["ok" := Bool(t.ok), "description" := Str(t.description.value)]
        else map["ok" := Bool(t.ok)])
  }

  lemma DecodeEncodeTelegramResponse(t: TelegramResponse)
    ensures DecodeTelegramResponse(EncodeTelegramResponse(t)) == Some(t)
  {
    var m := EncodeTelegramResponse(t).fields;
    assert m["ok"] == Bool(t.ok);
    if t.description.Some? {
      assert m["description"] == Str(t.description.value);
    }
  }

  /** Turns the fetch outcome into `Ok(())` or the error the function returns. */
  function InterpretReply(reply: FetchReply): (r: Result<(), string>)
    ensures r.Ok? <==> reply.Received? && DecodeTelegramResponse(reply.body).Some?
                       && DecodeTelegramResponse(reply.body).value.ok
    ensures reply.FetchFailed? ==> r == Err(reply.error)
    ensures reply.Unparsable? ==> r == Err(ParseFailurePrefix + reply.detail)
    ensures reply.Received? && DecodeTelegramResponse(reply.body).None? ==>
              r.Err? && ParseFailurePrefix <= r.error
    ensures reply.Received? && DecodeTelegramResponse(reply.body).Some?
            && !DecodeTelegramResponse(reply.body).value.ok ==>
              r == Err(ApiErrorPrefix + DecodeTelegramResponse(reply.body).value.description.GetOr(UnknownError))
  {
    match reply
    case FetchFailed(e) => Err(e)
    case Unparsable(detail) => Err(ParseFailurePrefix + detail)
    case Received(body) =>
      match DecodeTelegramResponse(body)
      case None => Err(ParseFailurePrefix + ShapeMismatch)
      case Some(t) =>
        if !t.ok then Err(ApiErrorPrefix + t.description.GetOr(UnknownError)) else Ok(())
  }

  /** `send_telegram_notification`: one request through the fetch oracle, then its reply interpreted. */
  function SendTelegramNotification(botToken: string, chatId: string, message: string,
                                    fetch: HttpRequest -> FetchReply): (r: Result<(), string>)
    ensures var reply := fetch(BuildRequest(botToken, chatId, message));
            r.Ok? <==> reply.Received? && DecodeTelegramResponse(reply.body).Some?
                       && DecodeTelegramResponse(reply.body).value.ok
    ensures var reply := fetch(BuildRequest(botToken, chatId, message));
            r.Err? && !reply.FetchFailed? ==>
              ParseFailurePrefix <= r.error || ApiErrorPrefix <= r.error
  {
    InterpretReply(fetch(BuildRequest(botToken, chatId, message)))
  }

  /** A reply that is `ok` succeeds whatever its description says. */
  lemma OkReplySucceeds(description: Option<string>)
    ensures InterpretReply(Received(EncodeTelegramResponse(TelegramResponse(true, description)))) == Ok(())
  {
    DecodeEncodeTelegramResponse(TelegramResponse(true, description));
  }

  /**
    Any reply object with `ok` false, whatever other members it carries (the Bot API adds
    `error_code`), fails with its string description, or "Unknown error" when that is absent or null.
  */
  lemma NotOkObjectReplyFails(m: map<string, Json>)
    requires "ok" in m && m["ok"] == Bool(false)
    requires "description" in m ==> m["description"].Null? || m["description"].Str?
    ensures InterpretReply(Received(Obj(m)))
            == Err(ApiErrorPrefix + (if "description" in m && m["description"].Str? then m["description"].s
                                     else UnknownError))
  {
  }

  /** Any reply object with `ok` true and a well-typed description succeeds, whatever else it carries. */
  lemma OkObjectReplySucceeds(m: map<string, Json>)
    requires "ok" in m && m["ok"] == Bool(true)
    requires "description" in m ==> m["description"].Null? || m["description"].Str?
    ensures InterpretReply(Received(Obj(m))) == Ok(())
  {
  }

  /** A reply that is not `ok` fails with its description, or "Unknown error" without one. */
  lemma NotOkReplyFails(description: Option<string>)
    ensures InterpretReply(Received(EncodeTelegramResponse(TelegramResponse(false, description))))
            == Err(ApiErrorPrefix + description.GetOr(UnknownError))
  {
    DecodeEncodeTelegramResponse(TelegramResponse(false, description));
  }
}
