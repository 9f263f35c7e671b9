# Telegram notification MCP server — Dafny model

This project models the core of a small Model Context Protocol (MCP) server that forwards
notifications to a Telegram chat:

- the Rust JSON-RPC 2.0 dispatcher `handle_mcp_request` (`src/mcp.rs`): decoding of the request
  envelope and of the `tools/call` parameters, routing by exact method name, the fixed
  `initialize` and `tools/list` documents, the `notify_telegram` tool, the acknowledgement of
  `notifications/subscribe` / `notifications/unsubscribe`, and the four `$/…` event methods whose
  text is resolved, formatted and sent;
- the Rust sender `send_telegram_notification` (`src/telegram.rs`): the Bot API URL and message
  body it builds, and how it interprets the `{ok, description}` reply;
- the TypeScript worker (`src/index.ts`): `sendTelegramMessage`, the `send_telegram_message`
  tool callback with its configuration checks and JavaScript truthiness, and the path router of
  the default `fetch` handler.

JSON is the datatype `Json.Json`. Every network exchange is an oracle passed in as a function: the
dispatcher receives a sender `string -> Result<(), string>` and records each text it hands over;
the Rust sender receives a fetch `HttpRequest -> FetchReply`; the TypeScript helper receives a
fetch `ApiRequest -> ApiReply` that throws or answers `{ok, description, chat id}`.

Modules: `Wrappers` (Option/Result), `Json`, `Mcp` (shapes, serde decoding, fixed documents),
`McpDispatch` (the dispatcher and its properties), `Telegram`, `Decimal` (number-to-text of a
template literal) and `Worker` (the TypeScript variant).

Decoding follows serde's derived `Deserialize` on an already parsed value: an `Option<Value>`
field that is missing or `null` is `None` (so an `id` of `null` echoes as `null`, like an absent
one); a struct is read from an object (unknown members ignored, required members present) or
from an array of exactly its fields in order; the request's `jsonrpc` tag must be the string
`"2.0"`.

The code answers `initialize` whether or not it carries an id; refuses any wrong tool name with
the same -32602 "Invalid params" (section 5.1 of the JSON-RPC 2.0 Specification) as malformed
arguments; answers the `$/…` methods with `result: null` even when they carry no id; and
propagates a sender failure on either sending path as the error of the whole call.

## Model

| member | source | states |
|---|---|---|
| `Mcp.DecodeRequest` | src/mcp.rs:5-14 | decodes only with the string tag "2.0"; an object decodes exactly when it has that tag and a string `method`, to that method with its `params` and `id` (missing or null read as absent); a four-element array decodes exactly when it starts with the tag and a string, to the method, params and id in order; nothing else decodes |
| `Mcp.DecodeEncodeRequest` | src/mcp.rs:5-14 | decoding the object form of any request serde can produce gives that request back |
| `Mcp.DecodeToolCall` | src/mcp.rs:224-228 | an object decodes exactly when `name` is a string and `arguments` is present, to those two members; a two-element array starting with a string decodes to its two elements; nothing else decodes |
| `Mcp.DecodeEncodeToolCall` | src/mcp.rs:224-228 | decoding an encoded tool call gives it back |
| `Mcp.DecodeNotifyParams` | src/mcp.rs:77-80 | the arguments decode exactly when `message` is a string, or from a one-element array holding a string, and yield that string |
| `Mcp.DecodeEncodeNotifyParams` | src/mcp.rs:77-80 | decoding encoded arguments gives the message back |
| `Mcp.SerializeResponse` | src/mcp.rs:16-35 | a serialised response holds `jsonrpc`, `id` and exactly one of `result` and `error`, `result` exactly for result responses |
| `Mcp.ParseSerializeResponse` | src/mcp.rs:16-35 | reading a serialised response back gives the same response, id included |
| `Mcp.ParseMethod` | src/mcp.rs:89-218 | the route's wire name is the method string itself, and the fallback route is taken exactly for names outside the nine recognised ones |
| `Mcp.ParseMethodName` | src/mcp.rs:89-218 | every recognised route is selected by its own wire name |
| `Mcp.TextContent` | src/mcp.rs:144-149 | a tool result of one text block, which reads back as exactly its text |
| `McpDispatch.ResolveMessage` | src/mcp.rs:193-199 | the event text is `message` when it is a string; a non-string `message` gives the title without consulting `description`; without `message` a string `description` is used; any other text than the title comes from one of those two members |
| `McpDispatch.NotifyMessage` | src/mcp.rs:136-139 | a tool message exists if and only if params are present, decode as a tool call named `notify_telegram`, and its arguments decode to a message, and it is that message |
| `McpDispatch.Icon` | src/mcp.rs:185-189 | the icons of `$/userInputRequired`, `$/progress`, `$/error` and `$/taskComplete` are ⚠️, ⏳, ❌ and ✅ |
| `McpDispatch.Title` | src/mcp.rs:185-189 | the titles of those four methods are "User Input Required", "Task in Progress", "Error Occurred" and "Task Completed" |
| `McpDispatch.EventText` | src/mcp.rs:201 | the sent text is the icon, a space, the title, a blank line, then the message unchanged |
| `McpDispatch.HandleMcpRequest` | src/mcp.rs:82-222 | at most one send per request; every response carries tag "2.0" and the request's id unchanged; the call fails exactly when the one send failed, with that send's error |
| `McpDispatch.UnknownMethodIsNotFound` | src/mcp.rs:211-218 | a method outside the recognised set, and only such a method, gets -32601 "Method not found: " followed by the method, with no send |
| `McpDispatch.NotFoundOnlyForUnknown` | src/mcp.rs:211-218 | a -32601 error implies the method was unrecognised |
| `McpDispatch.MatchingIsCaseSensitive` | src/mcp.rs:89-90 | "Initialize" is not "initialize": it is answered "Method not found: Initialize" |
| `McpDispatch.InitializeIsConstant` | src/mcp.rs:90-107 | whatever the params and id, `initialize` answers protocol version 2024-11-05, server telegram-notification-mcp 0.1.0, empty `tools` and `notifications` capabilities, echoes the id and sends nothing |
| `McpDispatch.ToolsListHasNotifyTool` | src/mcp.rs:109-134 | `tools/list` lists exactly one tool, `notify_telegram`, with an object input schema whose `required` is exactly `["message"]`, and sends nothing |
| `McpDispatch.ToolsCallSendsIffValid` | src/mcp.rs:135-155 | `tools/call` sends if and only if the params carry a `notify_telegram` message, and then sends exactly that message |
| `McpDispatch.ToolsCallSuccess` | src/mcp.rs:140-151 | every accepted call whose send is delivered sends that message once and answers the single text block "Notification sent successfully" with the id echoed |
| `McpDispatch.ToolsCallSendsArgumentsMessage` | src/mcp.rs:136-140 | for params objects with any further members, a call named `notify_telegram` sends exactly the string `message` of its `arguments` object |
| `McpDispatch.ToolsCallInvalidParams` | src/mcp.rs:157-164 | every other `tools/call` is answered -32602 "Invalid params" with no send |
| `McpDispatch.OtherToolRefused` | src/mcp.rs:135-164 | a tool name other than `notify_telegram` is refused with -32602 and never sends, whatever its arguments |
| `McpDispatch.ToolsCallPropagatesSendFailure` | src/mcp.rs:140 | a failed send makes the whole call fail with the sender's error instead of producing a protocol error |
| `McpDispatch.InvalidParamsOnlyFromToolsCall` | src/mcp.rs:135-164 | a -32602 error implies the method was `tools/call` with params that carry no tool message |
| `McpDispatch.SubscriptionsAcknowledge` | src/mcp.rs:166-181 | subscribe and unsubscribe answer `{}` with the id, whatever the params, and send nothing |
| `McpDispatch.EventSendsFormattedText` | src/mcp.rs:182-210 | an event with params sends exactly one text, icon, space, title, blank line, resolved message, and answers `null` when delivered; without params it answers `null` and sends nothing |
| `McpDispatch.MessageTakesPrecedence` | src/mcp.rs:193-199 | a string `message` is sent even when `description` is also present |
| `McpDispatch.NonStringMessageUsesTitle` | src/mcp.rs:193-194 | a non-string `message` sends the title, even when a string `description` is present |
| `McpDispatch.TaskCompleteExample` | src/mcp.rs:189-201 | `$/taskComplete` with message "done" sends "✅ Task Completed", a blank line and "done" |
| `McpDispatch.OnlyToolsCallAndEventsSend` | src/mcp.rs:82-222 | only `tools/call` and the four `$/…` methods ever reach the sender |
| `McpDispatch.WireIdEchoed` | src/mcp.rs:5-29 | for a decoded request object, the serialised response's `id` is the request's `id` member, or `null` when absent or null |
| `McpDispatch.Serve` | src/mcp.rs:140-201 | wired to the Telegram sender with its token and chat: at most one send, the id echoed, and the call fails exactly when the reply fetched for the request built from the sent text is not a decodable `ok` reply |
| `Telegram.SendMessageUrl` | src/telegram.rs:22 | the URL is the API prefix, then the token unchanged, then `/sendMessage` |
| `Telegram.BotTokenOf` | src/telegram.rs:22 | a token read from a URL rebuilds exactly that URL |
| `Telegram.BotTokenOfSendMessageUrl` | src/telegram.rs:22 | the endpoint URL of a token reads back as that token, so the URL is exactly prefix, token, `/sendMessage` |
| `Telegram.NotificationText` | src/telegram.rs:26 | the text is the robot heading followed by the message unchanged |
| `Telegram.MessageOf` | src/telegram.rs:26 | a message read from a text rebuilds exactly that text |
| `Telegram.MessageOfNotificationText` | src/telegram.rs:26 | the sent text is the heading followed by the original message, unchanged |
| `Telegram.BuildRequest` | src/telegram.rs:22-40 | a JSON POST to the token's endpoint whose body has exactly `chat_id` (unchanged), `text` (heading plus message) and `parse_mode` "HTML" |
| `Telegram.DecodeOptionalText` | src/telegram.rs:14 | an optional description decodes exactly from null (absent) or a string (that string) |
| `Telegram.DecodeTelegramResponse` | src/telegram.rs:11-15 | a reply decodes exactly when `ok` is a boolean and `description` is absent, null or a string (object or two-element array form), to that `ok` and to the description when it is a string, absent otherwise |
| `Telegram.DecodeEncodeTelegramResponse` | src/telegram.rs:11-15 | decoding an encoded reply gives it back |
| `Telegram.InterpretReply` | src/telegram.rs:42-55 | success exactly for a decodable reply with `ok` true; a fetch failure propagates unchanged; an undecodable reply gives an error starting "Failed to parse Telegram response: "; `ok` false gives "Telegram API error: " and the description or "Unknown error" |
| `Telegram.SendTelegramNotification` | src/telegram.rs:17-56 | the notification succeeds exactly when the fetched reply decodes with `ok` true; any failure other than the fetch's own is a parse or API error |
| `Telegram.OkReplySucceeds` | src/telegram.rs:48-55 | an `ok` reply succeeds whatever its description |
| `Telegram.NotOkReplyFails` | src/telegram.rs:48-52 | a reply that is not `ok` fails with its description, or "Unknown error" without one |
| `Telegram.NotOkObjectReplyFails` | src/telegram.rs:45-52 | any reply object with `ok` false, whatever other members it carries, fails with "Telegram API error: " and its string description, or "Unknown error" when absent or null |
| `Telegram.OkObjectReplySucceeds` | src/telegram.rs:45-55 | any well-typed reply object with `ok` true succeeds, whatever else it carries |
| `Decimal.NatToDecimal` | src/index.ts:97 | a natural number renders as a non-empty string of digits without a leading zero |
| `Decimal.DigitsValueOfNat` | src/index.ts:97 | the value of a number's digits is the number |
| `Decimal.IntToDecimal` | src/index.ts:97 | an integer renders as non-empty text, starting with a minus sign exactly when negative |
| `Decimal.ParseIntToDecimal` | src/index.ts:97 | reading a rendered integer gives it back |
| `Decimal.IntToDecimalInjective` | src/index.ts:97 | distinct chat ids render as distinct texts |
| `Worker.ChatTruthy` | src/index.ts:73-74 | a chat id is falsy exactly when it is the empty string or 0 |
| `Worker.TextTruthy` | src/index.ts:65 | a configured string is falsy exactly when it is undefined or empty |
| `Worker.RequestBody` | src/index.ts:16-29 | the body has `chat_id` and `text` as given, `parse_mode` and `disable_notification` exactly when provided, and no other member |
| `Worker.ApiErrorMessage` | src/index.ts:34-38 | the thrown message is "Telegram API error: " and the description, or "Unknown error" when the description is absent or empty |
| `Worker.ApiCall` | src/index.ts:16-29 | a POST with content type application/json to the token's `sendMessage` endpoint, carrying the message body |
| `Worker.SendTelegramMessage` | src/index.ts:9-41 | fetches one JSON POST to the token's endpoint; succeeds exactly when the reply is `ok`, yielding the sent message's chat; a throw passes through; a reply that is not `ok` throws an Error with the API error message |
| `Worker.TargetChat` | src/index.ts:73-74 | the target is the given chat when truthy, else the default chat when truthy, else none; a target is always truthy |
| `Worker.SendMessageTool` | src/index.ts:60-111 | always returns one text block; sends at most once, and exactly when the token is truthy and a target exists; a missing token or chat gives its error text; the one request is the POST to the token's endpoint with the target chat, the text, and the parse mode and notification flag as given; the answer is the success text with the delivered chat id or "Error sending message: " with the thrown text |
| `Worker.ToolReportsDeliveredChat` | src/index.ts:86-100 | a delivered message reports "Message sent successfully to chat " followed by the chat id, which reads back unchanged |
| `Worker.ThrownText` | src/index.ts:106 | an Error contributes its message, any other thrown value "Unknown error" |
| `Worker.ToolReportsSendFailure` | src/index.ts:101-110 | a failed send is reported as "Error sending message: " with the Error's message, or "Unknown error" for other thrown values |
| `Worker.MissingTokenNeverSends` | src/index.ts:65-71 | without a bot token the answer is "Error: BOT_TOKEN is not configured" and nothing is sent, whatever the chat |
| `Worker.FalsyChatIdFallsBack` | src/index.ts:73 | an empty-string or zero chat id is replaced by the configured default chat |
| `Worker.RoutePath` | src/index.ts:116-130 | "/sse" and "/sse/message" go to the SSE transport mounted at "/sse", "/mcp" to the streamable transport, every other path to a 404 "Not found" |

## Left out

- The HTTP exchanges (`Fetch::Request(...).send()` in `src/telegram.rs`, `fetch` in `src/index.ts`) are oracles; retries and timeouts do not exist in the code.
- Raw JSON text parsing and printing (serde, `JSON.stringify`, `response.json()`) are foreign library calls; the model works on parsed values, and a body that is not JSON is the oracle's `Unparsable` reply.
- Failures of building the Rust request (`Headers::set`, `Request::new_with_init`) are not separated from fetch failures: both arrive as the fetch oracle's `FetchFailed`.
- The text of worker errors is modelled as the string carried by the error; how the worker crate displays it is not part of this model.
- `Telegram.InterpretReply`: for a reply that is JSON but not of the `{ok, description}` shape, the detail after "Failed to parse Telegram response: " is a fixed stand-in, because serde's own message text is not modelled.
- `Decimal.IntToDecimal`: renders every integer in plain decimal; JavaScript switches to exponent form from 10^21 and loses precision beyond 2^53, which Telegram chat ids never reach.
- JSON numbers are integers; fractional numbers matter nowhere in the core (ids are echoed whatever they are).
- Objects are maps, so a repeated key cannot be expressed: serde's derived decoders reject a repeated field (the envelope's `jsonrpc`, `method`, `params`, `id`; the reply's `ok`, `description`), while inside a free-form value such as the contents of `params` the last duplicate wins; neither behaviour is modelled.
- The `("📢", "Notification")` arm of the icon match is unreachable (the outer match admits only the four event names) and is not modelled.
- `Worker.SendTelegramMessage`: an `ok` reply is assumed to carry its `result` message; a reply with `ok` true but no `result` (which would throw inside the callback) is not modelled.
- The zod schema validation of the tool's arguments is library code; the callback receives already-typed arguments, and numeric chat ids are integers.
- `src/lib.rs` (router plumbing, secret lookup, turning a parse failure or a propagated error into an HTTP failure) and `debug-client.js` (an interactive console client) are not part of this model.
- The SSE transport, its endpoint announcement, heartbeat and session lifecycle, and the MCP SDK's `serveSSE`/`serve`/`McpServer` are library code not present in the repository's sources.
