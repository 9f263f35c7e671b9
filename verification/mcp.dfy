/**
  The JSON-RPC 2.0 shapes of the MCP endpoint: the request envelope, the two response forms,
  the `tools/call` parameters, and the fixed result documents the dispatcher returns.
  Decoding follows serde's derived `Deserialize` applied to an already parsed JSON value.
*/
module Mcp {
  import opened Wrappers
  import opened Json

  /** The only protocol tag the request enum accepts, and the tag every response carries. */
  const JsonRpcVersion: string := "2.0"

  /** `McpRequest::JsonRpc2_0` once deserialised. */
  datatype Request = Request(methodName: string, params: Option<Json>, id: Option<Json>)

  /** `McpError`: a JSON-RPC error object without `data`. */
  datatype McpError = McpError(code: int, message: string)

  /** `McpResponse`, serialised untagged: a result document or an error object, with the echoed id. */
  datatype Response =
    | ResultResponse(jsonrpc: string, result: Json, id: Option<Json>)
    | ErrorResponse(jsonrpc: string, error: McpError, id: Option<Json>)

  /** `ToolCall`: the parameters of `tools/call`. */
  datatype ToolCall = ToolCall(name: string, arguments: Json)

  /** Error codes of section 5.1 of the JSON-RPC 2.0 Specification that the dispatcher uses. */
  const MethodNotFound: int := -32601
  const InvalidParams: int := -32602

  // ---------------------------------------------------------------------------------------
  // Decoding (serde) and its inverse
  // ---------------------------------------------------------------------------------------

  /** serde reads an `Option<Value>` field that is missing or `null` as `None`. */
  function OptionalValue(v: Json): (r: Option<Json>)
    ensures r == None <==> v == Null
    ensures r.Some? ==> r.value == v
  {
    if v == Null then None else Some(v)
  }

  /** An `Option<Value>` field looked up in an object's members. */
  function OptionalMember(m: map<string, Json>, key: string): (r: Option<Json>)
    ensures r.Some? <==> key in m && m[key] != Null
    ensures r.Some? ==> r.value == m[key]
  {
    if key in m then OptionalValue(m[key]) else None
  }

  /** A request as serde hands it over: an explicit `null` never survives as `Some(Null)`. */
  predicate WellFormed(r: Request) {
    r.params != Some(Null) && r.id != Some(Null)
  }

  /** The value in the position of the `jsonrpc` tag: the object member, or the first array element. */
  function Tag(v: Json): Option<Json> {
    match v
    case Obj(m) => if "jsonrpc" in m then Some(m["jsonrpc"]) else None
    case Arr(xs) => if |xs| > 0 then Some(xs[0]) else None
    case _ => None
  }

  /**
    Deserialises `McpRequest` (internally tagged by `jsonrpc`, single variant "2.0").
    The object form ignores unknown members and requires a string `method`; serde's
    positional form is an array of exactly the tag, the method, the params and the id.
  */
  function DecodeRequest(v: Json): (r: Option<Request>)
    ensures r.Some? ==> Tag(v) == Some(Str(JsonRpcVersion))
    ensures r.Some? ==> WellFormed(r.value)
    ensures v.Obj? ==>
              (r.Some? <==> ("jsonrpc" in v.fields && v.fields["jsonrpc"] == Str(JsonRpcVersion)
                             && "method" in v.fields && v.fields["method"].Str?))
    ensures v.Obj? && r.Some? ==>
              r.value == Request(v.fields["method"].s, OptionalMember(v.fields, "params"),
                                 OptionalMember(v.fields, "id"))
    ensures v.Arr? ==>
              (r.Some? <==> |v.items| == 4 && v.items[0] == Str(JsonRpcVersion) && v.items[1].Str?)
    ensures v.Arr? && r.Some? ==>
              r.value == Request(v.items[1].s, OptionalValue(v.items[2]), OptionalValue(v.items[3]))
    ensures !v.Obj? && !v.Arr? ==> r.None?
  {
    match v
    case Obj(m) =>
      if "jsonrpc" in m && m["jsonrpc"] == Str(JsonRpcVersion) && "method" in m && m["method"].Str?
      then Some(Request(m["method"].s, OptionalMember(m, "params"), OptionalMember(m, "id")))
      else None
    case Arr(xs) =>
      if |xs| == 4 && xs[0] == Str(JsonRpcVersion) && xs[1].Str?
      then Some(Request(xs[1].s, OptionalValue(xs[2]), OptionalValue(xs[3])))
      else None
    case _ => None
  }

  /** The canonical object form of a request, omitting absent params and id. */
  function EncodeRequest(r: Request): Json {
    var base := map["jsonrpc" := Str(JsonRpcVersion), "method" := Str(r.methodName)];
    var withParams := if r.params.Some? then base["params" := r.params.value] else base;
    Obj(if r.id.Some? then withParams["id" := r.id.value] else withParams)
  }

  /** Decoding undoes encoding for every request serde can produce. */
  lemma DecodeEncodeRequest(r: Request)
    requires WellFormed(r)
    ensures DecodeRequest(EncodeRequest(r)) == Some(r)
  {
    var m := EncodeRequest(r).fields;
    assert m["jsonrpc"] == Str(JsonRpcVersion) && m["method"] == Str(r.methodName);
    assert OptionalMember(m, "params") == r.params;
    assert OptionalMember(m, "id") == r.id;
  }

  /** Deserialises `ToolCall { name: String, arguments: Value }` from a JSON value. */
  function DecodeToolCall(v: Json): (r: Option<ToolCall>)
    ensures v.Obj? ==>
      (r.Some? <==> "name" in v.fields && v.fields["name"].Str? && "arguments" in v.fields)
    ensures v.Obj? && r.Some? ==> r.value == ToolCall(v.fields["name"].s, v.fields["arguments"])
    ensures v.Arr? ==> (r.Some? <==> |v.items| == 2 && v.items[0].Str?)
    ensures v.Arr? && r.Some? ==> r.value == ToolCall(v.items[0].s, v.items[1])
    ensures !v.Obj? && !v.Arr? ==> r.None?
  {
    match v
    case Obj(m) =>
      if "name" in m && m["name"].Str? && "arguments" in m
      then Some(ToolCall(m["name"].s, m["arguments"]))
      else None
    case Arr(xs) =>
      if |xs| == 2 && xs[0].Str? then Some(ToolCall(xs[0].s, xs[1])) else None
    case _ => None
  }

  /** The object form of a tool call. */
  function EncodeToolCall(c: ToolCall): Json {
    Obj(map["name" := Str(c.name), "arguments" := c.arguments])
  }

  lemma DecodeEncodeToolCall(c: ToolCall)
    ensures DecodeToolCall(EncodeToolCall(c)) == Some(c)
  {
    assert EncodeToolCall(c).fields["name"] == Str(c.name);
  }

  /** Deserialises `NotifyParams { message: String }`: the text of the notification. */
  function DecodeNotifyParams(v: Json): (r: Option<string>)
    ensures v.Obj? ==> (r.Some? <==> "message" in v.fields && v.fields["message"].Str?)
    ensures v.Obj? && r.Some? ==> v.fields["message"] == Str(r.value)
    ensures v.Arr? ==> (r.Some? <==> |v.items| == 1 && v.items[0].Str?)
    ensures v.Arr? && r.Some? ==> v.items[0] == Str(r.value)
    ensures !v.Obj? && !v.Arr? ==> r.None?
  {
    match v
    case Obj(m) => if "message" in m && m["message"].Str? then Some(m["message"].s) else None
    case Arr(xs) => if |xs| == 1 && xs[0].Str? then Some(xs[0].s) else None
    case _ => None
  }

  /** The object form of the `notify_telegram` arguments. */
  function EncodeNotifyParams(message: string): Json {
    Obj(map["message" := Str(message)])
  }

  lemma DecodeEncodeNotifyParams(message: string)
    ensures DecodeNotifyParams(EncodeNotifyParams(message)) == Some(message)
  {
    assert EncodeNotifyParams(message).fields["message"] == Str(message);
  }

  // ---------------------------------------------------------------------------------------
  // Serialising responses (untagged) and reading them back
  // ---------------------------------------------------------------------------------------

  /** An `Option<Value>` id is written as `null` when absent. */
  function IdValue(id: Option<Json>): Json {
    id.GetOr(Null)
  }

  function ErrorObject(e: McpError): Json {
    Obj(map["code" := Num(e.code), "message" := Str(e.message)])
  }

  /** `McpResponse` as serde writes it: exactly one of `result` and `error`, always an `id`. */
  function SerializeResponse(r: Response): (j: Json)
    ensures j.Obj? && "id" in j.fields && "jsonrpc" in j.fields
    ensures ("result" in j.fields) != ("error" in j.fields)
    ensures "result" in j.fields <==> r.ResultResponse?
    ensures j.fields.Keys == {"jsonrpc", "id", if r.ResultResponse? then "result" else "error"}
  {
    match r
    case ResultResponse(v, result, id) =>
      Obj(map["jsonrpc" := Str(v), "result" := result, "id" := IdValue(id)])
    case ErrorResponse(v, e, id) =>
      Obj(map["jsonrpc" := Str(v), "error" := ErrorObject(e), "id" := IdValue(id)])
  }

  /** Reads a serialised response back, as a client of the endpoint would. */
  function ParseResponse(j: Json): Option<Response> {
    match j
    case Obj(m) =>
      if "jsonrpc" in m && m["jsonrpc"].Str? && "id" in m then
        var id := OptionalValue(m["id"]);
        if "result" in m && "error" !in m then
          Some(ResultResponse(m["jsonrpc"].s, m["result"], id))
        else if "error" in m && "result" !in m && m["error"].Obj?
                && "code" in m["error"].fields && m["error"].fields["code"].Num?
                && "message" in m["error"].fields && m["error"].fields["message"].Str? then
          Some(ErrorResponse(m["jsonrpc"].s,
                             McpError(m["error"].fields["code"].n, m["error"].fields["message"].s), id))
        else None
      else None
    case _ => None
  }

  /** Serialising and reading back preserves the response, the id included (an absent id reads back absent). */
  lemma ParseSerializeResponse(r: Response)
    requires r.id != Some(Null)
    ensures ParseResponse(SerializeResponse(r)) == Some(r)
  {
    var m := SerializeResponse(r).fields;
    assert OptionalValue(m["id"]) == r.id;
    if r.ErrorResponse? {
      assert m["error"].fields["code"] == Num(r.error.code);
      assert m["error"].fields["message"] == Str(r.error.message);
    }
  }

  // ---------------------------------------------------------------------------------------
  // Method names
  // ---------------------------------------------------------------------------------------

  /** The four `$/…` event notifications. */
  datatype EventKind = UserInputRequired | Progress | ErrorOccurred | TaskComplete

  /** The closed set of routes of `handle_mcp_request`, with a fallback for every other name. */
  datatype Method =
    | Initialize
    | ToolsList
    | ToolsCall
    | Subscribe
    | Unsubscribe
    | Event(kind: EventKind)
    | Unknown(name: string)

  function EventName(k: EventKind): string {
    match k
    case UserInputRequired => "$/userInputRequired"
    case Progress => "$/progress"
    case ErrorOccurred => "$/error"
    case TaskComplete => "$/taskComplete"
  }

  /** The wire name of a method. */
  function MethodName(m: Method): string {
    match m
    case Initialize => "initialize"
    case ToolsList => "tools/list"
    case ToolsCall => "tools/call"
    case Subscribe => "notifications/subscribe"
    case Unsubscribe => "notifications/unsubscribe"
    case Event(k) => EventName(k)
    case Unknown(name) => name
  }

  /** Every method name the dispatcher recognises. */
  const KnownMethods: set<string> := {
    "initialize", "tools/list", "tools/call", "notifications/subscribe", "notifications/unsubscribe",
    "$/userInputRequired", "$/progress", "$/error", "$/taskComplete"
  }

  /** `match method.as_str()`: exact, case-sensitive comparison with each known name. */
  function ParseMethod(s: string): (m: Method)
    ensures MethodName(m) == s
    ensures m.Unknown? <==> s !in KnownMethods
  {
    if s == "initialize" then Initialize
    else if s == "tools/list" then ToolsList
    else if s == "tools/call" then ToolsCall
    else if s == "notifications/subscribe" then Subscribe
    else if s == "notifications/unsubscribe" then Unsubscribe
    else if s == "$/userInputRequired" then Event(UserInputRequired)
    else if s == "$/progress" then Event(Progress)
    else if s == "$/error" then Event(ErrorOccurred)
    else if s == "$/taskComplete" then Event(TaskComplete)
    else Unknown(s)
  }

  /** Parsing a recognised method's wire name gives that method back. */
  lemma ParseMethodName(m: Method)
    requires !m.Unknown? || m.name !in KnownMethods
    ensures ParseMethod(MethodName(m)) == m
  {
  }

  // ---------------------------------------------------------------------------------------
  // Fixed result documents
  // ---------------------------------------------------------------------------------------

  const ProtocolVersion: string := "2024-11-05"
  const ServerName: string := "telegram-notification-mcp"
  const ServerVersion: string := "0.1.0"

  /** `InitializeResult` serialised: version, server info and two empty capability objects. */
  const InitializeResult: Json := Obj(map[
    "protocolVersion" := Str(ProtocolVersion),
    "serverInfo" := Obj(map["name" := Str(ServerName), "version" := Str(ServerVersion)]),
    "capabilities" := Obj(map["tools" := Empty, "notifications" := Empty])
  ])

  const NotifyToolName: string := "notify_telegram"

  const NotifyToolDescription: string :=
    "Send a notification to Telegram. Use this when: task completes, error occurs, user input needed, "
    + "or any important status update. This server also accepts automatic notifications via "
    + "$/userInputRequired, $/progress, $/error, and $/taskComplete."

  const MessageFieldDescription: string :=
    "The notification message to send. Include relevant context like: what task completed, "
    + "what error occurred, what input is needed, etc."

  /** The JSON schema of the tool's input: an object with a required string `message`. */
  const NotifyInputSchema: Json := Obj(map[
    "type" := Str("object"),
    "properties" := Obj(map[
      "message" := Obj(map["type" := Str("string"), "description" := Str(MessageFieldDescription)])
    ]),
    "required" := Arr([Str("message")])
  ])

  /** `ListToolsResult` serialised: the single `notify_telegram` tool. */
  const ToolsListResult: Json := Obj(map[
    "tools" := Arr([Obj(map[
      "name" := Str(NotifyToolName),
      "description" := Str(NotifyToolDescription),
      "inputSchema" := NotifyInputSchema
    ])])
  ])

  /** A tool result carrying one text block: `{"content": [{"type": "text", "text": t}]}`. */
  function TextContent(t: string): (j: Json)
    ensures ContentText(j) == Some(t)
  {
    var block := Obj(map["type" := Str("text"), "text" := Str(t)]);
    assert block.fields["type"] == Str("text") && block.fields["text"] == Str(t);
    Obj(map["content" := Arr([block])])
  }

  /** The text of a single-text-block tool result, the inverse of `TextContent`. */
  function ContentText(j: Json): Option<string> {
    if j.Obj? && "content" in j.fields && j.fields["content"].Arr? && |j.fields["content"].items| == 1
       && j.fields["content"].items[0].Obj? && "type" in j.fields["content"].items[0].fields
       && j.fields["content"].items[0].fields["type"] == Str("text")
       && "text" in j.fields["content"].items[0].fields
    then AsStr(j.fields["content"].items[0].fields["text"])
    else None
  }

  const SentSuccessfully: string := "Notification sent successfully"
}
