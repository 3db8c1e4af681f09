/**
 * The messages the MCP route writes: JSON-RPC 2.0 reply envelopes, the
 * result of each method and the refusals. A reply is kept as the typed value
 * the handler decided on; `ReplyJson` is the JSON document that goes on the
 * wire, and the read-back lemmas state which members that document has.
 */
module McpProtocol {
  import opened Wrappers
  import opened Json
  import opened Notification

  // Error codes of section 5.1 of the JSON-RPC 2.0 specification; -32000 lies
  // in the range it reserves for implementation-defined server errors.
  const INVALID_REQUEST := -32600
  const METHOD_NOT_FOUND := -32601
  const INVALID_PARAMS := -32602
  const DISPATCH_FAILED := -32000

  /** The error replies `mcp_post_handler` sends, one per way a request is refused. */
  datatype RpcFailure =
    | MethodNotString
    | ParamsNotObject
    | MissingToolName
    | ToolNotFound
    | ArgumentsNotObject
    | InvalidFields
    | DispatchFailed
    | MethodNotFound

  /** The `code` each error reply carries. */
  function FailureCode(f: RpcFailure): int {
    match f
    case MethodNotString => INVALID_REQUEST
    case ParamsNotObject => INVALID_PARAMS
    case MissingToolName => INVALID_PARAMS
    case ToolNotFound => METHOD_NOT_FOUND
    case ArgumentsNotObject => INVALID_PARAMS
    case InvalidFields => INVALID_PARAMS
    case DispatchFailed => DISPATCH_FAILED
    case MethodNotFound => METHOD_NOT_FOUND
  }

  /** The `message` each error reply carries. */
  function FailureText(f: RpcFailure): string {
    match f
    case MethodNotString => "Invalid request: method must be a string"
    case ParamsNotObject => "Invalid params: expected object"
    case MissingToolName => "Invalid params: missing tool name"
    case ToolNotFound => "Tool not found"
    case ArgumentsNotObject => "Invalid params: 'arguments' must be an object"
    case InvalidFields => "Invalid params: 'title', 'content', and 'agent' are required and must be within limits"
    case DispatchFailed => "Failed to dispatch notification"
    case MethodNotFound => "Method not found"
  }

  const MCP_PROTOCOL_VERSION := "2025-11-25"
  const SERVER_NAME := "agent-notifications"
  const NOTIFY_TOOL := "notify"

  function StringSchema(minLength: int): Value {
    Object(map["type" := Str("string"), "minLength" := Number(minLength)])
  }

  const NOTIFY_TOOL_DESCRIPTION :=
    "Send a desktop notification via the Agent Notifications app with title, content, and agent label."

  /** `notify_tool_descriptor` */
  function NotifyToolDescriptor(): Value {
    Object(map[
      "name" := Str(NOTIFY_TOOL),
      "description" := Str(NOTIFY_TOOL_DESCRIPTION),
      "inputSchema" := NotifyInputSchema()
    ])
  }

  /** The descriptor's `inputSchema`: an object of exactly the three string arguments. */
  function NotifyInputSchema(): Value {
    Object(map[
      "type" := Str("object"),
      "properties" := NotifyProperties(),
      "required" := Array([Str("title"), Str("content"), Str("agent")]),
      "additionalProperties" := Bool(false)
    ])
  }

  /** The schema's `properties`: three non-empty strings, the content capped at the validator's soft limit. */
  function NotifyProperties(): Value {
    Object(map[
      "title" := StringSchema(1),
      "content" := Object(map[
        "type" := Str("string"),
        "minLength" := Number(1),
        "maxLength" := Number(SOFT_CONTENT_LIMIT_CHARS)
      ]),
      "agent" := StringSchema(1)
    ])
  }

  /** The content schema's maximum length is the validator's soft limit. */
  lemma {:induction false} PropertiesReadsBack()
    ensures At(NotifyProperties(), [Key("content"), Key("maxLength")]) == Some(Number(SOFT_CONTENT_LIMIT_CHARS))
  {
  }

  /** The input schema requires the three arguments, allows no others, and has the properties above. */
  lemma {:induction false} InputSchemaReadsBack()
    ensures Get(NotifyInputSchema(), "properties") == Some(NotifyProperties())
    ensures At(NotifyInputSchema(), [Key("required")]) == Some(Array([Str("title"), Str("content"), Str("agent")]))
    ensures At(NotifyInputSchema(), [Key("additionalProperties")]) == Some(Bool(false))
  {
  }

  /**
   * The descriptor names the tool `notify`, requires exactly the three
   * arguments `tools/call` reads, allows no others, and advertises the
   * validator's soft limit as the content's maximum length.
   */
  lemma {:induction false} DescriptorAgreesWithValidator()
    ensures At(NotifyToolDescriptor(), [Key("name")]) == Some(Str(NOTIFY_TOOL))
    ensures At(NotifyToolDescriptor(), [Key("inputSchema"), Key("required")])
      == Some(Array([Str("title"), Str("content"), Str("agent")]))
    ensures At(NotifyToolDescriptor(), [Key("inputSchema"), Key("properties"), Key("content"), Key("maxLength")])
      == Some(Number(SOFT_CONTENT_LIMIT_CHARS))
    ensures At(NotifyToolDescriptor(), [Key("inputSchema"), Key("additionalProperties")]) == Some(Bool(false))
  {
    var schema := NotifyInputSchema();
    assert Get(NotifyToolDescriptor(), "inputSchema") == Some(schema);
    InputSchemaReadsBack();
    PropertiesReadsBack();
    assert At(NotifyToolDescriptor(), [Key("inputSchema"), Key("required")]) == At(schema, [Key("required")]);
    assert At(NotifyToolDescriptor(), [Key("inputSchema"), Key("additionalProperties")]) == At(schema, [Key("additionalProperties")]);
    assert At(NotifyToolDescriptor(), [Key("inputSchema"), Key("properties"), Key("content"), Key("maxLength")])
      == At(schema, [Key("properties"), Key("content"), Key("maxLength")])
      == At(NotifyProperties(), [Key("content"), Key("maxLength")]);
  }

  /** The result of `initialize`; `version` is the package version the server was built with. */
  function InitializeResult(version: string): Value {
    Object(map[
      "protocolVersion" := Str(MCP_PROTOCOL_VERSION),
      "serverInfo" := Object(map["name" := Str(SERVER_NAME), "version" := Str(version)]),
      "capabilities" := Object(map["tools" := Object(map["listChanged" := Bool(false)])])
    ])
  }

  /** The result of `tools/list`: the one tool, and no further page. */
  function ToolsListResult(): Value {
    Object(map["tools" := Array([NotifyToolDescriptor()]), "nextCursor" := Null])
  }

  /** `initialize` reports the protocol version, the server's name and version, and a tool list that never changes. */
  lemma {:induction false} InitializeResultReadsBack(version: string)
    ensures At(InitializeResult(version), [Key("protocolVersion")]) == Some(Str(MCP_PROTOCOL_VERSION))
    ensures At(InitializeResult(version), [Key("serverInfo"), Key("name")]) == Some(Str(SERVER_NAME))
    ensures At(InitializeResult(version), [Key("serverInfo"), Key("version")]) == Some(Str(version))
    ensures At(InitializeResult(version), [Key("capabilities"), Key("tools"), Key("listChanged")]) == Some(Bool(false))
  {
  }

  /** `tools/list` lists the one descriptor, whose name is the tool `tools/call` accepts, and no next page. */
  lemma {:induction false} ToolsListResultReadsBack()
    ensures At(ToolsListResult(), [Key("tools")]) == Some(Array([NotifyToolDescriptor()]))
    ensures At(ToolsListResult(), [Key("tools"), Index(0), Key("name")]) == Some(Str(NOTIFY_TOOL))
    ensures At(ToolsListResult(), [Key("nextCursor")]) == Some(Null)
  {
    DescriptorAgreesWithValidator();
    assert At(ToolsListResult(), [Key("tools"), Index(0), Key("name")]) == At(NotifyToolDescriptor(), [Key("name")]);
  }

  /** The result of a successful `tools/call`. */
  function ToolCallResult(title: string): Value {
    Object(map[
      "content" := Array([Object(map["type" := Str("text"), "text" := Str("Notification sent: " + title)])]),
      "isError" := Bool(false)
    ])
  }

  /** The reply to a successful call is one text item, "Notification sent: " and the title, and not an error. */
  lemma {:induction false} ToolCallResultReadsBack(title: string)
    ensures At(ToolCallResult(title), [Key("content"), Index(0), Key("text")]) == Some(Str("Notification sent: " + title))
    ensures At(ToolCallResult(title), [Key("content"), Index(0), Key("type")]) == Some(Str("text"))
    ensures At(ToolCallResult(title), [Key("isError")]) == Some(Bool(false))
  {
    var item := Object(map["type" := Str("text"), "text" := Str("Notification sent: " + title)]);
    assert At(ToolCallResult(title), [Key("content"), Index(0), Key("text")]) == At(item, [Key("text")]);
    assert At(ToolCallResult(title), [Key("content"), Index(0), Key("type")]) == At(item, [Key("type")]);
  }

  /** The result a request was answered with, before it is written as JSON. */
  datatype McpResult = Initialized(version: string) | ToolList | NotificationSent(title: string)

  /** The `result` member written for each result. */
  function ResultJson(r: McpResult): Value {
    match r
    case Initialized(version) => InitializeResult(version)
    case ToolList => ToolsListResult()
    case NotificationSent(title) => ToolCallResult(title)
  }

  /** A reply: a result for a request id, or an error (with no id when the request's could not be used). */
  datatype RpcReply =
    | RpcResult(id: Value, result: McpResult)
    | RpcError(errorId: Option<Value>, failure: RpcFailure)

  /** `jsonrpc_success` */
  function JsonRpcSuccess(id: Value, result: Value): Value {
    Object(map["jsonrpc" := Str("2.0"), "id" := id, "result" := result])
  }

  /** `jsonrpc_error`; a missing id is written as null. */
  function JsonRpcError(id: Option<Value>, code: int, message: string): Value {
    Object(map[
      "jsonrpc" := Str("2.0"),
      "id" := id.GetOr(Null),
      "error" := Object(map["code" := Number(code), "message" := Str(message)])
    ])
  }

  /** The document sent for a reply. */
  function ReplyJson(r: RpcReply): Value {
    match r
    case RpcResult(id, result) => JsonRpcSuccess(id, ResultJson(result))
    case RpcError(id, f) => JsonRpcError(id, FailureCode(f), FailureText(f))
  }

  /** The id a reply carries on the wire. */
  function ReplyId(r: RpcReply): Value {
    match r
    case RpcResult(id, _) => id
    case RpcError(id, _) => id.GetOr(Null)
  }

  /** The members of an envelope, read back. */
  function EnvelopeVersion(env: Value): Option<Value> { Get(env, "jsonrpc") }
  function EnvelopeId(env: Value): Option<Value> { Get(env, "id") }
  function EnvelopeResult(env: Value): Option<Value> { Get(env, "result") }
  function EnvelopeErrorCode(env: Value): Option<int> {
    match At(env, [Key("error"), Key("code")])
    case Some(Number(n)) => Some(n)
    case _ => None
  }
  function EnvelopeErrorMessage(env: Value): Option<string> {
    match At(env, [Key("error"), Key("message")])
    case Some(Str(s)) => Some(s)
    case _ => None
  }

  /**
   * Reading a success envelope back gives version "2.0", the id and the
   * result, and no error member: a response carries one or the other.
   */
  lemma {:induction false} SuccessReadsBack(id: Value, result: Value)
    ensures var env := JsonRpcSuccess(id, result);
      && EnvelopeVersion(env) == Some(Str("2.0"))
      && EnvelopeId(env) == Some(id) && EnvelopeResult(env) == Some(result)
      && Get(env, "error").None? && EnvelopeErrorCode(env).None?
  {
  }

  /**
   * Reading an error envelope back gives version "2.0", the id (null when
   * none was given), the code and the message, and no result member.
   */
  lemma {:induction false} ErrorReadsBack(id: Option<Value>, code: int, message: string)
    ensures var env := JsonRpcError(id, code, message);
      && EnvelopeVersion(env) == Some(Str("2.0"))
      && EnvelopeId(env) == Some(if id.Some? then id.value else Null)
      && EnvelopeErrorCode(env) == Some(code) && EnvelopeErrorMessage(env) == Some(message)
      && EnvelopeResult(env).None?
  {
  }

  /**
   * The document sent for any reply says "2.0", carries the reply's id, and
   * has a result exactly when the reply is a result and an error code
   * exactly when it is an error.
   */
  lemma {:induction false} ReplyReadsBack(r: RpcReply)
    ensures var env := ReplyJson(r);
      && EnvelopeVersion(env) == Some(Str("2.0"))
      && EnvelopeId(env) == Some(ReplyId(r))
      && EnvelopeResult(env) == (if r.RpcResult? then Some(ResultJson(r.result)) else None)
      && EnvelopeErrorCode(env) == (if r.RpcError? then Some(FailureCode(r.failure)) else None)
      && (r.RpcError? ==> EnvelopeErrorMessage(env) == Some(FailureText(r.failure)))
  {
    match r
    case RpcResult(id, result) => SuccessReadsBack(id, ResultJson(result));
    case RpcError(id, f) => ErrorReadsBack(id, FailureCode(f), FailureText(f));
  }
}
