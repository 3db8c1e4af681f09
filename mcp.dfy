/**
 * The MCP route: `POST /mcp` carries JSON-RPC 2.0 requests for the methods
 * `initialize`, `tools/list` and `tools/call` (with the single tool
 * `notify`); `GET /mcp` opens a keep-alive event stream.
 */
module Mcp {
  import opened Wrappers
  import opened Text
  import opened Json
  import opened McpProtocol
  import opened Notification
  import opened Http

  /** Seconds between keep-alive comments on the event stream. */
  const KEEP_ALIVE_SECONDS := 25

  /** An HTTP 200 carrying a JSON-RPC result. */
  function RpcOk(id: Value, result: McpResult): Response {
    Response(OK, RpcBody(RpcResult(id, result)))
  }

  /** An HTTP 200 carrying a JSON-RPC error for the request `id`. */
  function RpcFail(id: Value, f: RpcFailure): Response {
    Response(OK, RpcBody(RpcError(Some(id), f)))
  }

  /** The `tools/call` branch of `mcp_post_handler` up to the dispatch: the params must be an object. */
  function ToolsCallPlan(id: Value, params: Option<Value>): Step<Value> {
    match AsObject(params)
    case None => Reply(RpcFail(id, ParamsNotObject))
    case Some(p) => ToolPlan(id, p)
  }

  /** The tool name must be a string, must be `notify`, and the arguments must be an object. */
  function ToolPlan(id: Value, p: map<string, Value>): Step<Value> {
    match AsStr(Member(p, "name"))
    case None => Reply(RpcFail(id, MissingToolName))
    case Some(name) =>
      if name != NOTIFY_TOOL then
        Reply(RpcFail(id, ToolNotFound))
      else
        match AsObject(Member(p, "arguments"))
        case None => Reply(RpcFail(id, ArgumentsNotObject))
        case Some(args) => NotifyToolPlan(id, args)
  }

  /** The arguments of `notify`: a missing or non-string field reads as empty, then the validator decides. */
  function NotifyToolPlan(id: Value, args: map<string, Value>): Step<Value> {
    match CallFields(args)
    case Failure(_) => Reply(RpcFail(id, InvalidFields))
    case Success(f) => Dispatch(id, f)
  }

  /** The JSON-RPC methods the server answers; any other name is kept as it was sent. */
  datatype RpcMethod = InitializeMethod | ToolsListMethod | ToolsCallMethod | OtherMethod(name: string)

  /** The wire name of a method. */
  function MethodName(m: RpcMethod): string {
    match m
    case InitializeMethod => "initialize"
    case ToolsListMethod => "tools/list"
    case ToolsCallMethod => "tools/call"
    case OtherMethod(name) => name
  }

  /** The `match` on the method name in `mcp_post_handler`. */
  function ParseMethod(name: string): RpcMethod {
    if name == "initialize" then InitializeMethod
    else if name == "tools/list" then ToolsListMethod
    else if name == "tools/call" then ToolsCallMethod
    else OtherMethod(name)
  }

  /** Parsing keeps the name: the method read is the one that was sent. */
  lemma {:induction false} ParseMethodKeepsName(name: string)
    ensures MethodName(ParseMethod(name)) == name
    ensures ParseMethod(name).OtherMethod? <==> name != "initialize" && name != "tools/list" && name != "tools/call"
  {
  }

  /** Each known name parses to its own method, and the three names are told apart. */
  lemma KnownMethods()
    ensures ParseMethod("initialize") == InitializeMethod
    ensures ParseMethod("tools/list") == ToolsListMethod
    ensures ParseMethod("tools/call") == ToolsCallMethod
  {
    assert "tools/list"[0] != "initialize"[0];
    assert "tools/call"[0] != "initialize"[0];
    assert "tools/call"[6] != "tools/list"[6];
  }

  /** `mcp_post_handler` up to the dispatch: the gate and the envelope checks, then the method. */
  function McpPlan(listening: bool, body: Value, version: string): Step<Value> {
    if !listening then
      Reply(NotListening())
    else if Get(body, "method").None? then
      Reply(Response(ACCEPTED, Empty))
    else if Get(body, "id").None? then
      Reply(Response(ACCEPTED, Empty))
    else if AsStr(Get(body, "method")).None? then
      Reply(Response(OK, RpcBody(RpcError(None, MethodNotString))))
    else
      MethodPlan(Get(body, "id").value, ParseMethod(AsStr(Get(body, "method")).value), Get(body, "params"), version)
  }

  /** The `match` on the method of a request with an id. */
  function MethodPlan(id: Value, m: RpcMethod, params: Option<Value>, version: string): Step<Value> {
    match m
    case InitializeMethod => Reply(RpcOk(id, Initialized(version)))
    case ToolsListMethod => Reply(RpcOk(id, ToolList))
    case ToolsCallMethod => ToolsCallPlan(id, params)
    case OtherMethod(_) => Reply(RpcFail(id, MethodNotFound))
  }

  /** `mcp_post_handler` after the dispatch; the error text is logged, not returned. */
  function McpFinish(id: Value, f: NotificationFields, dispatched: Result<(), string>): Response {
    if dispatched.Failure? then RpcFail(id, DispatchFailed)
    else RpcOk(id, NotificationSent(f.title))
  }

  /** The reply of `mcp_post_handler` when the notifier reports `outcome`. */
  function McpPostResponse(listening: bool, body: Value, version: string, outcome: ShowOutcome): Response {
    match McpPlan(listening, body, version)
    case Reply(r) => r
    case Dispatch(id, f) => McpFinish(id, f, DispatchResult(outcome))
  }

  /** The effects of `mcp_post_handler` when the notifier reports `outcome`. */
  function McpEffects(listening: bool, body: Value, version: string, outcome: ShowOutcome, soundDisabled: bool): seq<Effect> {
    match McpPlan(listening, body, version)
    case Reply(_) => []
    case Dispatch(_, f) => DispatchEffects(f, outcome, soundDisabled)
  }

  /** `mcp_post_handler` */
  method McpPostHandler(state: AppState, body: Value, version: string, outcome: ShowOutcome) returns (resp: Response)
    modifies state.desktop
    ensures resp == McpPostResponse(old(state.listening.open), body, version, outcome)
    ensures state.desktop.effects ==
      old(state.desktop.effects) + McpEffects(old(state.listening.open), body, version, outcome, state.desktop.soundDisabled)
  {
    var step := McpPlan(state.listening.open, body, version);
    match step
    case Reply(r) =>
      resp := r;
    case Dispatch(id, f) =>
      var dispatched := DispatchNotification(state.desktop, f, outcome);
      resp := McpFinish(id, f, dispatched);
  }

  /** `mcp_get_handler`: 503 when the gate is closed, else the keep-alive stream. */
  function McpGetResponse(listening: bool): (r: Response)
    ensures !listening ==> r == NotListening()
    ensures listening ==> r.status == OK && r.body == EventStream(KEEP_ALIVE_SECONDS)
  {
    if !listening then NotListening() else Response(OK, EventStream(KEEP_ALIVE_SECONDS))
  }

  // ---------------------------------------------------------------------------
  // Reading a reply back

  /** The id of a JSON-RPC reply; by `ReplyReadsBack`, the `id` member of the document sent. */
  function ResponseId(r: Response): Option<Value> {
    if r.body.RpcBody? then Some(ReplyId(r.body.reply)) else None
  }

  /** Which refusal a JSON-RPC error reply is; by `ReplyReadsBack`, its code and text are the document's `error`. */
  function ErrorOf(r: Response): Option<RpcFailure> {
    if r.body.RpcBody? && r.body.reply.RpcError? then Some(r.body.reply.failure) else None
  }

  /** The code of a JSON-RPC error reply. */
  function ErrorCode(r: Response): Option<int> {
    if r.body.RpcBody? && r.body.reply.RpcError? then Some(FailureCode(r.body.reply.failure)) else None
  }

  /** Which result a JSON-RPC result reply carries. */
  function ResultOf(r: Response): Option<McpResult> {
    if r.body.RpcBody? && r.body.reply.RpcResult? then Some(r.body.reply.result) else None
  }

  /** The value at `path` inside a JSON-RPC result; by `ReplyReadsBack`, inside the document's `result`. */
  function ResultAt(r: Response, path: seq<Seg>): Option<Value> {
    if r.body.RpcBody? && r.body.reply.RpcResult? then At(ResultJson(r.body.reply.result), path) else None
  }

  /** `body` is a request whose `method` member is the string `name` and whose `id` member is `id`. */
  ghost predicate Request(body: Value, name: string, id: Value) {
    Get(body, "method") == Some(Str(name)) && Get(body, "id") == Some(id)
  }

  /** `body` is a `tools/call` request whose params are an object `p`. */
  ghost predicate ToolsCall(body: Value, id: Value, p: map<string, Value>) {
    Request(body, "tools/call", id) && Get(body, "params") == Some(Object(p))
  }

  // ---------------------------------------------------------------------------
  // Properties of the route

  /** A reply decided before any dispatch is the response, and nothing is shown. */
  lemma {:induction false} ReplyStep(listening: bool, body: Value, version: string, outcome: ShowOutcome, soundDisabled: bool)
    requires McpPlan(listening, body, version).Reply?
    ensures McpPostResponse(listening, body, version, outcome) == McpPlan(listening, body, version).response
    ensures McpEffects(listening, body, version, outcome, soundDisabled) == []
  {
  }

  /** A dispatch shows exactly the planned fields, and the reply follows the notifier's outcome. */
  lemma {:induction false} DispatchStep(listening: bool, body: Value, version: string, outcome: ShowOutcome, soundDisabled: bool)
    requires McpPlan(listening, body, version).Dispatch?
    ensures var s := McpPlan(listening, body, version);
      && McpPostResponse(listening, body, version, outcome) == McpFinish(s.context, s.fields, DispatchResult(outcome))
      && McpEffects(listening, body, version, outcome, soundDisabled) == DispatchEffects(s.fields, outcome, soundDisabled)
  {
  }

  /** A request with a string method and an id is routed on its parsed method, with its own id and params. */
  lemma {:induction false} RoutesRequest(body: Value, name: string, id: Value, version: string)
    requires Request(body, name, id)
    ensures McpPlan(true, body, version) == MethodPlan(id, ParseMethod(name), Get(body, "params"), version)
  {
  }

  /** With the gate closed all three routes answer 503 and nothing is shown. */
  lemma {:induction false} GateClosedEverywhere(payload: NotifyRequest, body: Value, version: string, outcome: ShowOutcome, soundDisabled: bool)
    ensures NotifyResponse(false, payload, outcome) == NotListening()
    ensures NotifyEffects(false, payload, outcome, soundDisabled) == []
    ensures McpPostResponse(false, body, version, outcome) == NotListening()
    ensures McpEffects(false, body, version, outcome, soundDisabled) == []
    ensures McpGetResponse(false) == NotListening()
  {
    ReplyStep(false, body, version, outcome, soundDisabled);
  }

  /**
   * No `method` member (a response or a non-object body), or a `method` but
   * no `id` (a notification): 202 with an empty body, and nothing is done.
   */
  lemma {:induction false} AcceptsResponsesAndNotifications(body: Value, version: string, outcome: ShowOutcome, soundDisabled: bool)
    requires Get(body, "method").None? || Get(body, "id").None?
    ensures McpPostResponse(true, body, version, outcome) == Response(ACCEPTED, Empty)
    ensures McpEffects(true, body, version, outcome, soundDisabled) == []
  {
    ReplyStep(true, body, version, outcome, soundDisabled);
  }

  /** A `method` that is not a string: 200 with error -32600 and a null id, whatever the id was. */
  lemma {:induction false} RejectsNonStringMethod(body: Value, version: string, outcome: ShowOutcome, soundDisabled: bool)
    requires Get(body, "method").Some? && !Get(body, "method").value.Str? && Get(body, "id").Some?
    ensures var r := McpPostResponse(true, body, version, outcome);
      && r.status == OK && ResponseId(r) == Some(Null)
      && ErrorOf(r) == Some(MethodNotString) && ErrorCode(r) == Some(INVALID_REQUEST)
    ensures McpEffects(true, body, version, outcome, soundDisabled) == []
  {
    ReplyStep(true, body, version, outcome, soundDisabled);
  }

  /** Each plan for a request with an id replies with HTTP 200 and a JSON-RPC reply carrying that id, or dispatches for it. */
  lemma {:induction false} MethodPlanEchoesId(id: Value, m: RpcMethod, params: Option<Value>, version: string)
    ensures var s := MethodPlan(id, m, params, version);
      && (s.Reply? ==> s.response.status == OK && s.response.body.RpcBody? && ResponseId(s.response) == Some(id))
      && (s.Dispatch? ==> s.context == id)
  {
    if m == ToolsCallMethod {
      ToolsCallEchoesId(id, params);
    }
  }

  /** Each reply `tools/call` can give before dispatching is an HTTP 200 JSON-RPC reply carrying the id. */
  lemma {:induction false} ToolsCallEchoesId(id: Value, params: Option<Value>)
    ensures var s := ToolsCallPlan(id, params);
      && (s.Reply? ==> s.response.status == OK && s.response.body.RpcBody? && ResponseId(s.response) == Some(id))
      && (s.Dispatch? ==> s.context == id)
  {
  }

  /**
   * Every request with a string method and an id is answered with HTTP 200
   * and a JSON-RPC reply carrying that id, whatever the notifier does; the
   * document sent says "2.0" and has that id as its `id` member.
   */
  lemma {:induction false} EchoesRequestId(body: Value, name: string, id: Value, version: string, outcome: ShowOutcome, soundDisabled: bool)
    requires Request(body, name, id)
    ensures var r := McpPostResponse(true, body, version, outcome);
      && r.status == OK && r.body.RpcBody? && ResponseId(r) == Some(id)
      && EnvelopeVersion(ReplyJson(r.body.reply)) == Some(Str("2.0"))
      && EnvelopeId(ReplyJson(r.body.reply)) == Some(id)
  {
    RoutesRequest(body, name, id, version);
    MethodPlanEchoesId(id, ParseMethod(name), Get(body, "params"), version);
    if McpPlan(true, body, version).Reply? {
      ReplyStep(true, body, version, outcome, soundDisabled);
    } else {
      DispatchStep(true, body, version, outcome, soundDisabled);
    }
    ReplyReadsBack(McpPostResponse(true, body, version, outcome).body.reply);
  }

  /** `initialize` reports the protocol version "2025-11-25", the server name and no tool-list changes. */
  lemma {:induction false} InitializeAnswer(body: Value, id: Value, version: string, outcome: ShowOutcome, soundDisabled: bool)
    requires Request(body, "initialize", id)
    ensures var r := McpPostResponse(true, body, version, outcome);
      && ResultOf(r) == Some(Initialized(version))
      && ResultAt(r, [Key("protocolVersion")]) == Some(Str(MCP_PROTOCOL_VERSION))
      && ResultAt(r, [Key("serverInfo"), Key("name")]) == Some(Str(SERVER_NAME))
      && ResultAt(r, [Key("serverInfo"), Key("version")]) == Some(Str(version))
      && ResultAt(r, [Key("capabilities"), Key("tools"), Key("listChanged")]) == Some(Bool(false))
      && ErrorCode(r).None?
    ensures McpEffects(true, body, version, outcome, soundDisabled) == []
  {
    KnownMethods();
    RoutesRequest(body, "initialize", id, version);
    ReplyStep(true, body, version, outcome, soundDisabled);
    assert McpPostResponse(true, body, version, outcome) == RpcOk(id, Initialized(version));
    InitializeResultReadsBack(version);
  }

  /** `tools/list` lists exactly one tool, `notify`, with no next page. */
  lemma {:induction false} ToolsListAnswer(body: Value, id: Value, version: string, outcome: ShowOutcome, soundDisabled: bool)
    requires Request(body, "tools/list", id)
    ensures var r := McpPostResponse(true, body, version, outcome);
      && ResultOf(r) == Some(ToolList)
      && ResultAt(r, [Key("tools")]) == Some(Array([NotifyToolDescriptor()]))
      && ResultAt(r, [Key("tools"), Index(0), Key("name")]) == Some(Str(NOTIFY_TOOL))
      && ResultAt(r, [Key("nextCursor")]) == Some(Null)
      && ErrorCode(r).None?
    ensures McpEffects(true, body, version, outcome, soundDisabled) == []
  {
    KnownMethods();
    RoutesRequest(body, "tools/list", id, version);
    ReplyStep(true, body, version, outcome, soundDisabled);
    assert McpPostResponse(true, body, version, outcome) == RpcOk(id, ToolList);
    ToolsListResultReadsBack();
  }

  /** Any other method: error -32601, and nothing is shown. */
  lemma {:induction false} UnknownMethod(body: Value, name: string, id: Value, version: string, outcome: ShowOutcome, soundDisabled: bool)
    requires Request(body, name, id)
    requires name != "initialize" && name != "tools/list" && name != "tools/call"
    ensures var r := McpPostResponse(true, body, version, outcome);
      ErrorOf(r) == Some(MethodNotFound) && ErrorCode(r) == Some(METHOD_NOT_FOUND)
    ensures McpEffects(true, body, version, outcome, soundDisabled) == []
  {
    ParseMethodKeepsName(name);
    RoutesRequest(body, name, id, version);
    ReplyStep(true, body, version, outcome, soundDisabled);
  }

  /** A string method "tools/call" with an id goes to the `tools/call` branch. */
  lemma {:induction false} RoutesToolsCall(body: Value, id: Value, version: string)
    requires Request(body, "tools/call", id)
    ensures McpPlan(true, body, version) == ToolsCallPlan(id, Get(body, "params"))
  {
    KnownMethods();
    RoutesRequest(body, "tools/call", id, version);
  }

  /** `tools/call` whose params are not an object, or whose name is not a string: error -32602. */
  lemma {:induction false} ToolsCallMalformedParams(body: Value, id: Value, version: string, outcome: ShowOutcome, soundDisabled: bool)
    requires Request(body, "tools/call", id)
    requires AsObject(Get(body, "params")).None? || AsStr(Member(AsObject(Get(body, "params")).value, "name")).None?
    ensures var r := McpPostResponse(true, body, version, outcome);
      && ErrorOf(r) == Some(if AsObject(Get(body, "params")).None? then ParamsNotObject else MissingToolName)
      && ErrorCode(r) == Some(INVALID_PARAMS)
    ensures McpEffects(true, body, version, outcome, soundDisabled) == []
  {
    RoutesToolsCall(body, id, version);
    var s := ToolsCallPlan(id, Get(body, "params"));
    assert s.Reply? && ErrorOf(s.response) == Some(if AsObject(Get(body, "params")).None? then ParamsNotObject else MissingToolName);
    ReplyStep(true, body, version, outcome, soundDisabled);
  }

  /** `tools/call` naming any tool but `notify`: error -32601, whatever the arguments. */
  lemma {:induction false} ToolsCallUnknownTool(body: Value, id: Value, p: map<string, Value>, name: string, version: string, outcome: ShowOutcome, soundDisabled: bool)
    requires ToolsCall(body, id, p) && Member(p, "name") == Some(Str(name)) && name != NOTIFY_TOOL
    ensures var r := McpPostResponse(true, body, version, outcome);
      ErrorOf(r) == Some(ToolNotFound) && ErrorCode(r) == Some(METHOD_NOT_FOUND)
    ensures McpEffects(true, body, version, outcome, soundDisabled) == []
  {
    RoutesToolsCall(body, id, version);
    assert ToolsCallPlan(id, Get(body, "params")) == Reply(RpcFail(id, ToolNotFound));
    ReplyStep(true, body, version, outcome, soundDisabled);
  }

  /** `tools/call` of `notify` whose arguments are not an object: error -32602. */
  lemma {:induction false} ToolsCallMalformedArguments(body: Value, id: Value, p: map<string, Value>, version: string, outcome: ShowOutcome, soundDisabled: bool)
    requires ToolsCall(body, id, p) && Member(p, "name") == Some(Str(NOTIFY_TOOL))
    requires AsObject(Member(p, "arguments")).None?
    ensures var r := McpPostResponse(true, body, version, outcome);
      ErrorOf(r) == Some(ArgumentsNotObject) && ErrorCode(r) == Some(INVALID_PARAMS)
    ensures McpEffects(true, body, version, outcome, soundDisabled) == []
  {
    RoutesToolsCall(body, id, version);
    assert ToolsCallPlan(id, Get(body, "params"))
      == Reply(RpcFail(id, ArgumentsNotObject));
    ReplyStep(true, body, version, outcome, soundDisabled);
  }

  /** `body` calls the `notify` tool with the object of arguments `args`. */
  ghost predicate NotifyCall(body: Value, id: Value, args: map<string, Value>) {
    && Request(body, "tools/call", id)
    && AsObject(Get(body, "params")).Some?
    && var p := AsObject(Get(body, "params")).value;
       Member(p, "name") == Some(Str(NOTIFY_TOOL)) && Member(p, "arguments") == Some(Object(args))
  }

  /** The fields `tools/call` validates: a missing or non-string argument reads as empty. */
  function CallFields(args: map<string, Value>): Result<NotificationFields, FieldError> {
    ValidateNotificationFields(StrOrEmpty(args, "title"), StrOrEmpty(args, "content"), StrOrEmpty(args, "agent"))
  }

  /** A `notify` call routes to the validator's verdict on its arguments. */
  lemma {:induction false} RoutesNotifyCall(body: Value, id: Value, args: map<string, Value>, version: string)
    requires NotifyCall(body, id, args)
    ensures McpPlan(true, body, version) == NotifyToolPlan(id, args)
  {
    RoutesToolsCall(body, id, version);
    assert ToolsCallPlan(id, Get(body, "params")) == NotifyToolPlan(id, args);
  }

  /** Fields the validator refuses: error -32602, and nothing is shown. */
  lemma {:induction false} ToolsCallInvalidFields(body: Value, id: Value, args: map<string, Value>, version: string, outcome: ShowOutcome, soundDisabled: bool)
    requires NotifyCall(body, id, args) && CallFields(args).Failure?
    ensures var r := McpPostResponse(true, body, version, outcome);
      ErrorOf(r) == Some(InvalidFields) && ErrorCode(r) == Some(INVALID_PARAMS)
    ensures McpEffects(true, body, version, outcome, soundDisabled) == []
  {
    RoutesNotifyCall(body, id, args, version);
    assert NotifyToolPlan(id, args) == Reply(RpcFail(id, InvalidFields));
    ReplyStep(true, body, version, outcome, soundDisabled);
  }

  /** Valid fields are dispatched exactly as validated; a notifier failure gives error -32000. */
  lemma {:induction false} ToolsCallDispatches(body: Value, id: Value, args: map<string, Value>, version: string, outcome: ShowOutcome, soundDisabled: bool)
    requires NotifyCall(body, id, args) && CallFields(args).Success?
    ensures McpEffects(true, body, version, outcome, soundDisabled) == DispatchEffects(CallFields(args).value, outcome, soundDisabled)
    ensures var r := McpPostResponse(true, body, version, outcome);
      outcome.ShowFailed? ==> ErrorOf(r) == Some(DispatchFailed) && ErrorCode(r) == Some(DISPATCH_FAILED)
  {
    RoutesNotifyCall(body, id, args, version);
    assert NotifyToolPlan(id, args) == Dispatch(id, CallFields(args).value);
    DispatchStep(true, body, version, outcome, soundDisabled);
  }

  /**
   * A notification that was shown is answered with one text item,
   * "Notification sent: " followed by the trimmed title, and `isError` false.
   */
  lemma {:induction false} ToolsCallSucceeds(body: Value, id: Value, args: map<string, Value>, version: string, soundDisabled: bool)
    requires NotifyCall(body, id, args) && CallFields(args).Success?
    ensures var r := McpPostResponse(true, body, version, Displayed);
      && ResultOf(r) == Some(NotificationSent(Trim(StrOrEmpty(args, "title"))))
      && ResultAt(r, [Key("content"), Index(0), Key("text")]) == Some(Str("Notification sent: " + Trim(StrOrEmpty(args, "title"))))
      && ResultAt(r, [Key("isError")]) == Some(Bool(false))
      && ErrorCode(r).None? && ResponseId(r) == Some(id)
  {
    RoutesNotifyCall(body, id, args, version);
    var f := CallFields(args).value;
    assert NotifyToolPlan(id, args) == Dispatch(id, f);
    DispatchStep(true, body, version, Displayed, soundDisabled);
    assert McpPostResponse(true, body, version, Displayed) == RpcOk(id, NotificationSent(f.title));
    ToolCallResultReadsBack(f.title);
  }
}
