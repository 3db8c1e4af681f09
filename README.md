# agent-notifier, modelled in Dafny

agent-notifier is a tray application. It shows desktop notifications on
behalf of coding agents and takes them over two HTTP routes:
- `POST /agent/notify` takes a plain JSON body;
- `POST /mcp` and `GET /mcp` form a small Model Context Protocol server. It
  speaks JSON-RPC 2.0 and offers one tool, `notify`.

A process-wide listening gate, toggled from the tray menu, decides whether
either route does anything. The HTTP bindings (address and port) can be
saved from the settings window, and saving restarts the server task.

This project models that request-handling and state-management core of
`src-tauri/src/lib.rs` and proves its behaviour.

| file | module | what it holds |
|---|---|---|
| `wrappers.dfy` | `Wrappers` | `Option` and `Result` |
| `text.dfy` | `Text` | `str::trim` over Unicode White_Space, `chars().take(n)`, decimal rendering |
| `json.dfy` | `Json` | the part of `serde_json::Value` the handlers read, and paths into it |
| `notification.dfy` | `Notification` | field validation, the notification body, and the desktop collaborator (notifier and sound) with its ordered effect log |
| `protocol.dfy` | `McpProtocol` | JSON-RPC envelopes, the error codes and texts, the `notify` tool descriptor, and the result of each MCP method, each with read-back lemmas |
| `http.dfy` | `Http` | responses, the listening gate, the handler state, and `POST /agent/notify` |
| `mcp.dfy` | `Mcp` | `POST /mcp` and `GET /mcp` |
| `settings.dfy` | `Settings` | `HttpSettings`, its default and its check, and the settings store |
| `listener.dfy` | `Listener` | the server-task slot: restart and save |
| `tray.dfy` | `Tray` | the start/stop listening items of the tray menu |

Each handler splits into three parts:
- a pure plan: everything up to dispatching a notification (gate, envelope
  and argument checks);
- the imperative `DispatchNotification`, which calls the desktop
  collaborator;
- a pure finish, which turns the dispatch result into the reply.

The `*Response` and `*Effects` functions compose the three parts for a given
notifier outcome. The handler methods are proved equal to them, and the route
lemmas are stated over them.

What the model abstracts:
- **Collaborators become inputs.** What the notifier's `show` reports is a
  `ShowOutcome`. What the store reports is a `StoreOutcome`. Whether the menu
  toolkit accepts an enabled-flag change is a boolean. The
  `AGENT_NOTIFIER_DISABLE_SOUND` opt-out is `Desktop.soundDisabled`.
  `CARGO_PKG_VERSION` is the `version` parameter.
- **What the notifier and the audio task do** is recorded as a ghost
  sequence of `Effect`s.
- **Replies are typed values.** The model keeps these types:
  - a refusal is an `RpcFailure`; `FailureCode` and `FailureText` give its
    code and message;
  - a method's result is an `McpResult`; `ResultJson` gives its JSON;
  - a validation error is a `FieldError`; `ErrorMessage` gives its text.

  `ReplyJson` builds the document that goes on the wire. The `*ReadsBack`
  lemmas state what a client reads from it.
- **The 950-character soft limit applies to one route only.** The limit
  (lib.rs:114) is checked only on `tools/call`, through the validator
  (lib.rs:412). `POST /agent/notify` checks only for blank fields
  (lib.rs:270-281), as `Http.NotifyHasNoSoftLimit` states.

## Model

| member | source | states |
|---|---|---|
| Text.Trim | src-tauri/src/lib.rs:186-188 | `str::trim`; characterised by `Text.TrimStartSpec`, `Text.TrimEndSpec`, `Text.TrimSpec`, `Text.TrimIsInfix` and `Text.TrimIdempotent` below |
| Text.TrimStartSpec | src-tauri/src/lib.rs:186-188 | trimming the start keeps a suffix of the input; what is dropped is all whitespace; what is kept does not start with whitespace |
| Text.TrimEndSpec | src-tauri/src/lib.rs:186-188 | trimming the end keeps a prefix of the input; what is dropped is all whitespace; what is kept does not end with whitespace |
| Text.TrimSpec | src-tauri/src/lib.rs:186-190 | `trim` never lengthens a string; the result is empty exactly when the input is all whitespace; otherwise it starts and ends with non-whitespace |
| Text.TrimIsInfix | src-tauri/src/lib.rs:186-188 | the trimmed string is a contiguous slice of the input, and the cut-off prefix and suffix are all whitespace |
| Text.TrimIdempotent | src-tauri/src/lib.rs:186-188 | trimming twice is trimming once |
| Json.StrOrEmpty | src-tauri/src/lib.rs:399-410 | a tool argument reads as its string when it is a string member, and as "" when it is missing or not a string |
| Notification.ValidateNotificationFields | src-tauri/src/lib.rs:181-202 | `validate_notification_fields`; its accept/refuse condition, its trimmed result and its error choice are stated by `Notification.ValidateSpec` |
| Notification.ValidateSpec | src-tauri/src/lib.rs:181-201 | validation succeeds iff no field is blank and the trimmed content has at most 950 characters; on success it returns exactly the three trimmed strings; a blank field is reported in preference to over-long content |
| Notification.SoftLimitBoundary | src-tauri/src/lib.rs:194-199 | with title and agent present, trimmed content of exactly 950 characters passes and content of 951 fails with the length error carrying 951 |
| Notification.ValidationMessagesDiffer | src-tauri/src/lib.rs:190-199 | the blank-field message differs from the too-long message, whatever the length |
| Notification.ValidatedFieldsAreStable | src-tauri/src/lib.rs:186-201 | validated fields are non-empty, already trimmed and within the limit, so re-validating them returns them unchanged |
| Notification.DispatchBody | src-tauri/src/lib.rs:210-211 | the notification body; its length and prefix property are stated by `Notification.DispatchBodySpec` |
| Notification.DispatchBodySpec | src-tauri/src/lib.rs:210-211 | the body is a prefix of `"{agent}: {content}"` whose length is min(that length, 1000) |
| Notification.DispatchBodyUntruncated | src-tauri/src/lib.rs:210-211 | a body that fits is the agent, then ": ", then the content |
| Notification.Desktop.Show | src-tauri/src/lib.rs:213-220 | the notifier succeeds exactly when it displays; only then is a `Shown(title, body)` effect recorded; a failure returns the notifier's reason |
| Notification.Desktop.PlayNotificationSound | src-tauri/src/lib.rs:116-123 | a sound is requested unless the opt-out is set |
| Notification.DispatchResult | src-tauri/src/lib.rs:213-223 | dispatch succeeds iff the notifier displayed; a failure is "Failed to dispatch notification: " followed by the notifier's reason |
| Notification.SoundOnlyAfterShow | src-tauri/src/lib.rs:213-223 | a failed show leaves no effect and no sound; a successful one shows the title and truncated body first; a sound comes only second, right after its notification, and exactly when the show succeeded and sound is not disabled |
| Notification.DispatchNotification | src-tauri/src/lib.rs:204-224 | the result is `DispatchResult(outcome)`, and the effects appended are exactly `DispatchEffects`: the show, then the sound |
| McpProtocol.NotifyToolDescriptor | src-tauri/src/lib.rs:226-241 | `notify_tool_descriptor`; what a client reads from it is stated by `McpProtocol.DescriptorAgreesWithValidator`, `McpProtocol.InputSchemaReadsBack` and `McpProtocol.PropertiesReadsBack` |
| McpProtocol.PropertiesReadsBack | src-tauri/src/lib.rs:232-236 | the content schema's maxLength is the validator's soft limit, 950 |
| McpProtocol.InputSchemaReadsBack | src-tauri/src/lib.rs:230-239 | the input schema requires exactly title, content and agent, forbids other properties, and has the properties above |
| McpProtocol.DescriptorAgreesWithValidator | src-tauri/src/lib.rs:226-241 | the descriptor names the tool `notify`, requires the three arguments `tools/call` reads, forbids others, and advertises the soft limit as maxLength |
| McpProtocol.InitializeResultReadsBack | src-tauri/src/lib.rs:335-344 | the `initialize` result carries protocolVersion "2025-11-25", server name "agent-notifications", the package version and `listChanged: false` |
| McpProtocol.ToolsListResultReadsBack | src-tauri/src/lib.rs:348-351 | the `tools/list` result lists exactly one descriptor, named `notify`, and `nextCursor` null |
| McpProtocol.ToolCallResultReadsBack | src-tauri/src/lib.rs:438-446 | a call result is one text item "Notification sent: " followed by the title, and `isError` false |
| McpProtocol.JsonRpcSuccess | src-tauri/src/lib.rs:243-249 | `jsonrpc_success`; read back by `McpProtocol.SuccessReadsBack` |
| McpProtocol.JsonRpcError | src-tauri/src/lib.rs:251-257 | `jsonrpc_error`; read back by `McpProtocol.ErrorReadsBack` |
| McpProtocol.ReplyJson | src-tauri/src/lib.rs:243-257 | the document sent for a typed reply; read back by `McpProtocol.ReplyReadsBack` |
| McpProtocol.SuccessReadsBack | src-tauri/src/lib.rs:243-249 | a success envelope reads back as version "2.0", the id and the result, with no error member |
| McpProtocol.ErrorReadsBack | src-tauri/src/lib.rs:251-257 | an error envelope reads back as version "2.0"; its id is the given id, or null when none was given; it carries the code and message and no result member |
| McpProtocol.ReplyReadsBack | src-tauri/src/lib.rs:243-257 | every reply document says "2.0" and carries the reply's id; it has a result iff the reply is a result, and an error code and message iff it is an error |
| Http.ListeningGate.constructor | src-tauri/src/lib.rs:702 | the application starts with the gate open |
| Http.NotifyPlan | src-tauri/src/lib.rs:263-281 | `notify_handler` up to the dispatch: gate, then blank check; its outcomes are stated by `Http.NotifyGateClosed`, `Http.NotifyBlankField`, `Http.NotifyDispatches` and `Http.NotifyTrimmedPayload` |
| Http.NotifyResponse | src-tauri/src/lib.rs:259-293 | the reply of `notify_handler` for a notifier outcome; stated by the same lemmas, and `Http.NotifyHandler` is proved equal to it |
| Http.NotifyHandler | src-tauri/src/lib.rs:259-293 | the reply is `NotifyResponse` for the gate and notifier outcome, and the effects are exactly `NotifyEffects` |
| Http.NotifyGateClosed | src-tauri/src/lib.rs:263-268 | gate closed: 503 "Server is not listening", and nothing is shown |
| Http.NotifyBlankField | src-tauri/src/lib.rs:270-279 | gate open and any field blank: 400 with the required-fields message, and nothing is shown |
| Http.NotifyDispatches | src-tauri/src/lib.rs:281-292 | gate open and no field blank: the trimmed fields are dispatched, then the reply is 200 "Notification dispatched", or 500 "Failed to dispatch notification" on a notifier failure |
| Http.NotifyHasNoSoftLimit | src-tauri/src/lib.rs:270-292 | content that the validator refuses for length is still shown and answered 200 on this route |
| Http.NotifyTrimmedPayload | src-tauri/src/lib.rs:270-281 | an already-trimmed payload with no empty field is dispatched exactly as sent |
| Mcp.ParseMethodKeepsName | src-tauri/src/lib.rs:333-455 | parsing the method keeps its name, and only names other than the three known ones fall to the fallback |
| Mcp.KnownMethods | src-tauri/src/lib.rs:333-354 | "initialize", "tools/list" and "tools/call" each select their own branch |
| Mcp.McpPostHandler | src-tauri/src/lib.rs:295-456 | the reply is `McpPostResponse` for the gate, body, version and notifier outcome, and the effects are exactly `McpEffects` |
| Mcp.McpGetResponse | src-tauri/src/lib.rs:458-472 | gate closed: 503 "Server is not listening"; otherwise 200 with an event stream that keeps alive every 25 seconds |
| Mcp.McpPlan | src-tauri/src/lib.rs:300-331 | the gate and envelope checks of `mcp_post_handler`; stated by `Mcp.GateClosedEverywhere`, `Mcp.AcceptsResponsesAndNotifications`, `Mcp.RejectsNonStringMethod` and `Mcp.RoutesRequest` |
| Mcp.MethodPlan | src-tauri/src/lib.rs:333-455 | the match on the method; stated by `Mcp.MethodPlanEchoesId`, `Mcp.InitializeAnswer`, `Mcp.ToolsListAnswer`, `Mcp.UnknownMethod` and `Mcp.RoutesToolsCall` |
| Mcp.ToolsCallPlan | src-tauri/src/lib.rs:354-365 | the params check of `tools/call`; stated by `Mcp.ToolsCallMalformedParams` and `Mcp.ToolsCallEchoesId` |
| Mcp.ToolPlan | src-tauri/src/lib.rs:367-397 | the tool-name and arguments checks; stated by `Mcp.ToolsCallMalformedParams`, `Mcp.ToolsCallUnknownTool` and `Mcp.ToolsCallMalformedArguments` |
| Mcp.NotifyToolPlan | src-tauri/src/lib.rs:399-423 | reading and validating the arguments; stated by `Mcp.RoutesNotifyCall`, `Mcp.ToolsCallInvalidFields` and `Mcp.ToolsCallDispatches` |
| Mcp.McpPostResponse | src-tauri/src/lib.rs:295-456 | the reply of `mcp_post_handler` for a notifier outcome; stated by the route lemmas below, and `Mcp.McpPostHandler` is proved equal to it |
| Mcp.ReplyStep | src-tauri/src/lib.rs:295-423 | a reply decided before dispatch is the response, and nothing is shown |
| Mcp.DispatchStep | src-tauri/src/lib.rs:425-448 | a dispatch shows exactly the planned fields, and the reply follows the notifier's outcome |
| Mcp.RoutesRequest | src-tauri/src/lib.rs:318-333 | a request with a string method and an id is routed on that method, with its own id and params |
| Mcp.GateClosedEverywhere | src-tauri/src/lib.rs:300-306 | with the gate closed, all three routes answer 503 before reading the body, and nothing is shown |
| Mcp.AcceptsResponsesAndNotifications | src-tauri/src/lib.rs:308-316 | no `method`, or a method and no `id`: 202 with an empty body, and nothing is shown |
| Mcp.RejectsNonStringMethod | src-tauri/src/lib.rs:318-328 | a non-string method with an id: HTTP 200, error -32600 and id null, whatever id was sent; nothing is shown |
| Mcp.MethodPlanEchoesId | src-tauri/src/lib.rs:330-455 | every method branch replies with HTTP 200 and a JSON-RPC reply carrying the request id, or dispatches for that id |
| Mcp.ToolsCallEchoesId | src-tauri/src/lib.rs:354-449 | every refusal in `tools/call` is HTTP 200 with the request id |
| Mcp.EchoesRequestId | src-tauri/src/lib.rs:330-455 | every request with a string method and an id is answered HTTP 200 with a reply whose document says "2.0" and echoes the id, whatever the notifier does |
| Mcp.InitializeAnswer | src-tauri/src/lib.rs:334-346 | `initialize` answers the initialize result: protocolVersion "2025-11-25", the server name and version, `listChanged` false; no error, nothing shown |
| Mcp.ToolsListAnswer | src-tauri/src/lib.rs:347-353 | `tools/list` answers exactly one tool, named `notify`, with `nextCursor` null; no error, nothing shown |
| Mcp.UnknownMethod | src-tauri/src/lib.rs:450-454 | any other method: error -32601 "Method not found", nothing shown |
| Mcp.RoutesToolsCall | src-tauri/src/lib.rs:354 | "tools/call" with an id goes to the `tools/call` branch |
| Mcp.ToolsCallMalformedParams | src-tauri/src/lib.rs:355-377 | params not an object, or a name that is not a string: error -32602, with the matching refusal; nothing shown |
| Mcp.ToolsCallUnknownTool | src-tauri/src/lib.rs:379-385 | any tool name but `notify`: error -32601, whatever the arguments; nothing shown |
| Mcp.ToolsCallMalformedArguments | src-tauri/src/lib.rs:387-397 | `notify` with arguments that are not an object: error -32602; nothing shown |
| Mcp.RoutesNotifyCall | src-tauri/src/lib.rs:387-412 | a `notify` call routes to the validator's verdict on its string-or-empty arguments |
| Mcp.ToolsCallInvalidFields | src-tauri/src/lib.rs:412-423 | arguments the validator refuses: error -32602; nothing shown |
| Mcp.ToolsCallDispatches | src-tauri/src/lib.rs:425-436 | valid arguments are dispatched exactly as validated; a notifier failure gives error -32000 |
| Mcp.ToolsCallSucceeds | src-tauri/src/lib.rs:438-448 | a shown notification is answered with "Notification sent: " and the trimmed title, `isError` false, no error, and the request id |
| Settings.DefaultHttpSettings | src-tauri/src/lib.rs:96-103 | `HttpSettings::default`; `Settings.DefaultIsValid` states it passes the check |
| Settings.ValidateHttpSettings | src-tauri/src/lib.rs:474-482 | `validate_http_settings`; characterised by `Settings.ValidateHttpSettingsSpec` |
| Settings.ValidateHttpSettingsSpec | src-tauri/src/lib.rs:474-482 | settings are accepted iff the address is not blank and the port is in 1..65535; a blank address is reported before a zero port |
| Settings.DefaultIsValid | src-tauri/src/lib.rs:96-103 | the default bindings, 127.0.0.1 on port 60766, pass the check |
| Settings.SettingsJson | src-tauri/src/lib.rs:508-512 | the JSON persist writes; `Settings.ParseSettingsJson` states that it parses back to the same settings |
| Settings.ParseSettings | src-tauri/src/lib.rs:494-495 | `serde_json::from_value::<HttpSettings>`; stated by `Settings.ParseSettingsJson` and `Settings.ParseSettingsSequence` |
| Settings.ParseSettingsJson | src-tauri/src/lib.rs:90-94 | deserialising the JSON serde writes for the settings gives the same settings back |
| Settings.ParseSettingsSequence | src-tauri/src/lib.rs:494-495 | serde's sequence form of the struct: a two-element array of address and port parses exactly when the port fits a u16; arrays of other lengths and non-container values do not parse |
| Settings.LoadHttpSettings | src-tauri/src/lib.rs:484-503 | load yields the stored settings when the store opens and the entry parses, in either serde form; otherwise the default; stored settings are not re-validated |
| Settings.LoadAfterPersist | src-tauri/src/lib.rs:484-517 | what persist writes is what the next load returns |
| Settings.PersistResult | src-tauri/src/lib.rs:505-517 | the result of `persist_http_settings`; stated by `Settings.PersistFailuresDiffer` |
| Settings.PersistFailuresDiffer | src-tauri/src/lib.rs:505-517 | persist succeeds iff the store saved; failing to open the store and failing to save are always told apart by their message |
| Settings.SettingsStore.Persist | src-tauri/src/lib.rs:505-517 | the result is `PersistResult(outcome)`; the entry becomes the settings' JSON only when the store saved, and is otherwise unchanged |
| Listener.ServerTask.constructor | src-tauri/src/lib.rs:519-544 | a spawned task serves the given settings behind the given gate and is not aborted |
| Listener.ServerTask.Abort | src-tauri/src/lib.rs:550-552 | aborting marks the task aborted |
| Listener.ManagedState.constructor | src-tauri/src/lib.rs:702-715 | setup keeps the loaded settings and fills the slot with one fresh task spawned from them, the only task spawned so far |
| Listener.ManagedState.AtMostOneLive | src-tauri/src/lib.rs:546-559 | in a valid state, any two tasks that are not aborted are the same task, and it is the one in the slot |
| Listener.ManagedState.RestartHttpServer | src-tauri/src/lib.rs:546-559 | the previous task, if any, is aborted; the slot then holds one fresh live task built from the current settings; settings are unchanged; the result is Ok; the one-live-task invariant is kept |
| Listener.ManagedState.SaveHttpBindings | src-tauri/src/lib.rs:61-75 | invalid settings change nothing and return the validator's error; valid ones overwrite the settings first; a persist failure is returned with no restart and no rollback; a successful persist restarts from the new settings; on every other path no spawned task is aborted, so the running task keeps running; the invariant is kept |
| Listener.SaveResult | src-tauri/src/lib.rs:61-75 | the result of `save_http_bindings`; characterised by `Listener.SaveResultSpec`, and `Listener.ManagedState.SaveHttpBindings` is proved to return it |
| Listener.SaveResultSpec | src-tauri/src/lib.rs:61-75 | saving succeeds iff the address is not blank, the port is non-zero and the store saved; invalid settings are refused with the validator's message, whatever the store would do |
| Tray.MenuItem.SetEnabled | src-tauri/src/lib.rs:618-635 | an accepted change sets the flag; a refused one leaves it as it was |
| Tray.TrayMenu.constructor | src-tauri/src/lib.rs:562-577 | the menu starts in sync with the gate: "Start" enabled iff the gate is closed, "Stop" iff it is open |
| Tray.TrayMenu.OnMenuEvent | src-tauri/src/lib.rs:618-636 | stop closes the gate and start opens it; the chosen item is disabled and the other enabled, as far as the toolkit accepts; when both changes are accepted the menu is back in sync whatever it was before; any other item changes neither gate nor items |

## Left out

- The window builder, the macOS title-bar code and the tray icon loading are not modelled (lib.rs:562-598, 650-729). They are UI and platform calls.
- The "quit" and "open window" menu items are not modelled. They act only on the window and the process, not on the gate or the items.
- Audio playback is not modelled (lib.rs:116-154). Decoding, the output stream and the blocking task are best-effort I/O whose failures are only logged. A playback request is the ghost effect `SoundRequested`; only the environment opt-out is kept.
- `ensure_notification_permission` (lib.rs:156-179) and `greet` (lib.rs:51-53) are not modelled. They only query OS permissions, log, or greet.
- `get_http_bindings` (lib.rs:55-58) is not modelled. It only reads `ManagedState.settings`.
- The store I/O of `load_http_settings` and `persist_http_settings` is not modelled. Its outcomes are inputs: whether the store opens, the stored entry, and a `StoreOutcome`. Serialising the two fields cannot fail, so that error path is not kept.
- `Settings.SettingsStore.Persist`: `entry` is the entry as it is on disk. When the save step fails, the store plugin's in-memory copy already holds the new value; the model does not keep that difference.
- `Listener.ServerTask.constructor` does not model the axum routing, TCP bind and serve inside the task (lib.rs:519-544). That is network I/O. Whether the bind succeeds is not kept either: nothing in the managed state observes it, and a task that fails to bind simply ends.
- `Mcp.McpGetResponse`: the SSE stream's 25-second timer is kept only as the interval the stream is built with; timing and streaming are not modelled.
- The atomic, `RwLock` and `Mutex` semantics are modelled as plain sequential fields, and concurrency and interleaving of requests are not modelled. Each operation runs to completion alone.
- serde failures to deserialise a request body are not modelled. axum rejects those before any handler runs.
- JSON numbers are modelled as integers. The handlers only echo a request id and never compute with it; floating-point ids are not modelled.
- The error logging (`eprintln!`) is not modelled. It is output only.
- `Tray.TrayMenu.constructor`: `setup_tray` propagates a failing `set_enabled` with `?`, so setup fails. The model treats those two calls as accepted.
- `Notification.ValidateNotificationFields` returns a `FieldError`, and `Notification.ErrorMessage` renders it as the source's text. Equally, `McpProtocol.ReplyJson` renders a typed reply as the JSON the source builds inline.
