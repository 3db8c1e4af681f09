/**
 * The HTTP side shared by both routes: responses, the listening gate, the
 * state every handler receives, and the plain `POST /agent/notify` route.
 */
module Http {
  import opened Wrappers
  import opened Text
  import opened Json
  import opened McpProtocol
  import opened Notification

  const OK := 200
  const ACCEPTED := 202
  const BAD_REQUEST := 400
  const INTERNAL_SERVER_ERROR := 500
  const SERVICE_UNAVAILABLE := 503

  /**
   * A response body: none, a JSON document, a JSON-RPC reply (sent as the
   * document `ReplyJson` builds), or a Server-Sent-Events stream.
   */
  datatype Body = Empty | JsonBody(value: Value) | RpcBody(reply: RpcReply) | EventStream(keepAliveSeconds: nat)

  datatype Response = Response(status: nat, body: Body)

  /** `{"message": message}` */
  function MessageBody(message: string): Value {
    Object(map["message" := Str(message)])
  }

  function Message(status: nat, message: string): Response {
    Response(status, JsonBody(MessageBody(message)))
  }

  /** Every route's reply while the gate is closed. */
  function NotListening(): Response {
    Message(SERVICE_UNAVAILABLE, "Server is not listening")
  }

  /** The process-wide listening flag, shared by the handlers and the tray. */
  class ListeningGate {
    var open: bool

    /** The application starts listening. */
    constructor ()
      ensures open
    {
      open := true;
    }
  }

  /** The state each handler receives: the desktop collaborator and the gate. */
  class AppState {
    const desktop: Desktop
    const listening: ListeningGate

    constructor (desktop: Desktop, listening: ListeningGate)
      ensures this.desktop == desktop && this.listening == listening
    {
      this.desktop := desktop;
      this.listening := listening;
    }
  }

  /**
   * A handler's decision before it may dispatch: either a reply, or a
   * notification to dispatch whose outcome the reply then depends on
   * (`context` is whatever the reply needs besides that outcome).
   */
  datatype Step<C> = Reply(response: Response) | Dispatch(context: C, fields: NotificationFields)

  /** The body of `POST /agent/notify`. */
  datatype NotifyRequest = NotifyRequest(title: string, content: string, agent: string)

  const NOTIFY_DISPATCHED := "Notification dispatched"
  const NOTIFY_FAILED := "Failed to dispatch notification"

  /** `notify_handler` up to the dispatch: the gate, then the blank-field check. */
  function NotifyPlan(listening: bool, payload: NotifyRequest): Step<()> {
    if !listening then
      Reply(NotListening())
    else
      var title, content, agent := Trim(payload.title), Trim(payload.content), Trim(payload.agent);
      if title == [] || content == [] || agent == [] then
        Reply(Message(BAD_REQUEST, FIELDS_REQUIRED))
      else
        Dispatch((), NotificationFields(title, content, agent))
  }

  /** `notify_handler` after the dispatch; the error text is logged, not returned. */
  function NotifyFinish(dispatched: Result<(), string>): Response {
    if dispatched.Failure? then Message(INTERNAL_SERVER_ERROR, NOTIFY_FAILED) else Message(OK, NOTIFY_DISPATCHED)
  }

  /** The reply of `notify_handler` when the notifier reports `outcome`. */
  function NotifyResponse(listening: bool, payload: NotifyRequest, outcome: ShowOutcome): Response {
    match NotifyPlan(listening, payload)
    case Reply(r) => r
    case Dispatch(_, _) => NotifyFinish(DispatchResult(outcome))
  }

  /** The effects of `notify_handler` when the notifier reports `outcome`. */
  function NotifyEffects(listening: bool, payload: NotifyRequest, outcome: ShowOutcome, soundDisabled: bool): seq<Effect> {
    match NotifyPlan(listening, payload)
    case Reply(_) => []
    case Dispatch(_, f) => DispatchEffects(f, outcome, soundDisabled)
  }

  /** `notify_handler` */
  method NotifyHandler(state: AppState, payload: NotifyRequest, outcome: ShowOutcome) returns (resp: Response)
    modifies state.desktop
    ensures resp == NotifyResponse(old(state.listening.open), payload, outcome)
    ensures state.desktop.effects ==
      old(state.desktop.effects) + NotifyEffects(old(state.listening.open), payload, outcome, state.desktop.soundDisabled)
  {
    var step := NotifyPlan(state.listening.open, payload);
    match step
    case Reply(r) =>
      resp := r;
    case Dispatch(_, f) =>
      var dispatched := DispatchNotification(state.desktop, f, outcome);
      resp := NotifyFinish(dispatched);
  }

  /** Gate closed: 503, and nothing is trimmed, checked or shown. */
  lemma {:induction false} NotifyGateClosed(payload: NotifyRequest, outcome: ShowOutcome, soundDisabled: bool)
    ensures NotifyResponse(false, payload, outcome) == NotListening()
    ensures NotifyEffects(false, payload, outcome, soundDisabled) == []
  {
  }

  /** Gate open and a field blank: 400 with the required-fields message, and nothing shown. */
  lemma {:induction false} NotifyBlankField(payload: NotifyRequest, outcome: ShowOutcome, soundDisabled: bool)
    requires Blank(payload.title) || Blank(payload.content) || Blank(payload.agent)
    ensures NotifyResponse(true, payload, outcome) == Message(BAD_REQUEST, FIELDS_REQUIRED)
    ensures NotifyEffects(true, payload, outcome, soundDisabled) == []
  {
    TrimSpec(payload.title);
    TrimSpec(payload.content);
    TrimSpec(payload.agent);
  }

  /**
   * Gate open and no field blank: the trimmed fields are dispatched whatever
   * the content's length (this route has no soft limit), and the reply is 200
   * or, on a notifier failure, 500 with a fixed message that does not carry
   * the notifier's error.
   */
  lemma {:induction false} NotifyDispatches(payload: NotifyRequest, outcome: ShowOutcome, soundDisabled: bool)
    requires !Blank(payload.title) && !Blank(payload.content) && !Blank(payload.agent)
    ensures var f := NotificationFields(Trim(payload.title), Trim(payload.content), Trim(payload.agent));
      NotifyEffects(true, payload, outcome, soundDisabled) == DispatchEffects(f, outcome, soundDisabled)
    ensures outcome.Displayed? ==> NotifyResponse(true, payload, outcome) == Message(OK, NOTIFY_DISPATCHED)
    ensures outcome.ShowFailed? ==> NotifyResponse(true, payload, outcome) == Message(INTERNAL_SERVER_ERROR, NOTIFY_FAILED)
  {
    TrimSpec(payload.title);
    TrimSpec(payload.content);
    TrimSpec(payload.agent);
  }

  /** Over-long content that the validator would refuse still goes out on this route. */
  lemma {:induction false} NotifyHasNoSoftLimit(payload: NotifyRequest)
    requires !Blank(payload.title) && !Blank(payload.agent)
    requires |Trim(payload.content)| > SOFT_CONTENT_LIMIT_CHARS
    ensures ValidateNotificationFields(payload.title, payload.content, payload.agent).Failure?
    ensures NotifyResponse(true, payload, Displayed) == Message(OK, NOTIFY_DISPATCHED)
  {
    ValidateSpec(payload.title, payload.content, payload.agent);
    TrimSpec(payload.title);
    TrimSpec(payload.content);
    TrimSpec(payload.agent);
  }

  /** An already-trimmed payload with no empty field is dispatched exactly as sent. */
  lemma {:induction false} NotifyTrimmedPayload(payload: NotifyRequest)
    requires payload.title != [] && payload.content != [] && payload.agent != []
    requires Trim(payload.title) == payload.title && Trim(payload.content) == payload.content
    requires Trim(payload.agent) == payload.agent
    ensures NotifyPlan(true, payload) == Dispatch((), NotificationFields(payload.title, payload.content, payload.agent))
  {
  }
}
