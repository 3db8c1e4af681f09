/**
 * Validating the three notification fields and dispatching a notification:
 * building the body shown by the desktop notifier, showing it, and asking for
 * the notification sound once it has been shown.
 */
module Notification {
  import opened Wrappers
  import opened Text

  /** Windows toast text blocks cap at 1024 characters; the body stays below that. */
  const MAX_NOTIFICATION_BODY_CHARS := 1000
  /** Soft cap on the content itself, leaving room for the agent prefix. */
  const SOFT_CONTENT_LIMIT_CHARS := 950

  /** The three fields of a notification, as the validator hands them on. */
  datatype NotificationFields = NotificationFields(title: string, content: string, agent: string)

  const FIELDS_REQUIRED := "'title', 'content', and 'agent' are required"

  /** Why validation refused the fields; `ErrorMessage` is the text the validator returns. */
  datatype FieldError = FieldsRequired | ContentTooLong(length: nat)

  function ErrorMessage(e: FieldError): string {
    match e
    case FieldsRequired => FIELDS_REQUIRED
    case ContentTooLong(length) =>
      "'content' is too long (" + Decimal(length) + " chars); keep it under " + Decimal(SOFT_CONTENT_LIMIT_CHARS)
  }

  /** What validation guarantees of the fields it returns. */
  ghost predicate WellFormed(f: NotificationFields) {
    && f.title != [] && Trim(f.title) == f.title
    && f.content != [] && Trim(f.content) == f.content
    && f.agent != [] && Trim(f.agent) == f.agent
    && |f.content| <= SOFT_CONTENT_LIMIT_CHARS
  }

  /**
   * `validate_notification_fields`: trims the fields, rejects a blank one, then
   * rejects content longer than the soft limit (counted in characters), and
   * otherwise returns the trimmed fields.
   */
  function ValidateNotificationFields(title: string, content: string, agent: string): Result<NotificationFields, FieldError> {
    var title, content, agent := Trim(title), Trim(content), Trim(agent);
    if title == [] || content == [] || agent == [] then
      Failure(FieldsRequired)
    else if |content| > SOFT_CONTENT_LIMIT_CHARS then
      Failure(ContentTooLong(|content|))
    else
      Success(NotificationFields(title, content, agent))
  }

  /**
   * The validator accepts exactly when no field is blank and the trimmed
   * content is within the soft limit; it then returns the trimmed fields, and
   * otherwise reports a blank field in preference to over-long content.
   */
  lemma {:induction false} ValidateSpec(title: string, content: string, agent: string)
    ensures var r := ValidateNotificationFields(title, content, agent);
      && (r.Success? <==>
          !Blank(title) && !Blank(content) && !Blank(agent) && |Trim(content)| <= SOFT_CONTENT_LIMIT_CHARS)
      && (r.Success? ==> r.value == NotificationFields(Trim(title), Trim(content), Trim(agent)))
      && (r.Failure? ==>
          r.error == if Blank(title) || Blank(content) || Blank(agent) then FieldsRequired
                     else ContentTooLong(|Trim(content)|))
  {
    TrimSpec(title);
    TrimSpec(content);
    TrimSpec(agent);
  }

  /** Content of exactly the soft limit passes; one character more fails, with the length message. */
  lemma {:induction false} SoftLimitBoundary(title: string, content: string, agent: string)
    requires !Blank(title) && !Blank(agent)
    ensures |Trim(content)| == SOFT_CONTENT_LIMIT_CHARS ==>
      ValidateNotificationFields(title, content, agent).Success?
    ensures |Trim(content)| == SOFT_CONTENT_LIMIT_CHARS + 1 ==>
      ValidateNotificationFields(title, content, agent) == Failure(ContentTooLong(SOFT_CONTENT_LIMIT_CHARS + 1))
  {
    ValidateSpec(title, content, agent);
    TrimSpec(content);
  }

  /** A blank field and over-long content are reported with different messages. */
  lemma {:induction false} ValidationMessagesDiffer(len: nat)
    ensures ErrorMessage(FieldsRequired) != ErrorMessage(ContentTooLong(len))
  {
    assert ErrorMessage(FieldsRequired)[1] == 't';
    assert ErrorMessage(ContentTooLong(len))[1] == 'c';
  }

  /**
   * Validated fields are non-empty, already trimmed and within the soft limit,
   * so validating them again returns them unchanged.
   */
  lemma {:induction false} ValidatedFieldsAreStable(title: string, content: string, agent: string)
    requires ValidateNotificationFields(title, content, agent).Success?
    ensures var f := ValidateNotificationFields(title, content, agent).value;
      WellFormed(f) && ValidateNotificationFields(f.title, f.content, f.agent) == Success(f)
  {
    ValidateSpec(title, content, agent);
    TrimIdempotent(title);
    TrimIdempotent(content);
    TrimIdempotent(agent);
    var f := ValidateNotificationFields(title, content, agent).value;
    TrimSpec(f.title);
    TrimSpec(f.content);
    TrimSpec(f.agent);
  }

  /**
   * The notification body: `"{agent}: {content}"` cut to its first
   * MAX_NOTIFICATION_BODY_CHARS characters.
   */
  function DispatchBody(agent: string, content: string): string {
    Take(agent + ": " + content, MAX_NOTIFICATION_BODY_CHARS)
  }

  /**
   * The body is the first min(n, MAX_NOTIFICATION_BODY_CHARS) characters of
   * `"{agent}: {content}"`, where n is that string's length.
   */
  lemma {:induction false} DispatchBodySpec(agent: string, content: string)
    ensures var full, body := agent + ": " + content, DispatchBody(agent, content);
      && |body| == (if |full| <= MAX_NOTIFICATION_BODY_CHARS then |full| else MAX_NOTIFICATION_BODY_CHARS)
      && body == full[..|body|]
  {
  }

  /** A body that fits is the whole `"{agent}: {content}"`, agent first. */
  lemma {:induction false} DispatchBodyUntruncated(agent: string, content: string)
    requires |agent| + 2 + |content| <= MAX_NOTIFICATION_BODY_CHARS
    ensures DispatchBody(agent, content)[..|agent|] == agent
    ensures DispatchBody(agent, content)[|agent|..|agent| + 2] == ": "
    ensures DispatchBody(agent, content)[|agent| + 2..] == content
  {
    var full := agent + ": " + content;
    assert DispatchBody(agent, content) == full;
  }

  /** What the desktop notifier's `show` reports. */
  datatype ShowOutcome = Displayed | ShowFailed(reason: string)

  /** The visible side effects of the notifier and of the audio task. */
  datatype Effect = Shown(title: string, body: string) | SoundRequested

  /**
   * The desktop collaborator: the notification plugin and the sound player.
   * `effects` records, in order, each notification shown and each sound
   * playback spawned; `soundDisabled` is whether AGENT_NOTIFIER_DISABLE_SOUND
   * is set in the environment.
   */
  class Desktop {
    ghost var effects: seq<Effect>
    const soundDisabled: bool

    constructor (soundDisabled: bool)
      ensures effects == [] && this.soundDisabled == soundDisabled
    {
      this.soundDisabled := soundDisabled;
      effects := [];
    }

    /** The notifier's `show`; what it reports is the `outcome` given. */
    method Show(title: string, body: string, outcome: ShowOutcome) returns (r: Result<(), string>)
      modifies this
      ensures r.Success? <==> outcome.Displayed?
      ensures outcome.ShowFailed? ==> r == Failure(outcome.reason)
      ensures effects == old(effects) + if outcome.Displayed? then [Shown(title, body)] else []
    {
      if outcome.Displayed? {
        effects := effects + [Shown(title, body)];
        r := Success(());
      } else {
        r := Failure(outcome.reason);
      }
    }

    /** `play_notification_sound`: nothing when the opt-out is set, else a playback task. */
    method PlayNotificationSound()
      modifies this
      ensures effects == old(effects) + if soundDisabled then [] else [SoundRequested]
    {
      if !soundDisabled {
        effects := effects + [SoundRequested];
      }
    }
  }

  const DISPATCH_FAILED_PREFIX := "Failed to dispatch notification: "

  /** What `dispatch_notification` returns for a given notifier outcome. */
  function DispatchResult(outcome: ShowOutcome): (r: Result<(), string>)
    ensures r.Success? <==> outcome.Displayed?
    ensures outcome.ShowFailed? ==> r.error == DISPATCH_FAILED_PREFIX + outcome.reason
  {
    match outcome
    case Displayed => Success(())
    case ShowFailed(reason) => Failure(DISPATCH_FAILED_PREFIX + reason)
  }

  /** The effects one `dispatch_notification` call leaves, in order. */
  function DispatchEffects(f: NotificationFields, outcome: ShowOutcome, soundDisabled: bool): seq<Effect> {
    if outcome.Displayed? then
      [Shown(f.title, DispatchBody(f.agent, f.content))] + if soundDisabled then [] else [SoundRequested]
    else
      []
  }

  /**
   * A failed show leaves no effect at all, in particular no sound; a sound is
   * only ever requested right after the notification it belongs to was shown.
   */
  lemma {:induction false} SoundOnlyAfterShow(f: NotificationFields, outcome: ShowOutcome, soundDisabled: bool)
    ensures var es := DispatchEffects(f, outcome, soundDisabled);
      && (outcome.ShowFailed? ==> es == [])
      && (outcome.Displayed? ==> |es| >= 1 && es[0] == Shown(f.title, DispatchBody(f.agent, f.content)))
      && (forall i :: 0 <= i < |es| && es[i] == SoundRequested ==> i == 1 && es[0].Shown?)
      && (SoundRequested in es <==> outcome.Displayed? && !soundDisabled)
  {
  }

  /**
   * `dispatch_notification`: shows the title and the truncated body; on a
   * notifier failure returns the wrapped error at once, otherwise asks for the
   * sound and succeeds.
   */
  method DispatchNotification(desktop: Desktop, f: NotificationFields, outcome: ShowOutcome)
    returns (r: Result<(), string>)
    modifies desktop
    ensures r == DispatchResult(outcome)
    ensures desktop.effects == old(desktop.effects) + DispatchEffects(f, outcome, desktop.soundDisabled)
  {
    var body := DispatchBody(f.agent, f.content);
    var shown := desktop.Show(f.title, body, outcome);
    if shown.Failure? {
      return Failure(DISPATCH_FAILED_PREFIX + shown.error);
    }
    desktop.PlayNotificationSound();
    r := Success(());
  }
}
