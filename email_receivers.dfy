/** The receiver of the generic e-mail signal: the checks that decide
    whether a signal sends anything, the template context it builds, and the
    handler that hands the mail to the e-mail service and records how it
    went. */
module EmailReceivers {
  import opened Common
  import opened EmailSignals
  import opened EmailService

  /** The keyword arguments a sender passes with the signal. `context` is
      the dictionary of extra template values; an absent one is empty. */
  datatype Signal = Signal(
    action: Option<string>, recipient: Option<string>, user: Option<nat>,
    context: Context, templateName: Option<string>, subject: Option<string>)

  /** The settings the receiver reads, with `None` for a setting that is not
      defined. */
  datatype ReceiverSettings = ReceiverSettings(emailEnabled: Option<bool>, siteName: Option<string>,
                                               frontendUrl: Option<string>)

  /** Why a signal was dropped before anything was sent. */
  datatype Skip = GloballyDisabled | NoAction | NoRecipient | ActionDisabled | NoTemplate

  /** What the receiver decided: drop the signal, or send this template
      e-mail. */
  datatype Plan =
    | Dropped(why: Skip)
    | Deliver(to: string, templateName: string, context: Context, subject: Option<string>)

  const DefaultSiteName := "Django App"
  const DefaultFrontendUrl := "http://localhost:3000"

  /** `EMAIL_ENABLED`, on unless set. */
  predicate EmailEnabled(rs: ReceiverSettings) {
    rs.emailEnabled != Some(false)
  }

  /** Python's `a or b` on optional strings. */
  function Or(a: Option<string>, b: Option<string>): (r: Option<string>)
    ensures Truthy(a) ==> r == a
    ensures !Truthy(a) ==> r == b
  {
    if Truthy(a) then a else b
  }

  /** The template context: the site name and front-end address (from the
      settings or their defaults), the user when one was given, and then the
      sender's own values, which win over all of these. */
  function BuildContext(rs: ReceiverSettings, user: Option<nat>, extra: Context): (c: Context)
    ensures c.Keys == {"site_name", "frontend_url"} + (if user.Some? then {"user"} else {}) + extra.Keys
    ensures forall k :: k in extra ==> c[k] == extra[k]
    ensures "site_name" !in extra ==>
      c["site_name"] == CtxText(if rs.siteName.Some? then rs.siteName.value else DefaultSiteName)
    ensures "frontend_url" !in extra ==>
      c["frontend_url"] == CtxText(if rs.frontendUrl.Some? then rs.frontendUrl.value else DefaultFrontendUrl)
    ensures user.Some? && "user" !in extra ==> c["user"] == CtxUser(user.value)
  {
    var base := map[
      "site_name" := CtxText(if rs.siteName.Some? then rs.siteName.value else DefaultSiteName),
      "frontend_url" := CtxText(if rs.frontendUrl.Some? then rs.frontendUrl.value else DefaultFrontendUrl)];
    var withUser := if user.Some? then base["user" := CtxUser(user.value)] else base;
    withUser + extra
  }

  /** The checks of `handle_send_email`, in their order, up to the call of
      the e-mail service. */
  function Decide(rs: ReceiverSettings, sig: Signal): (p: Plan)
    ensures !EmailEnabled(rs) ==> p == Dropped(GloballyDisabled)
    ensures EmailEnabled(rs) && !Truthy(sig.action) ==> p == Dropped(NoAction)
    ensures EmailEnabled(rs) && Truthy(sig.action) && !Truthy(sig.recipient) ==> p == Dropped(NoRecipient)
    ensures p.Deliver? <==>
      && EmailEnabled(rs) && Truthy(sig.action) && Truthy(sig.recipient)
      && ConfigForAction(sig.action.value).enabled
      && Truthy(Or(sig.templateName, ConfigForAction(sig.action.value).templateName))
    ensures p.Deliver? ==>
      var config := ConfigForAction(sig.action.value);
      && p.to == sig.recipient.value
      && p.templateName == Or(sig.templateName, config.templateName).value
      && p.subject == Or(sig.subject, config.subject)
      && p.context == BuildContext(rs, sig.user, sig.context)
  {
    if !EmailEnabled(rs) then Dropped(GloballyDisabled)
    else if !Truthy(sig.action) then Dropped(NoAction)
    else if !Truthy(sig.recipient) then Dropped(NoRecipient)
    else
      var config := ConfigForAction(sig.action.value);
      if !config.enabled then Dropped(ActionDisabled)
      else
        var template := Or(sig.templateName, config.templateName);
        var subject := Or(sig.subject, config.subject);
        if !Truthy(template) then Dropped(NoTemplate)
        else Deliver(sig.recipient.value, template.value, BuildContext(rs, sig.user, sig.context), subject)
  }

  /** A signal for one of the four standard actions, with a recipient and no
      overrides, sends that action's template with that action's subject. */
  lemma StandardActionsDeliver(rs: ReceiverSettings, sig: Signal)
    requires EmailEnabled(rs) && Truthy(sig.recipient)
    requires sig.action.Some? && sig.action.value in {UserRegisteredAction, PasswordResetAction, EmailVerifiedAction, PasswordChangedAction}
    requires sig.templateName.None? && sig.subject.None?
    ensures var p := Decide(rs, sig);
      && p.Deliver?
      && Some(p.templateName) == Configs[sig.action.value].templateName
      && p.subject == Configs[sig.action.value].subject
  {
    var a := sig.action.value;
    assert a != "";
    assert Truthy(Configs[a].templateName);
  }

  /** A "custom" signal sends exactly when the sender names a template, and
      then sends that template with the sender's subject. */
  lemma CustomNeedsTemplate(rs: ReceiverSettings, sig: Signal)
    requires EmailEnabled(rs) && Truthy(sig.recipient)
    requires sig.action == Some(CustomAction)
    ensures Decide(rs, sig).Deliver? <==> Truthy(sig.templateName)
    ensures Decide(rs, sig).Deliver? ==>
      Decide(rs, sig).templateName == sig.templateName.value && Decide(rs, sig).subject == Or(sig.subject, None)
    ensures !Truthy(sig.templateName) ==> Decide(rs, sig) == Dropped(NoTemplate)
  {
    assert CustomAction != "";
  }

  /** An action outside the table is dropped whatever the sender overrides. */
  lemma UnknownActionsDropped(rs: ReceiverSettings, sig: Signal)
    requires EmailEnabled(rs) && Truthy(sig.action) && Truthy(sig.recipient)
    requires sig.action.value !in Configs
    ensures Decide(rs, sig) == Dropped(ActionDisabled)
  {
  }

  /** The signal's configuration for the three authentication mails names
      the same template and subject the service's convenience senders use. */
  lemma SignalMatchesConvenienceSenders(token: string)
    ensures ConfigForAction(UserRegisteredAction).templateName == Some(MailTemplate(Verification(token)))
    ensures ConfigForAction(UserRegisteredAction).subject == Some(MailSubject(Verification(token)))
    ensures ConfigForAction(PasswordResetAction).templateName == Some(MailTemplate(PasswordReset(token)))
    ensures ConfigForAction(PasswordResetAction).subject == Some(MailSubject(PasswordReset(token)))
    ensures ConfigForAction(EmailVerifiedAction).templateName == Some(MailTemplate(Welcome))
    ensures ConfigForAction(EmailVerifiedAction).subject == Some(MailSubject(Welcome))
  {
  }

  // ---------------------------------------------------------------------------
  // The handler

  /** What the handler records: a drop, a send the provider accepted, a send
      the provider refused with its error, or an exception raised by the
      service (an unknown provider, a missing template or subject). */
  datatype Handled =
    | Skipped(why: Skip)
    | Delivered(to: string)
    | Refused(to: string, reason: Option<string>)
    | Raised(to: string, error: string)

  /** How a plan ends once the service answered `r`. */
  function Recorded(p: Plan, r: Result<SendResult, string>): (h: Handled)
    requires p.Deliver?
    ensures h.Delivered? <==> r.Ok? && r.value.success
    ensures h.Raised? <==> r.Err?
    ensures !h.Skipped? && h.to == p.to
  {
    match r
    case Err(e) => Raised(p.to, e)
    case Ok(res) => if res.success then Delivered(p.to) else Refused(p.to, res.error)
  }

  class Receiver {
    /** The e-mail service the handler sends through. */
    const mailer: Mailer
    /** What the handler has logged, one entry per signal. */
    var log: seq<Handled>

    constructor (mailer: Mailer)
      ensures this.mailer == mailer && log == []
    {
      this.mailer := mailer;
      log := [];
    }

    /** `handle_send_email`: drop the signal or send its template e-mail,
        and log the outcome. */
    method HandleSendEmail(rs: ReceiverSettings, sig: Signal, s: EmailSettings, t: Templates,
                           transport: Transport, now: int)
      modifies this, mailer
      ensures var p := Decide(rs, sig);
        && (p.Dropped? ==> log == old(log) + [Skipped(p.why)] && mailer.logs == old(mailer.logs))
        && (p.Deliver? ==>
              var c := Compose(TemplateMode(s), t, p.templateName, p.context, p.subject);
              && (c.Err? ==> log == old(log) + [Raised(p.to, c.error)] && mailer.logs == old(mailer.logs))
              && (c.Ok? ==>
                    var (logs', r) := Send(old(mailer.logs), s, Outgoing(p.to, c.value.subject, c.value.html, None, None),
                                           true, transport, now);
                    mailer.logs == logs' && log == old(log) + [Recorded(p, r)]))
    {
      var p := Decide(rs, sig);
      if p.Dropped? {
        log := log + [Skipped(p.why)];
        return;
      }
      var r := mailer.SendTemplateEmail(s, t, p.to, p.templateName, p.context, p.subject, true, transport, now);
      log := log + [Recorded(p, r)];
    }
  }
}
