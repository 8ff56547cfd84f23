/** The e-mail service: choosing the provider from the settings, the log
    row kept for each message and its status changes, where the subject and
    body of a template e-mail come from, and the links the authentication
    e-mails carry.

    The providers themselves, the template engine and the template table
    are collaborators passed in as functions. */
module EmailService {
  import opened Common

  // ---------------------------------------------------------------------------
  // Settings

  /** The settings the service reads; `None` is a setting that is absent. */
  datatype EmailSettings = EmailSettings(
    provider: Option<string>,      // EMAIL_PROVIDER
    defaultFrom: Option<string>,   // DEFAULT_FROM_EMAIL
    templateMode: Option<string>,  // USE_DB_EMAIL_TEMPLATES
    siteName: Option<string>,      // SITE_NAME
    frontendUrl: string)           // FRONTEND_URL

  function ProviderSetting(s: EmailSettings): string {
    if s.provider.Some? then s.provider.value else "smtp"
  }

  function DefaultFrom(s: EmailSettings): string {
    if s.defaultFrom.Some? then s.defaultFrom.value else "noreply@example.com"
  }

  function TemplateMode(s: EmailSettings): string {
    if s.templateMode.Some? then s.templateMode.value else "db"
  }

  /** SITE_NAME as the convenience senders read it. */
  function SenderSiteName(s: EmailSettings): string {
    if s.siteName.Some? then s.siteName.value else "Your App"
  }

  // ---------------------------------------------------------------------------
  // Providers

  datatype ProviderKind = SendGrid | Resend | Smtp

  /** `_get_provider`: the setting is compared lower-cased; an unknown name is
      a `ValueError` carrying the lower-cased name. */
  function ProviderFor(name: string): (r: Result<ProviderKind, string>)
    ensures r == Ok(SendGrid) <==> Lower(name) == "sendgrid"
    ensures r == Ok(Resend) <==> Lower(name) == "resend"
    ensures r == Ok(Smtp) <==> Lower(name) == "smtp"
    ensures r.Err? ==> r.error == "Unknown email provider: " + Lower(name)
  {
    var n := Lower(name);
    if n == "sendgrid" then Ok(SendGrid)
    else if n == "resend" then Ok(Resend)
    else if n == "smtp" then Ok(Smtp)
    else Err("Unknown email provider: " + n)
  }

  /** The provider setting is case-insensitive. */
  lemma ProviderForCaseInsensitive(name: string)
    ensures ProviderFor(Upper(name)) == ProviderFor(name)
  {
    assert Lower(Upper(name)) == Lower(name);
  }

  function ClassName(p: ProviderKind): string {
    match p
    case SendGrid => "SendGridProvider"
    case Resend => "ResendProvider"
    case Smtp => "SMTPProvider"
  }

  /** The `provider` column of a log row, one name per provider class. */
  function LogProviderName(p: ProviderKind): string {
    match p
    case SendGrid => "sendgrid"
    case Resend => "resend"
    case Smtp => "smtp"
  }

  /** The service writes the class name without "Provider", lower-cased:
      that is the name above for every provider. */
  lemma LogNameFromClassName(p: ProviderKind)
    ensures LogProviderName(p) == Lower(ReplaceAll(ClassName(p), "Provider", ""))
  {
    match p
    case SendGrid => SendGridClassBase(); LowerSendGrid();
    case Resend => ResendClassBase(); LowerResend();
    case Smtp => SmtpClassBase(); LowerSmtp();
  }

  /** The name written to the log is the setting that chose the provider,
      lower-cased. */
  lemma LogNameMatchesSetting(name: string)
    requires ProviderFor(name).Ok?
    ensures LogProviderName(ProviderFor(name).value) == Lower(name)
  {
  }

  lemma LowerSendGrid() ensures Lower("SendGrid") == "sendgrid" {}
  lemma LowerResend() ensures Lower("Resend") == "resend" {}
  lemma LowerSmtp() ensures Lower("SMTP") == "smtp" {}

  lemma SendGridClassBase()
    ensures ReplaceAll(ClassName(SendGrid), "Provider", "") == "SendGrid"
  {
    ReplaceTrailing("SendGrid", "Provider");
    assert "SendGrid" + "Provider" == ClassName(SendGrid);
  }

  lemma ResendClassBase()
    ensures ReplaceAll(ClassName(Resend), "Provider", "") == "Resend"
  {
    ReplaceTrailing("Resend", "Provider");
    assert "Resend" + "Provider" == ClassName(Resend);
  }

  /** "SMTP" ends in 'P', the pattern's first letter, so the pattern is
      skipped over one character at a time. */
  lemma SmtpClassBase()
    ensures ReplaceAll(ClassName(Smtp), "Provider", "") == "SMTP"
  {
    var tail := "P" + "Provider";
    assert tail[..8][1] != "Provider"[1];
    assert tail[1..] == "Provider" && "Provider"[8..] == [];
    assert ReplaceAll(tail, "Provider", "") == "P";
    ReplaceLeading("SMT", tail, "Provider", "");
    assert "SMT" + tail == ClassName(Smtp);
  }

  // ---------------------------------------------------------------------------
  // Sending and the log

  datatype Status = Pending | Sent | Failed | Bounced

  /** The columns of an `EmailLog` row the service writes. */
  datatype EmailLog = EmailLog(
    to: string, from: string, subject: string, provider: string,
    status: Status, messageId: string, error: string, sentAt: Option<int>)

  /** A message as handed to a provider. */
  datatype Outgoing = Outgoing(to: string, subject: string, html: string,
                               fromEmail: Option<string>, fromName: Option<string>)

  /** A provider's answer: `{success, message_id}` or `{success, error}`. */
  datatype SendResult = SendResult(success: bool, messageId: Option<string>, error: Option<string>)

  /** The provider's `send_email`. */
  type Transport = (ProviderKind, Outgoing) -> SendResult

  /** The row created before sending. */
  function PendingLog(s: EmailSettings, p: ProviderKind, m: Outgoing): EmailLog {
    var from := if Truthy(m.fromEmail) then m.fromEmail.value else DefaultFrom(s);
    EmailLog(m.to, from, m.subject, LogProviderName(p), Pending, "", "", None)
  }

  /** The row after the provider answered. */
  function Settle(row: EmailLog, result: SendResult, now: int): EmailLog {
    if result.success then
      row.(status := Sent, messageId := if result.messageId.Some? then result.messageId.value else "", sentAt := Some(now))
    else
      row.(status := Failed, error := if result.error.Some? then result.error.value else "")
  }

  /** `send_email` on the log table: the provider is chosen first (an unknown
      one fails before anything is written), then a row is logged when asked,
      and the provider's answer is handed back as it is. */
  function Send(logs: seq<EmailLog>, s: EmailSettings, m: Outgoing, logEmail: bool,
                     transport: Transport, now: int): (seq<EmailLog>, Result<SendResult, string>)
  {
    match ProviderFor(ProviderSetting(s))
    case Err(e) => (logs, Err(e))
    case Ok(p) =>
      var result := transport(p, m);
      if logEmail then (logs + [Settle(PendingLog(s, p, m), result, now)], Ok(result))
      else (logs, Ok(result))
  }

  /** `Send` once the provider is known. */
  lemma SendKnown(logs: seq<EmailLog>, s: EmailSettings, m: Outgoing, logEmail: bool,
                  transport: Transport, now: int, p: ProviderKind)
    requires ProviderFor(ProviderSetting(s)) == Ok(p)
    ensures Send(logs, s, m, logEmail, transport, now)
         == (if logEmail then logs + [Settle(PendingLog(s, p, m), transport(p, m), now)] else logs,
             Ok(transport(p, m)))
  {
  }

  /** A send writes exactly one row when logging is on and the provider is
      known, and none otherwise. The row ends `sent`, with the message id and
      the time, when the provider succeeded, and `failed`, with the error,
      when it did not; it never stays `pending`. Earlier rows are untouched
      and the provider's answer is returned unchanged. */
  lemma SendEmailLogLifecycle(logs: seq<EmailLog>, s: EmailSettings, m: Outgoing, logEmail: bool,
                              transport: Transport, now: int)
    ensures var (logs', r) := Send(logs, s, m, logEmail, transport, now);
      && (r.Err? <==> ProviderFor(ProviderSetting(s)).Err?)
      && (r.Ok? ==> r.value == transport(ProviderFor(ProviderSetting(s)).value, m))
      && logs'[..|logs|] == logs
      && (|logs'| == |logs| + 1 <==> logEmail && r.Ok?)
      && (|logs'| != |logs| + 1 ==> logs' == logs)
      && (|logs'| == |logs| + 1 ==>
            var row := logs'[|logs|];
            && row.to == m.to && row.subject == m.subject
            && row.provider == Lower(ProviderSetting(s))
            && row.from == (if Truthy(m.fromEmail) then m.fromEmail.value else DefaultFrom(s))
            && row.status != Pending
            && (row.status == Sent <==> r.value.success)
            && (row.status == Sent ==> row.sentAt == Some(now))
            && (row.status == Failed ==> row.sentAt == None))
  {
    var (logs', r) := Send(logs, s, m, logEmail, transport, now);
    assert logs'[..|logs|] == logs;
    if r.Ok? {
      LogNameMatchesSetting(ProviderSetting(s));
    }
  }

  // ---------------------------------------------------------------------------
  // Template e-mails

  datatype CtxValue = CtxText(text: string) | CtxUser(id: nat)

  /** A template context. */
  type Context = map<string, CtxValue>

  /** An active row of the template table. */
  datatype DbTemplate = DbTemplate(subject: string, html: string)

  /** The template collaborators: the table lookup of active templates by
      name, the engine rendering a template string, and the loader rendering
      a template file. */
  datatype Templates = Templates(
    lookup: string -> Option<DbTemplate>,
    renderString: (string, Context) -> string,
    renderFile: (string, Context) -> string)

  /** Subject and body of a template e-mail. */
  datatype Composed = Composed(subject: string, html: string)

  const SubjectRequired := "Subject is required when using static templates"

  function DbOnlyMissing(name: string): string {
    "Database template '" + name + "' not found and USE_DB_EMAIL_TEMPLATES is set to 'db_only'"
  }

  /** The source selection of `send_template_email`. */
  function Compose(mode: string, t: Templates, name: string, context: Context, subject: Option<string>): (r: Result<Composed, string>)
    // a template from the table wins, and then the subject argument plays no part
    ensures (mode == "db" || mode == "db_only") && t.lookup(name).Some? ==>
      r == Ok(Composed(t.renderString(t.lookup(name).value.subject, context),
                       t.renderString(t.lookup(name).value.html, context)))
    ensures mode == "db_only" && t.lookup(name).None? ==> r == Err(DbOnlyMissing(name))
    // the static path: "static", "db" without a row, or any other value
    ensures mode != "db_only" && !((mode == "db") && t.lookup(name).Some?) ==>
      r == (if Truthy(subject) then Ok(Composed(subject.value, t.renderFile(name, context))) else Err(SubjectRequired))
  {
    var found := if mode == "db" || mode == "db_only" then t.lookup(name) else None;
    if found.Some? then
      Ok(Composed(t.renderString(found.value.subject, context), t.renderString(found.value.html, context)))
    else if mode == "db_only" then Err(DbOnlyMissing(name))
    else if !Truthy(subject) then Err(SubjectRequired)
    else Ok(Composed(subject.value, t.renderFile(name, context)))
  }

  /** Outside the two database modes the template table is never consulted. */
  lemma StaticModeIgnoresTable(mode: string, t1: Templates, t2: Templates, name: string, context: Context, subject: Option<string>)
    requires mode != "db" && mode != "db_only"
    requires t1.renderFile == t2.renderFile
    ensures Compose(mode, t1, name, context, subject) == Compose(mode, t2, name, context, subject)
  {
  }

  /** In the database modes the subject argument matters only when the table
      has no row for the name. */
  lemma DbTemplateIgnoresSubject(mode: string, t: Templates, name: string, context: Context, s1: Option<string>, s2: Option<string>)
    requires mode == "db" || mode == "db_only"
    requires t.lookup(name).Some?
    ensures Compose(mode, t, name, context, s1) == Compose(mode, t, name, context, s2)
  {
  }

  // ---------------------------------------------------------------------------
  // Links in the authentication e-mails

  const VerifyPath := "/verify-email?token="
  const ResetPath := "/reset-password?token="

  function VerificationUrl(frontend: string, token: string): (url: string)
    ensures |url| == |frontend| + |VerifyPath| + |token|
    ensures url[..|frontend|] == frontend
    ensures url[|frontend|..|frontend| + |VerifyPath|] == VerifyPath
    ensures url[|frontend| + |VerifyPath|..] == token
  {
    frontend + VerifyPath + token
  }

  function ResetUrl(frontend: string, token: string): (url: string)
    ensures |url| == |frontend| + |ResetPath| + |token|
    ensures url[..|frontend|] == frontend
    ensures url[|frontend|..|frontend| + |ResetPath|] == ResetPath
    ensures url[|frontend| + |ResetPath|..] == token
  {
    frontend + ResetPath + token
  }

  function LoginUrl(frontend: string): (url: string)
    ensures |url| == |frontend| + 6
    ensures url[..|frontend|] == frontend && url[|frontend|..] == "/login"
  {
    frontend + "/login"
  }

  /** Different tokens give different links, and a verification link is
      never a reset link for the same front end. */
  lemma LinksDistinguishTokens(frontend: string, t1: string, t2: string)
    ensures VerificationUrl(frontend, t1) == VerificationUrl(frontend, t2) <==> t1 == t2
    ensures ResetUrl(frontend, t1) == ResetUrl(frontend, t2) <==> t1 == t2
    ensures VerificationUrl(frontend, t1) != ResetUrl(frontend, t2)
  {
    assert VerificationUrl(frontend, t1)[|frontend| + 1] == 'v';
    assert ResetUrl(frontend, t2)[|frontend| + 1] == 'r';
  }

  /** The three authentication e-mails: template, subject and the context
      each convenience sender passes. */
  datatype AuthMail = Verification(token: string) | PasswordReset(token: string) | Welcome

  function MailTemplate(k: AuthMail): string {
    match k
    case Verification(_) => "emails/verify_email.html"
    case PasswordReset(_) => "emails/password_reset.html"
    case Welcome => "emails/welcome.html"
  }

  function MailSubject(k: AuthMail): string {
    match k
    case Verification(_) => "Verify your email address"
    case PasswordReset(_) => "Reset your password"
    case Welcome => "Welcome to our platform!"
  }

  function MailContext(s: EmailSettings, user: nat, k: AuthMail): (c: Context)
    ensures "user" in c && c["user"] == CtxUser(user)
    ensures "site_name" in c && c["site_name"] == CtxText(SenderSiteName(s))
    ensures k.Verification? ==> c == map["user" := CtxUser(user), "verification_url" := CtxText(VerificationUrl(s.frontendUrl, k.token)),
                                         "site_name" := CtxText(SenderSiteName(s))]
    ensures k.PasswordReset? ==> c == map["user" := CtxUser(user), "reset_url" := CtxText(ResetUrl(s.frontendUrl, k.token)),
                                          "site_name" := CtxText(SenderSiteName(s))]
    ensures k.Welcome? ==> c == map["user" := CtxUser(user), "site_name" := CtxText(SenderSiteName(s)),
                                    "login_url" := CtxText(LoginUrl(s.frontendUrl))]
  {
    match k
    case Verification(token) =>
      map["user" := CtxUser(user), "verification_url" := CtxText(VerificationUrl(s.frontendUrl, token)),
          "site_name" := CtxText(SenderSiteName(s))]
    case PasswordReset(token) =>
      map["user" := CtxUser(user), "reset_url" := CtxText(ResetUrl(s.frontendUrl, token)),
          "site_name" := CtxText(SenderSiteName(s))]
    case Welcome =>
      map["user" := CtxUser(user), "site_name" := CtxText(SenderSiteName(s)),
          "login_url" := CtxText(LoginUrl(s.frontendUrl))]
  }

  /** The convenience senders always pass a subject, so they never hit the
      missing-subject error; only "db_only" without a table row fails. */
  lemma ConvenienceSendersCompose(s: EmailSettings, t: Templates, user: nat, k: AuthMail)
    ensures var r := Compose(TemplateMode(s), t, MailTemplate(k), MailContext(s, user, k), Some(MailSubject(k)));
      r.Err? <==> TemplateMode(s) == "db_only" && t.lookup(MailTemplate(k)).None?
  {
  }

  // ---------------------------------------------------------------------------
  // The service, with the log table updated in place

  class Mailer {
    /** The `EmailLog` table. */
    var logs: seq<EmailLog>

    constructor ()
      ensures logs == []
    {
      logs := [];
    }

    /** `send_email`: create the pending row, send, fill in the row's
        object field by field, then save it. */
    method SendEmail(s: EmailSettings, m: Outgoing, logEmail: bool, transport: Transport, now: int)
      returns (r: Result<SendResult, string>)
      modifies this
      ensures (logs, r) == Send(old(logs), s, m, logEmail, transport, now)
    {
      var chosen := ProviderFor(ProviderSetting(s));
      if chosen.Err? {
        return Err(chosen.error);
      }
      var p := chosen.value;
      var row := -1;
      var entry := PendingLog(s, p, m);
      if logEmail {
        row := |logs|;
        logs := logs + [entry];
      }
      var result := transport(p, m);
      if logEmail {
        if result.success {
          entry := entry.(status := Sent);
          entry := entry.(messageId := if result.messageId.Some? then result.messageId.value else "");
          entry := entry.(sentAt := Some(now));
        } else {
          entry := entry.(status := Failed);
          entry := entry.(error := if result.error.Some? then result.error.value else "");
        }
        // `save()`: the row takes the object's fields.
        logs := logs[row := entry];
        assert entry == Settle(PendingLog(s, p, m), result, now);
        assert logs == old(logs) + [entry];
      }
      SendKnown(old(logs), s, m, logEmail, transport, now, p);
      return Ok(result);
    }

    /** `send_template_email`: compose, then send. */
    method SendTemplateEmail(s: EmailSettings, t: Templates, to: string, name: string, context: Context,
                             subject: Option<string>, logEmail: bool, transport: Transport, now: int)
      returns (r: Result<SendResult, string>)
      modifies this
      ensures var c := Compose(TemplateMode(s), t, name, context, subject);
        && (c.Err? ==> r == Err(c.error) && logs == old(logs))
        && (c.Ok? ==> (logs, r) == Send(old(logs), s, Outgoing(to, c.value.subject, c.value.html, None, None),
                                                           logEmail, transport, now))
    {
      var c := Compose(TemplateMode(s), t, name, context, subject);
      if c.Err? {
        return Err(c.error);
      }
      r := SendEmail(s, Outgoing(to, c.value.subject, c.value.html, None, None), logEmail, transport, now);
    }

    /** `send_verification_email`, `send_password_reset_email` and
        `send_welcome_email` for a user with id `user` and address `to`. */
    method SendAuthMail(s: EmailSettings, t: Templates, user: nat, to: string, k: AuthMail, transport: Transport, now: int)
      returns (r: Result<SendResult, string>)
      modifies this
      ensures var c := Compose(TemplateMode(s), t, MailTemplate(k), MailContext(s, user, k), Some(MailSubject(k)));
        && (c.Err? ==> r == Err(c.error) && logs == old(logs))
        && (c.Ok? ==> (logs, r) == Send(old(logs), s, Outgoing(to, c.value.subject, c.value.html, None, None),
                                                           true, transport, now))
    {
      r := SendTemplateEmail(s, t, to, MailTemplate(k), MailContext(s, user, k), Some(MailSubject(k)), true, transport, now);
    }
  }
}
