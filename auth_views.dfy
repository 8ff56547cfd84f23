/** The authentication endpoints: how each view turns the serializer's
    verdict and the service's answer into a response, and which e-mails it
    has sent on the way.

    Each view is given as a function on a snapshot of the tables (what the
    lemmas speak about) and as a method of `AuthViews`, which calls the
    methods of the `AuthStore` in the order the view does and records the
    e-mails it sends.

    An e-mail is handed to the e-mail service without a `try`: when the
    service raises, the view ends in a server error, after the tables have
    already been changed. */
module AuthViews {
  import opened Common
  import opened AuthService
  import opened Serializers
  import EmailService

  /** An e-mail handed to the e-mail service: to which user, carrying which token. */
  datatype Mail = VerificationMail(user: nat, token: string) | ResetMail(user: nat, token: string)

  datatype Body =
    | Message(text: string)               // {'message': text}
    | Failure(text: string)               // {'error': text}
    | FieldErrors(errors: Errors)         // serializer.errors
    | Registered(text: string, user: nat) // {'message': text, 'user': <the user>}
    | ServerError                         // an exception the view does not catch

  datatype Response = Response(status: int, body: Body)

  datatype ViewResult = ViewResult(db: Db, mails: seq<Mail>, response: Response)

  /** The e-mail settings and the template collaborators the service sends under. */
  datatype MailConfig = MailConfig(settings: EmailService.EmailSettings, templates: EmailService.Templates)

  /** The convenience sender a view calls for `m`. */
  function AuthMailOf(m: Mail): EmailService.AuthMail {
    match m
    case VerificationMail(_, token) => EmailService.Verification(token)
    case ResetMail(_, token) => EmailService.PasswordReset(token)
  }

  /** Whether `send_verification_email` / `send_password_reset_email`
      returns for `m` rather than raising: the template must compose, then
      the provider setting must name a known provider. A provider that
      answers with a failure does not raise; the e-mail service logs it. */
  predicate Delivers(c: MailConfig, m: Mail) {
    var k := AuthMailOf(m);
    && EmailService.Compose(EmailService.TemplateMode(c.settings), c.templates, EmailService.MailTemplate(k),
                            EmailService.MailContext(c.settings, m.user, k), Some(EmailService.MailSubject(k))).Ok?
    && EmailService.ProviderFor(EmailService.ProviderSetting(c.settings)).Ok?
  }

  /** Only the configuration decides whether a view's e-mail raises: an
      unknown provider, or "db_only" with no table row for the template. The
      user and the token play no part. */
  lemma DeliversIff(c: MailConfig, m: Mail)
    ensures Delivers(c, m) <==>
      && EmailService.ProviderFor(EmailService.ProviderSetting(c.settings)).Ok?
      && !(EmailService.TemplateMode(c.settings) == "db_only" && c.templates.lookup(EmailService.MailTemplate(AuthMailOf(m))).None?)
  {
    EmailService.ConvenienceSendersCompose(c.settings, c.templates, m.user, AuthMailOf(m));
  }

  /** The e-mail `m` handed to the service after the tables became `db`:
      on success it is recorded and the view answers `ok`; when the service
      raises, nothing is recorded and the answer is a server error. */
  function SendThen(db: Db, c: MailConfig, m: Mail, ok: Response): (r: ViewResult)
    ensures r.db == db
    ensures Delivers(c, m) ==> r.mails == [m] && r.response == ok
    ensures !Delivers(c, m) ==> r.mails == [] && r.response == Response(500, ServerError)
  {
    if Delivers(c, m) then ViewResult(db, [m], ok) else ViewResult(db, [], Response(500, ServerError))
  }

  const RegistrationMessage := "Registration successful. Please check your email to verify your account."
  const ResetRequested := "If the email exists, a password reset link has been sent."
  const AlreadyVerified := "Email is already verified"
  const VerificationSent := "Verification email sent"
  const LogoutSuccessful := "Logout successful"

  /** The shared answer of the change-password, reset-password and
      verify-email views to the service's `(success, message)`. */
  function FromService(ok: bool, message: string): (r: Response)
    ensures r.status == 200 <==> ok
    ensures ok ==> r == Response(200, Message(message))
    ensures !ok ==> r == Response(400, Failure(message))
  {
    if ok then Response(200, Message(message)) else Response(400, Failure(message))
  }

  /** `serializer.errors` with status 400, nothing changed, nothing sent. */
  function Rejected(db: Db, errors: Errors): ViewResult {
    ViewResult(db, [], Response(400, FieldErrors(errors)))
  }

  // ---------------------------------------------------------------------------
  // The views, as transitions

  /** `RegisterView.post` */
  function RegisterView(db: Db, fieldErrors: Errors, attrs: Attrs, autoVerify: bool, value: string, now: int,
                        mail: MailConfig): ViewResult
    requires Present(fieldErrors, attrs, {"email", "password", "password_confirm"})
  {
    match RegisterIsValid(fieldErrors, attrs)
    case Err(errors) => Rejected(db, errors)
    case Ok(v) =>
      var o := Register(db, v["email"].text, v["password"].text, TextOr(v, "first_name", ""),
                        TextOr(v, "last_name", ""), autoVerify, value, now);
      match o.result
      case Err(_) => ViewResult(o.db, [], Response(500, ServerError))
      case Ok((uid, t)) => SendThen(o.db, mail, VerificationMail(uid, t.value), Response(201, Registered(RegistrationMessage, uid)))
  }

  /** `ForgotPasswordView.post` */
  function ForgotPasswordView(db: Db, fieldErrors: Errors, attrs: Attrs, value: string, now: int,
                              mail: MailConfig): ViewResult
    requires Present(fieldErrors, attrs, {"email"})
  {
    if fieldErrors != map[] then Rejected(db, fieldErrors)
    else
      var o := CreateReset(db, attrs["email"].text, value, now);
      if o.result.Some? then SendThen(o.db, mail, ResetMail(o.result.value.owner, o.result.value.value), Response(200, Message(ResetRequested)))
      else ViewResult(o.db, [], Response(200, Message(ResetRequested)))
  }

  /** `ResetPasswordView.post` */
  function ResetPasswordView(db: Db, fieldErrors: Errors, attrs: Attrs, valid: Validity, now: int): ViewResult
    requires Valid(db)
    requires Present(fieldErrors, attrs, {"token", "new_password", "new_password_confirm"})
  {
    match ResetPasswordIsValid(fieldErrors, attrs)
    case Err(errors) => Rejected(db, errors)
    case Ok(v) =>
      var o := ResetPassword(db, v["token"].text, v["new_password"].text, valid, now);
      ViewResult(o.db, [], FromService(o.result.0, o.result.1))
  }

  /** `VerifyEmailView.post`; its serializer has only the per-field check of
      the token. */
  function VerifyEmailView(db: Db, fieldErrors: Errors, attrs: Attrs, valid: Validity, now: int): ViewResult
    requires Valid(db)
    requires Present(fieldErrors, attrs, {"token"})
  {
    if fieldErrors != map[] then Rejected(db, fieldErrors)
    else
      var o := VerifyEmail(db, attrs["token"].text, valid, now);
      ViewResult(o.db, [], FromService(o.result.0, o.result.1))
  }

  /** `ChangePasswordView.post` for the requesting user `uid`. */
  function ChangePasswordView(db: Db, uid: nat, fieldErrors: Errors, attrs: Attrs): ViewResult
    requires uid < |db.users|
    requires Present(fieldErrors, attrs, {"old_password", "new_password", "new_password_confirm"})
  {
    match ChangePasswordIsValid(fieldErrors, attrs, db.users[uid].password)
    case Err(errors) => Rejected(db, errors)
    case Ok(v) =>
      var o := ChangePassword(db, uid, v["old_password"].text, v["new_password"].text);
      ViewResult(o.db, [], FromService(o.result.0, o.result.1))
  }

  /** `ResendVerificationView.post` for the requesting user `uid`. */
  function ResendVerificationView(db: Db, uid: nat, value: string, now: int, mail: MailConfig): ViewResult
    requires uid < |db.users|
  {
    if db.users[uid].verified then ViewResult(db, [], Response(400, Message(AlreadyVerified)))
    else
      var o := CreateVerification(db, uid, value, now);
      SendThen(o.db, mail, VerificationMail(uid, o.result.value), Response(200, Message(VerificationSent)))
  }

  /** `LogoutView.post` on the set of blacklisted refresh tokens; `parses`
      tells whether a string is a well-formed, unexpired refresh token. With
      the blacklist app installed, building the token also refuses one that
      is blacklisted; either refusal raises, and the view answers 400. */
  function LogoutView(blacklist: set<string>, refresh: Option<string>, parses: string -> bool): (r: (set<string>, Response))
    ensures !Truthy(refresh) ==> r == (blacklist, Response(200, Message(LogoutSuccessful)))
    ensures Truthy(refresh) && parses(refresh.value) && refresh.value !in blacklist ==>
      r == (blacklist + {refresh.value}, Response(200, Message(LogoutSuccessful)))
    ensures Truthy(refresh) && (!parses(refresh.value) || refresh.value in blacklist) ==>
      r == (blacklist, Response(400, Failure(InvalidToken)))
  {
    if Truthy(refresh) then
      if parses(refresh.value) && refresh.value !in blacklist then
        (blacklist + {refresh.value}, Response(200, Message(LogoutSuccessful)))
      else (blacklist, Response(400, Failure(InvalidToken)))
    else (blacklist, Response(200, Message(LogoutSuccessful)))
  }

  // ---------------------------------------------------------------------------
  // What the views promise

  /** Invalid registration data gives 400 with the errors and calls nothing.
      Valid data for a new address creates the user and exactly one
      verification token. The e-mail carrying that token then goes out and
      the view answers 201, unless the e-mail service raises: then the view
      answers with a server error, sends nothing, and the user and the
      token stay created. */
  lemma RegisterViewEffect(db: Db, fieldErrors: Errors, attrs: Attrs, autoVerify: bool, value: string, now: int,
                           mail: MailConfig)
    requires Valid(db)
    requires Present(fieldErrors, attrs, {"email", "password", "password_confirm"})
    ensures var r := RegisterView(db, fieldErrors, attrs, autoVerify, value, now, mail);
      && (RegisterIsValid(fieldErrors, attrs).Err? ==>
            r == Rejected(db, RegisterIsValid(fieldErrors, attrs).error))
      && (RegisterIsValid(fieldErrors, attrs).Ok? && FindUser(db.users, attrs["email"].text).None? ==>
            && |r.db.users| == |db.users| + 1
            && r.db.users[|db.users|].email == attrs["email"].text
            && |r.db.verifications| == |db.verifications| + 1
            && r.db.verifications[|db.verifications|].value == value
            && r.db.verifications[|db.verifications|].owner == |db.users|
            && (Delivers(mail, VerificationMail(|db.users|, value)) ==>
                  && r.response == Response(201, Registered(RegistrationMessage, |db.users|))
                  && r.mails == [VerificationMail(|db.users|, value)])
            && (!Delivers(mail, VerificationMail(|db.users|, value)) ==>
                  r.response == Response(500, ServerError) && r.mails == []))
  {
    if RegisterIsValid(fieldErrors, attrs).Ok? {
      RegisterIssuesOneToken(db, attrs["email"].text, attrs["password"].text, TextOr(attrs, "first_name", ""),
                             TextOr(attrs, "last_name", ""), autoVerify, value, now);
    }
  }

  /** With valid input, an unknown address gets the fixed 200 answer and no
      e-mail. A known address gets a new reset token and, when the e-mail
      service does not raise, the same 200 answer and one e-mail to its
      owner carrying that token; when it raises, a server error. So the
      answer hides whether an account exists exactly when the reset e-mail
      can go out. */
  lemma ForgotPasswordHidesAccounts(db: Db, attrs: Attrs, value: string, now: int, mail: MailConfig)
    requires "email" in attrs && attrs["email"].Text?
    ensures var r := ForgotPasswordView(db, map[], attrs, value, now, mail);
      var u := FindUser(db.users, attrs["email"].text);
      && (u.None? ==> r.response == Response(200, Message(ResetRequested)) && r.mails == [])
      && (u.Some? && Delivers(mail, ResetMail(u.value, value)) ==>
            r.response == Response(200, Message(ResetRequested)) && r.mails == [ResetMail(u.value, value)])
      && (u.Some? && !Delivers(mail, ResetMail(u.value, value)) ==>
            r.response == Response(500, ServerError) && r.mails == [])
      && (r.response == Response(200, Message(ResetRequested)) <==> u.None? || Delivers(mail, ResetMail(u.value, value)))
  {
    var u := FindUser(db.users, attrs["email"].text);
    var o := CreateReset(db, attrs["email"].text, value, now);
    if u.Some? {
      assert o.result == Some(Token(value, u.value, now + ResetLifetime, false));
      assert ForgotPasswordView(db, map[], attrs, value, now, mail)
          == SendThen(o.db, mail, ResetMail(u.value, value), Response(200, Message(ResetRequested)));
    }
  }

  /** The reset-password and verify-email views answer 200 exactly when the
      service succeeded and never reach the service when the serializer
      rejects the input. */
  lemma ServiceViewsFollowService(db: Db, fieldErrors: Errors, attrs: Attrs, valid: Validity, now: int)
    requires Valid(db)
    requires Present(fieldErrors, attrs, {"token", "new_password", "new_password_confirm"})
    ensures var r := ResetPasswordView(db, fieldErrors, attrs, valid, now);
      && (ResetPasswordIsValid(fieldErrors, attrs).Err? ==> r.db == db && r.response.status == 400)
      && (ResetPasswordIsValid(fieldErrors, attrs).Ok? ==>
            var o := ResetPassword(db, attrs["token"].text, attrs["new_password"].text, valid, now);
            r.db == o.db && (r.response.status == 200 <==> o.result.0))
    ensures var r := VerifyEmailView(db, fieldErrors, attrs, valid, now);
      && (fieldErrors != map[] ==> r.db == db && r.response == Response(400, FieldErrors(fieldErrors)))
      && (fieldErrors == map[] ==>
            var o := VerifyEmail(db, attrs["token"].text, valid, now);
            r.db == o.db && r.response == FromService(o.result.0, o.result.1))
  {
    if ResetPasswordIsValid(fieldErrors, attrs).Ok? {
      assert ResetPasswordIsValid(fieldErrors, attrs).value == attrs;
    }
  }

  /** A rejected change-password request answers 400 with the serializer's
      errors and changes nothing. Once the serializer accepts the input, the
      service cannot refuse it, because the serializer has already checked
      the old password: the view answers 200 and only that user's password
      changes. */
  lemma ChangePasswordViewEffect(db: Db, uid: nat, fieldErrors: Errors, attrs: Attrs)
    requires uid < |db.users|
    requires Present(fieldErrors, attrs, {"old_password", "new_password", "new_password_confirm"})
    ensures var c := ChangePasswordIsValid(fieldErrors, attrs, db.users[uid].password);
      var r := ChangePasswordView(db, uid, fieldErrors, attrs);
      && (c.Err? ==> r == Rejected(db, c.error) && r.response.status == 400)
      && (c.Ok? ==>
            && r.response == Response(200, Message(PasswordChanged))
            && r.db == db.(users := db.users[uid := db.users[uid].(password := attrs["new_password"].text)]))
  {
    var c := ChangePasswordIsValid(fieldErrors, attrs, db.users[uid].password);
    if c.Ok? {
      ChangePasswordValidIff(fieldErrors, attrs, db.users[uid].password);
      assert c.value == attrs;
    }
  }

  /** An already verified user gets 400 and nothing is created or sent.
      Otherwise one unused token is added; the e-mail carrying it goes out
      and the view answers 200, unless the e-mail service raises: then the
      answer is a server error and the token stays created. */
  lemma ResendVerificationEffect(db: Db, uid: nat, value: string, now: int, mail: MailConfig)
    requires uid < |db.users|
    ensures var r := ResendVerificationView(db, uid, value, now, mail);
      && (db.users[uid].verified ==> r == ViewResult(db, [], Response(400, Message(AlreadyVerified))))
      && (!db.users[uid].verified ==>
            && r.db.verifications[..|db.verifications|] == db.verifications
            && |r.db.verifications| == |db.verifications| + 1
            && !r.db.verifications[|db.verifications|].used
            && r.db.verifications[|db.verifications|].value == value
            && (Delivers(mail, VerificationMail(uid, value)) ==>
                  r.response == Response(200, Message(VerificationSent)) && r.mails == [VerificationMail(uid, value)])
            && (!Delivers(mail, VerificationMail(uid, value)) ==>
                  r.response == Response(500, ServerError) && r.mails == []))
  {
    CreateVerificationAppends(db, uid, value, now);
  }

  /** A refresh token logs out once: a second logout with it is refused
      with 400 and changes nothing. An absent or empty token is accepted
      both times and blacklists nothing. */
  lemma LogoutSingleUse(blacklist: set<string>, refresh: Option<string>, parses: string -> bool)
    ensures var (once, _) := LogoutView(blacklist, refresh, parses);
      var (twice, r) := LogoutView(once, refresh, parses);
      && (Truthy(refresh) && parses(refresh.value) ==> refresh.value in once)
      && (Truthy(refresh) ==> twice == once && r == Response(400, Failure(InvalidToken)))
      && (!Truthy(refresh) ==> twice == blacklist && r == Response(200, Message(LogoutSuccessful)))
  {
  }

  // ---------------------------------------------------------------------------
  // The views, calling the service in order

  class AuthViews {
    const store: AuthStore
    /** E-mails sent so far, oldest first. */
    var outbox: seq<Mail>
    /** Refresh tokens blacklisted so far. */
    var blacklist: set<string>

    constructor (store: AuthStore)
      ensures this.store == store && outbox == [] && blacklist == {}
    {
      this.store := store;
      outbox := [];
      blacklist := {};
    }

    method Register(fieldErrors: Errors, attrs: Attrs, autoVerify: bool, value: string, now: int, mail: MailConfig)
      returns (response: Response)
      requires Present(fieldErrors, attrs, {"email", "password", "password_confirm"})
      modifies this, store
      ensures var r := RegisterView(old(store.State()), fieldErrors, attrs, autoVerify, value, now, mail);
        store.State() == r.db && outbox == old(outbox) + r.mails && response == r.response
    {
      var checked := RegisterIsValid(fieldErrors, attrs);
      if checked.Err? {
        return Response(400, FieldErrors(checked.error));
      }
      var v := checked.value;
      var created := store.RegisterUser(v["email"].text, v["password"].text, TextOr(v, "first_name", ""),
                                        TextOr(v, "last_name", ""), autoVerify, value, now);
      if created.Err? {
        return Response(500, ServerError);
      }
      var (uid, t) := created.value;
      response := Send(VerificationMail(uid, t.value), mail, Response(201, Registered(RegistrationMessage, uid)));
    }

    method ForgotPassword(fieldErrors: Errors, attrs: Attrs, value: string, now: int, mail: MailConfig)
      returns (response: Response)
      requires Present(fieldErrors, attrs, {"email"})
      modifies this, store
      ensures var r := ForgotPasswordView(old(store.State()), fieldErrors, attrs, value, now, mail);
        store.State() == r.db && outbox == old(outbox) + r.mails && response == r.response
    {
      if fieldErrors != map[] {
        return Response(400, FieldErrors(fieldErrors));
      }
      var token := store.CreatePasswordResetToken(attrs["email"].text, value, now);
      if token.None? {
        return Response(200, Message(ResetRequested));
      }
      response := Send(ResetMail(token.value.owner, token.value.value), mail, Response(200, Message(ResetRequested)));
    }

    method ResetPassword(fieldErrors: Errors, attrs: Attrs, valid: Validity, now: int) returns (response: Response)
      requires Valid(store.State())
      requires Present(fieldErrors, attrs, {"token", "new_password", "new_password_confirm"})
      modifies store
      ensures var r := ResetPasswordView(old(store.State()), fieldErrors, attrs, valid, now);
        store.State() == r.db && r.mails == [] && response == r.response
    {
      var checked := ResetPasswordIsValid(fieldErrors, attrs);
      if checked.Err? {
        return Response(400, FieldErrors(checked.error));
      }
      var v := checked.value;
      var ok, message := store.ResetPasswordWithToken(v["token"].text, v["new_password"].text, valid, now);
      return FromService(ok, message);
    }

    method VerifyEmail(fieldErrors: Errors, attrs: Attrs, valid: Validity, now: int) returns (response: Response)
      requires Valid(store.State())
      requires Present(fieldErrors, attrs, {"token"})
      modifies store
      ensures var r := VerifyEmailView(old(store.State()), fieldErrors, attrs, valid, now);
        store.State() == r.db && r.mails == [] && response == r.response
    {
      if fieldErrors != map[] {
        return Response(400, FieldErrors(fieldErrors));
      }
      var ok, message := store.VerifyEmailToken(attrs["token"].text, valid, now);
      return FromService(ok, message);
    }

    method ChangePassword(uid: nat, fieldErrors: Errors, attrs: Attrs) returns (response: Response)
      requires uid < |store.users|
      requires Present(fieldErrors, attrs, {"old_password", "new_password", "new_password_confirm"})
      modifies store
      ensures var r := ChangePasswordView(old(store.State()), uid, fieldErrors, attrs);
        store.State() == r.db && r.mails == [] && response == r.response
    {
      var checked := ChangePasswordIsValid(fieldErrors, attrs, store.users[uid].password);
      if checked.Err? {
        return Response(400, FieldErrors(checked.error));
      }
      var v := checked.value;
      var ok, message := store.ChangeUserPassword(uid, v["old_password"].text, v["new_password"].text);
      return FromService(ok, message);
    }

    method ResendVerification(uid: nat, value: string, now: int, mail: MailConfig) returns (response: Response)
      requires uid < |store.users|
      modifies this, store
      ensures var r := ResendVerificationView(old(store.State()), uid, value, now, mail);
        store.State() == r.db && outbox == old(outbox) + r.mails && response == r.response
    {
      if store.users[uid].verified {
        return Response(400, Message(AlreadyVerified));
      }
      var t := store.CreateVerificationToken(uid, value, now);
      response := Send(VerificationMail(uid, t.value), mail, Response(200, Message(VerificationSent)));
    }

    method Logout(refresh: Option<string>, parses: string -> bool) returns (response: Response)
      modifies this
      ensures var r := LogoutView(old(blacklist), refresh, parses);
        blacklist == r.0 && response == r.1 && outbox == old(outbox)
    {
      if Truthy(refresh) {
        // building the token: malformed, expired or blacklisted raises
        if !parses(refresh.value) || refresh.value in blacklist {
          return Response(400, Failure(InvalidToken));
        }
        blacklist := blacklist + {refresh.value};
      }
      return Response(200, Message(LogoutSuccessful));
    }

    /** Hands `m` to the e-mail service; `ok` is the view's answer when the
        service returns. */
    method Send(m: Mail, mail: MailConfig, ok: Response) returns (response: Response)
      modifies this
      ensures var r := SendThen(store.State(), mail, m, ok);
        outbox == old(outbox) + r.mails && response == r.response && blacklist == old(blacklist)
    {
      if !Delivers(mail, m) {
        return Response(500, ServerError);
      }
      outbox := outbox + [m];
      return ok;
    }
  }
}
