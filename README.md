# Django scaffold core, modelled in Dafny

This project models the core of a Django project template.

- **Authentication.** The token lifecycle of the authentication service: registration with an e-mail verification token, verification, password-reset tokens, password reset and password change. Also the API views and request serializers built on it.
- **Request limiting.** The cache-backed rate limiter (its decorator and its view mixin) and the CRUD throttles.
- **E-mail.** The signal-driven e-mail pipeline: action configurations, the generic receiver, and the e-mail service with its provider choice, template choice and delivery log.
- **Code generators.** Three management commands that generate code:
  - `createcrud` scans a models file and writes serializer, viewset and service modules, package `__init__` files, `urls.py` and `apps.py`. It then registers the app in `INSTALLED_APPS` and routes it from the main URL configuration.
  - `generatecrud` does the same for an existing app under `apps/`.
  - `createapp` runs an interactive dialogue that declares models, writes `models.py` and generates the CRUD layers.

Each source file is one module:

| module | file |
|---|---|
| `RateLimit` | `ratelimit.dfy` |
| `Throttles` | `throttles.dfy` |
| `AuthService` | `auth_service.dfy` |
| `Serializers` | `serializers.dfy` |
| `AuthViews` | `auth_views.dfy` |
| `EmailSignals` | `email_signals.dfy` |
| `EmailReceivers` | `email_receivers.dfy` |
| `EmailService` | `email_service.dfy` |
| `CreateCrud` (pure text and AST logic) | `createcrud.dfy` |
| `CrudFiles` (what the command does to the disk) | `crud_files.dfy` |
| `GenerateCrud` | `generatecrud.dfy` |
| `CreateApp` | `createapp.dfy` |

`Common` holds:

- `Option`/`Result`;
- the ASCII models of the Python `str` methods the core uses;
- line splitting and joining.

## How the model is built

**State-changing code is written as classes.** Each method is specified by a pure function of the old state, and the properties are proved as lemmas about those functions. The classes are:

- the rate limiter's cache (`RateLimiter`);
- the user and token tables (`AuthStore`);
- the views with their outbox and refresh-token blacklist (`AuthViews`);
- the e-mail log (`Mailer`);
- the receiver's log (`Receiver`);
- the disk (`Disk`, driven by `CrudCommand`, `GenerateCrudCommand` and `CreateAppCommand`);
- the console (`Console`).

**Loops are methods.** The source builds `__init__.py`, `urls.py` and `models.py` text, runs the model/field dialogues and writes the per-model modules in loops. Each of these is a method with loop invariants against the function that specifies it. Examples are `BuildInit`, `GetModelFields`, `ReadModels` and `WriteModules`.

**The disk is a map.** It maps paths (sequences of path components) to file contents, plus a set of directories.

**Generated module bodies are a parameter.** The bodies of the generated serializer, viewset and service modules are a `Render` function parameter. The `__init__.py`, `urls.py`, `apps.py` and `models.py` texts are modelled line by line, and `Lines(Unlines(...))` read-back lemmas show where each model's lines sit.

**Time and randomness are inputs.** Time is an explicit `now` in seconds. A cache entry stores its absolute expiry. A token's expiry is `now` plus its lifetime.

**External pieces are parameters.** These become function-typed parameters or plain values:

- SHA-256;
- `secrets.token_urlsafe`;
- `authenticate`;
- the tokens' `is_valid()`;
- template lookup and rendering;
- the provider transport;
- JWT parsing.

## Model

| member | source | states |
|---|---|---|
| RateLimit.RateLimitKey | apps/authentication/ratelimit.py:40-53 | the key is `ratelimit:` + action + `:` + the first 16 characters of the identifier's digest (length, prefix and suffix) |
| RateLimit.KeyRoundTrip | apps/authentication/ratelimit.py:40-53 | the action and the 16-character digest prefix can be read back from a key |
| RateLimit.KeysCollideIff | apps/authentication/ratelimit.py:40-53 | two keys are equal exactly when the actions are equal and the digest prefixes are equal |
| RateLimit.ClientIp | apps/authentication/ratelimit.py:22-37 | with a non-empty X-Forwarded-For: the stripped text before its first comma, comma-free and contained in the header; otherwise REMOTE_ADDR or "" |
| RateLimit.PeriodSeconds | apps/authentication/ratelimit.py:129-136 | the period is one of 1/60/3600/86400; 1, 3600 and 86400 exactly for s, h and d in any case; anything else is 60 |
| RateLimit.PeriodCaseInsensitive | apps/authentication/ratelimit.py:136 | upper- or lower-casing the unit does not change the period |
| RateLimit.ParseRate | apps/authentication/ratelimit.py:125-136 | a rate without exactly one `/` fails to unpack; a parsed rate has one of the four periods |
| RateLimit.ParseRateRoundTrip | apps/authentication/ratelimit.py:125-136 | `n/unit` parses back to limit n and the unit's period |
| RateLimit.CheckCounter | apps/authentication/ratelimit.py:56-95 | limited iff the live count has reached the limit, and then nothing is written; retry hint is the rest of the window, else the period; first admitted call opens a window of `period` seconds; later ones add one and keep the expiry; no other key changes; stored counts never pass the limit |
| RateLimit.ReplayInWindow | apps/authentication/ratelimit.py:76-95 | within one live window starting at count k, call i is rejected iff k + i reaches the limit, and the count saturates at the limit |
| RateLimit.FreshWindowAdmitsLimit | apps/authentication/ratelimit.py:76-95 | from an empty key, within one period, exactly the first `limit` calls are admitted |
| RateLimit.NonPositiveLimitRejectsAll | apps/authentication/ratelimit.py:81-84 | a limit of zero or less rejects every call and writes nothing |
| RateLimit.ReplayStaysWithin | apps/authentication/ratelimit.py:81-95 | any sequence of calls keeps the stored count within the limit |
| RateLimit.RateLimiter.IsRateLimited | apps/authentication/ratelimit.py:56-95 | the method's verdict, hint and new cache are those of `CheckCounter` on the old cache |
| RateLimit.RateLimiter.Dispatch | apps/authentication/ratelimit.py:203-249 | the mixin's dispatch: verdict and new cache are those of `Guard` |
| RateLimit.ChooseIdentifier | apps/authentication/ratelimit.py:142-157 | ip → client IP; user → user id if authenticated, else IP; email → the e-mail if non-empty, else IP; a callable key is called (decorator only); any other name → IP |
| RateLimit.Guard | apps/authentication/ratelimit.py:122-180 | a malformed rate fails before the method test; an unlimited method bypasses and writes nothing; otherwise one counter check on (identifier, handler:method); blocked with a hint when limited and blocking, else proceed and flag |
| RateLimit.FlaggedOnlyWithoutBlock | apps/authentication/ratelimit.py:171-178 | a request proceeds flagged as limited only when blocking is off |
| RateLimit.PresetRates | apps/authentication/ratelimit.py:256-266 | the presets read as login 5 per 60 s; register, forgot-password and resend 3 per 3600 s; reset 5 and verify 10 per 3600 s; API reads 100 and writes 50 per 60 s |
| Throttles.ScopesDistinct | base/throttles.py:30-69 | no two throttle classes share a scope |
| Throttles.ParseThrottleRate | base/throttles.py:30-69 | a parsed rate has a `/` and a period of 1, 60, 3600 or 86400 seconds |
| Throttles.ParseThrottleRateRoundTrip | base/throttles.py:30-69 | `n/unit` reads as n requests per the period named by the unit's first letter |
| Throttles.RatesReadAsAllowance | base/throttles.py:30-69 | every class's rate string reads as its intended allowance (100/min, 50/min, 30/min, 20/min, 20/hour, 10/s, 1000/day) |
| Throttles.CacheKey | base/throttles.py:15-27 | the key starts with the cache prefix and ends in the first 16 characters of the identity's digest |
| Throttles.Identity | base/throttles.py:17-20 | the user id for an authenticated user, else the request's identity |
| Throttles.CacheKeyRoundTrip | base/throttles.py:15-27 | scope and digest prefix can be read back from the key |
| Throttles.CacheKeysCollideIff | base/throttles.py:15-27 | two keys are equal exactly when the throttles and the digest prefixes are equal |
| Throttles.ThrottlesForAction | base/throttles.py:88-112 | always burst, one middle throttle, sustained; the middle one is read for list/retrieve, create for create, delete for destroy, write for everything else |
| Throttles.GetThrottles | base/throttles.py:124-128 | the instances are those of `ThrottlesForAction`, in order, with burst first and sustained last |
| Throttles.ActionLimitsOrdered | base/throttles.py:98-112 | no action's middle throttle allows more than the read throttle; burst is per second, sustained per day |
| AuthService.FindToken | apps/authentication/services/auth_service.py:66 | the first token with the value, or none when no token has it |
| AuthService.FindUser | apps/authentication/services/auth_service.py:152-157 | the first user with the e-mail, or none when no user has it |
| AuthService.Retire | apps/authentication/services/auth_service.py:89-93 | every token of the user is marked used; the others are unchanged |
| AuthService.RetireLeavesNoneUnused | apps/authentication/services/auth_service.py:89-93 | after retiring, the user has no unused token |
| AuthService.RetireKeepsOthers | apps/authentication/services/auth_service.py:89-93 | other users keep their count of unused tokens |
| AuthService.CreateVerificationAppends | apps/authentication/services/auth_service.py:47-59 | appends one unused token for the user with the given value, expiring 24 h after now; users and resets unchanged |
| AuthService.RegisterIssuesOneToken | apps/authentication/services/auth_service.py:17-45 | fails exactly for an e-mail already taken, changing nothing; otherwise appends the user and exactly one verification token, marked used iff auto-verified |
| AuthService.VerifyEmailEffect | apps/authentication/services/auth_service.py:61-81 | unknown token → "Invalid token", no change; invalid → "invalid or expired", no change; else the owner is verified, the token used, and nothing else changes |
| AuthService.VerifyEmailSingleUse | apps/authentication/services/auth_service.py:61-81 | a verification token that succeeded fails on any later use |
| AuthService.CreateResetLeavesOne | apps/authentication/services/auth_service.py:83-109 | unknown e-mail → none, no change; else the user's older unused resets are retired and one new unused token expiring in 1 h is appended; other users untouched |
| AuthService.ResetPasswordEffect | apps/authentication/services/auth_service.py:111-137 | unknown or invalid token changes nothing; otherwise the owner's password is set, the token used, no unused reset token of the owner remains, and other rows are unchanged |
| AuthService.ResetPasswordSingleUse | apps/authentication/services/auth_service.py:111-137 | a reset token that succeeded fails on any later use |
| AuthService.ChangePasswordEffect | apps/authentication/services/auth_service.py:139-149 | succeeds iff the old password matches, then only that user's password changes; otherwise nothing changes |
| AuthService.OperationsPreserveValid | apps/authentication/services/auth_service.py:14-157 | with a fresh token value, each of register (any names), creating a verification token for an existing user, verifying an e-mail, creating a reset token, resetting and changing a password keeps e-mails unique, token values unique and token owners within the user table |
| AuthService.AuthStore.GetUserByEmail | apps/authentication/services/auth_service.py:151-157 | the index of a user with the e-mail, or none when there is none |
| AuthService.AuthStore.CreateVerificationToken | apps/authentication/services/auth_service.py:47-59 | the new tables and token are those of `CreateVerification` |
| AuthService.AuthStore.RegisterUser | apps/authentication/services/auth_service.py:17-45 | the new tables and result are those of `Register` |
| AuthService.AuthStore.VerifyEmailToken | apps/authentication/services/auth_service.py:61-81 | the new tables and result are those of `VerifyEmail` |
| AuthService.AuthStore.RetireUnusedResets | apps/authentication/services/auth_service.py:89-93 | the reset table becomes `Retire` of the old one; the other tables are unchanged |
| AuthService.AuthStore.CreatePasswordResetToken | apps/authentication/services/auth_service.py:83-109 | the new tables and token are those of `CreateReset` |
| AuthService.AuthStore.ResetPasswordWithToken | apps/authentication/services/auth_service.py:111-137 | the new tables and result are those of `ResetPassword` |
| AuthService.AuthStore.ChangeUserPassword | apps/authentication/services/auth_service.py:139-149 | the new tables and result are those of `ChangePassword` |
| AuthViews.FromService | apps/authentication/views/auth_views.py:218-221 | a successful service call gives 200 with the message; a failure gives 400 with the message as error |
| AuthViews.DeliversIff | apps/email_service/services/email_service.py:165-192 | a view's e-mail raises exactly when the provider setting is unknown or the mode is "db_only" with no table row for the template; user and token play no part |
| AuthViews.SendThen | apps/authentication/views/auth_views.py:52-57 | after the table change, a returning e-mail service records the mail and gives the view's answer; a raising one records nothing and gives 500, the table change kept |
| AuthViews.LogoutView | apps/authentication/views/auth_views.py:106-120 | no refresh token → 200, nothing blacklisted; a well-formed token not yet blacklisted is blacklisted → 200; a malformed, expired or already blacklisted token → 400 "Invalid token", blacklist unchanged |
| AuthViews.RegisterViewEffect | apps/authentication/views/auth_views.py:40-59 | invalid input → 400 with the errors, no change; a new e-mail → the user and one verification token for it are created; then 201 with one verification mail carrying that token when the e-mail service returns, and 500 with no mail, the user and token kept, when it raises |
| AuthViews.ForgotPasswordHidesAccounts | apps/authentication/views/auth_views.py:177-193 | an unknown address → 200, no mail; a known one → 200 and one reset mail to its owner with the new token when the e-mail service returns, 500 and no mail when it raises; so the answer is the fixed 200 exactly when the address is unknown or the reset mail goes out |
| AuthViews.ServiceViewsFollowService | apps/authentication/views/auth_views.py:209-250 | reset and verify return 400 on invalid input with no change; otherwise the new state is the service's, and the status is 200 iff the service succeeded |
| AuthViews.ChangePasswordViewEffect | apps/authentication/views/auth_views.py:148-163 | input the serializer rejects → 400 with its errors, nothing changed; accepted input (the old password already checked) → 200 and exactly that user's password replaced |
| AuthViews.ResendVerificationEffect | apps/authentication/views/auth_views.py:261-274 | an already verified user gets 400 with no change; otherwise one unused token with the given value is appended; then 200 with one mail carrying it when the e-mail service returns, 500 with no mail, the token kept, when it raises |
| AuthViews.LogoutSingleUse | apps/authentication/views/auth_views.py:106-120 | a second logout with the same refresh token → 400 "Invalid token", blacklist unchanged; with no token both logouts → 200 and nothing blacklisted |
| AuthViews.AuthViews.Register | apps/authentication/views/auth_views.py:40-59 | store, outbox and response follow `RegisterView` |
| AuthViews.AuthViews.ForgotPassword | apps/authentication/views/auth_views.py:177-193 | store, outbox and response follow `ForgotPasswordView` |
| AuthViews.AuthViews.ResetPassword | apps/authentication/views/auth_views.py:209-223 | store and response follow `ResetPasswordView`; no mail |
| AuthViews.AuthViews.VerifyEmail | apps/authentication/views/auth_views.py:237-250 | store and response follow `VerifyEmailView`; no mail |
| AuthViews.AuthViews.ChangePassword | apps/authentication/views/auth_views.py:148-163 | store and response follow `ChangePasswordView`; no mail |
| AuthViews.AuthViews.ResendVerification | apps/authentication/views/auth_views.py:261-274 | store, outbox and response follow `ResendVerificationView` |
| AuthViews.AuthViews.Logout | apps/authentication/views/auth_views.py:106-120 | blacklist and response follow `LogoutView`; outbox unchanged |
| AuthViews.AuthViews.Send | apps/authentication/views/auth_views.py:52 | the outbox grows by the mail and the answer is the view's exactly when the e-mail service returns; otherwise 500 and the outbox unchanged |
| Serializers.Rendered | apps/authentication/serializers/auth_serializers.py:28-32 | a field error renders under its field, any other under `non_field_errors`, one entry |
| Serializers.MatchFields | apps/authentication/serializers/auth_serializers.py:28-32 | `RegisterSerializer.validate` on password / password_confirm, and the same check in `ChangePasswordSerializer.validate` (lines 74-78) and `ResetPasswordSerializer.validate` (lines 101-105) on new_password / new_password_confirm: accepts iff the two fields are equal, returning the attributes unchanged; else `{<first field>: Passwords don't match}` |
| Serializers.CreateUserArgs | apps/authentication/serializers/auth_serializers.py:34-38 | the user is created from every validated field except password_confirm, values unchanged |
| Serializers.LoginValidate | apps/authentication/serializers/auth_serializers.py:47-64 | missing or empty e-mail/password → "Must include"; unknown → "Invalid credentials"; inactive → "Account is disabled"; otherwise the attributes plus the user |
| Serializers.LoginAddsOnlyUser | apps/authentication/serializers/auth_serializers.py:61-62 | a successful login validation adds the `user` key and changes no other attribute |
| Serializers.ValidateOldPassword | apps/authentication/serializers/auth_serializers.py:80-85 | accepts iff the value is the current password; else "Old password is incorrect" on `old_password` |
| Serializers.IsValid | apps/authentication/views/auth_views.py:41-43 | field errors win; otherwise the object-level result, its error rendered |
| Serializers.ChangePasswordValidIff | apps/authentication/serializers/auth_serializers.py:67-85 | change-password input is valid iff no field error, the old password is right and the new passwords match |
| EmailSignals.ConfigForAction | apps/email_service/signals.py:37-81 | enabled iff the action is configured; configured actions get their entry; any other gets no template, no subject, disabled |
| EmailSignals.EnabledActions | apps/email_service/signals.py:48-81 | exactly the five named actions are enabled |
| EmailSignals.ConfiguredActionsAreComplete | apps/email_service/signals.py:48-81 | every configured action except `custom` has a template, and an action has a subject iff it has a template |
| EmailReceivers.SignalMatchesConvenienceSenders | apps/email_service/signals.py:48-63 | the signal's verification, reset and welcome entries use the same templates and subjects as the service's convenience senders |
| EmailReceivers.Or | apps/email_service/receivers.py:56-57 | Python `or`: the first value if non-empty, else the second |
| EmailReceivers.BuildContext | apps/email_service/receivers.py:64-74 | keys are site_name, frontend_url, user (if given) and the extra ones; extra values win; defaults fill site_name and frontend_url |
| EmailReceivers.Decide | apps/email_service/receivers.py:29-61 | dropped when mail is off, no action, or no recipient; delivered iff the action is enabled and a template is found, with the override-or-config template/subject and the built context |
| EmailReceivers.StandardActionsDeliver | apps/email_service/receivers.py:49-61 | the four standard actions deliver with their configured template and subject when nothing is overridden |
| EmailReceivers.CustomNeedsTemplate | apps/email_service/receivers.py:49-61 | a custom action delivers iff a template is given, else it is dropped for lack of one |
| EmailReceivers.UnknownActionsDropped | apps/email_service/receivers.py:49-53 | an unconfigured action is dropped as disabled |
| EmailReceivers.Recorded | apps/email_service/receivers.py:77-91 | delivered iff sent successfully; raised iff the service raised; always for the plan's recipient |
| EmailReceivers.Receiver.HandleSendEmail | apps/email_service/receivers.py:15-91 | a dropped plan logs the reason and sends nothing; a composition error is logged as raised; otherwise the service's log and the outcome follow `Send` |
| EmailService.ProviderFor | apps/email_service/services/email_service.py:24-42 | sendgrid, resend and smtp in any case select their provider; anything else is "Unknown email provider: " + the lower-cased name |
| EmailService.ProviderForCaseInsensitive | apps/email_service/services/email_service.py:27-42 | the choice ignores case |
| EmailService.LogNameFromClassName | apps/email_service/services/email_service.py:78 | the logged provider name is the class name without "Provider", lower-cased |
| EmailService.LogNameMatchesSetting | apps/email_service/services/email_service.py:74-80 | for a known provider the logged name equals the lower-cased setting |
| EmailService.SendEmailLogLifecycle | apps/email_service/services/email_service.py:44-103 | fails iff the provider is unknown, else returns the transport's result; a log row is added iff logging is on and a provider was found; the row has recipient, subject, provider and sender; never pending; sent iff success, with `sent_at` now |
| EmailService.SendKnown | apps/email_service/services/email_service.py:69-103 | with a known provider, the result is the transport's and the settled log row is appended iff logging is on |
| EmailService.Compose | apps/email_service/services/email_service.py:159-181 | in db/db_only mode an active table template wins, rendering its own subject; db_only without one fails; otherwise the static file with the given subject, which must be non-empty |
| EmailService.StaticModeIgnoresTable | apps/email_service/services/email_service.py:165-181 | outside db/db_only the template table plays no part |
| EmailService.DbTemplateIgnoresSubject | apps/email_service/services/email_service.py:168-171 | when a table template is used the subject argument plays no part |
| EmailService.VerificationUrl | apps/email_service/services/email_service.py:199 | frontend + `/verify-email?token=` + token, by position |
| EmailService.ResetUrl | apps/email_service/services/email_service.py:217 | frontend + `/reset-password?token=` + token, by position |
| EmailService.LoginUrl | apps/email_service/services/email_service.py:238 | frontend + `/login` |
| EmailService.LinksDistinguishTokens | apps/email_service/services/email_service.py:196-230 | each link determines its token, and no verification link equals a reset link |
| EmailService.MailContext | apps/email_service/services/email_service.py:196-246 | the exact context of each convenience sender: user, site name and the matching link |
| EmailService.ConvenienceSendersCompose | apps/email_service/services/email_service.py:196-246 | a convenience mail fails to compose iff the mode is db_only and its template is not in the table |
| EmailService.Mailer.SendEmail | apps/email_service/services/email_service.py:44-103 | log and result follow `Send` on the old log |
| EmailService.Mailer.SendTemplateEmail | apps/email_service/services/email_service.py:127-192 | a composition error is returned with the log unchanged; otherwise the composed mail is sent as by `Send` |
| EmailService.Mailer.SendAuthMail | apps/email_service/services/email_service.py:196-246 | composes the convenience mail's template, context and subject and sends it with logging on |
| CreateCrud.WalkAllCovers | base/management/commands/createcrud.py:110-111 | the walk reaches every node below the queued ones |
| CreateCrud.WalkAllSound | base/management/commands/createcrud.py:110-111 | every node the walk yields lies below a queued node |
| CreateCrud.WalkVisits | base/management/commands/createcrud.py:111 | `ast.walk` yields exactly the nodes of the tree |
| CreateCrud.Collect | base/management/commands/createcrud.py:111-127 | the key list has no duplicates, has the same names as the dictionary, and every entry is a model class under its own name |
| CreateCrud.ExtractModels | base/management/commands/createcrud.py:98-127 | the loop's keys and classes are `Collect` of the walk |
| CreateCrud.CollectHolds | base/management/commands/createcrud.py:111-125 | a name is in the dictionary iff some walked node is a model class with that name |
| CreateCrud.CollectKeepsLast | base/management/commands/createcrud.py:124 | a later class with the same name replaces an earlier one |
| CreateCrud.ModelsFound | base/management/commands/createcrud.py:110-127 | a name is found iff some class anywhere in the tree with that name derives from `models.Model` or `Model` |
| CreateCrud.AppDir | base/management/commands/createcrud.py:66-70 | the grandparent of a file inside a `models` package, else its parent |
| CreateCrud.FileNamesCollideIff | base/management/commands/createcrud.py:144 | two models get the same module file iff their lower-cased names are equal |
| CreateCrud.ImportLines | base/management/commands/createcrud.py:170-171 | one import line per model, in order |
| CreateCrud.ExportLines | base/management/commands/createcrud.py:173-174 | one `__all__` entry per model, in order |
| CreateCrud.BuildInit | base/management/commands/createcrud.py:167-176 | the loop-built `__init__.py` is the specified lines joined |
| CreateCrud.AppendImports | base/management/commands/createcrud.py:170-171 | the import loop appends exactly the import lines |
| CreateCrud.AppendExports | base/management/commands/createcrud.py:173-174 | the export loop appends exactly the export lines |
| CreateCrud.InitListsEveryModel | base/management/commands/createcrud.py:167-176 | read back line by line, the file has 2n+5 lines, model i's import at line 2+i and its export at n+4+i, inside `__all__ = [` … `]` |
| CreateCrud.ViewSetLines | base/management/commands/createcrud.py:332-333 | one viewset import line per model, in order |
| CreateCrud.RegisterLines | base/management/commands/createcrud.py:338-340 | one router registration per model, in order |
| CreateCrud.BuildUrls | base/management/commands/createcrud.py:326-348 | the loop-built `urls.py` is the specified lines joined |
| CreateCrud.AppendViewSets | base/management/commands/createcrud.py:332-333 | the viewset loop appends exactly the viewset lines |
| CreateCrud.AppendRegistrations | base/management/commands/createcrud.py:338-340 | the registration loop appends exactly the registration lines |
| CreateCrud.UrlsRegisterEveryModel | base/management/commands/createcrud.py:326-348 | read back line by line, `urls.py` has 2n+14 lines, model i's viewset at 5+i and its registration at n+8+i |
| CreateCrud.AppsConfigNamesEntry | base/management/commands/createcrud.py:359-366 | the generated `apps.py` contains the `'apps.<app>'` entry that registration looks for |
| CreateCrud.MatchAt | base/management/commands/createcrud.py:387 | a match of `NAME\s*=\s*\[` … `]` opens after the name and closes inside the text |
| CreateCrud.SkipSpace | base/management/commands/createcrud.py:387 | `\s*` advances within the text |
| CreateCrud.SkipSpaceSkipsSpace | base/management/commands/createcrud.py:387 | `\s*` consumes whitespace only, and all of it |
| CreateCrud.CloseAt | base/management/commands/createcrud.py:387 | `[^\]]*]` closes at a position inside the text |
| CreateCrud.CloseAtFirst | base/management/commands/createcrud.py:387 | the list closes at the first `]`, and fails when there is none |
| CreateCrud.FindList | base/management/commands/createcrud.py:387 | the search result is a match at its start position |
| CreateCrud.FindListLeftmost | base/management/commands/createcrud.py:387 | no match starts before the one found, and none at all when nothing is found |
| CreateCrud.ReplacementHoldsEntry | base/management/commands/createcrud.py:389-398 | the replacement text contains the new entry |
| CreateCrud.SubListsInserts | base/management/commands/createcrud.py:400 | with no list the text is unchanged; with one, the result contains the entry |
| CreateCrud.SubListsOnce | base/management/commands/createcrud.py:400 | with exactly one list, the result is the text with that list's match replaced |
| CreateCrud.InstalledAppsIdempotent | base/management/commands/createcrud.py:370-401 | registering an app twice equals registering it once |
| CreateCrud.InstalledAppsSingleList | base/management/commands/createcrud.py:386-401 | with one LOCAL_APPS list and no entry yet, the entry line goes just before `]`, and a blank list loses its whitespace |
| CreateCrud.SingleListInsert | base/management/commands/createcrud.py:387-400 | for any edit on a single list, the entry line is spliced in just before the closing bracket |
| CreateCrud.MainUrlsIdempotent | base/management/commands/createcrud.py:403-437 | routing an app twice equals routing it once |
| CreateCrud.UrlPatternNamesPrefix | base/management/commands/createcrud.py:412-415 | the inserted pattern contains the `api/<app>/` text the guard tests |
| CreateCrud.WithIncludeIdempotent | base/management/commands/createcrud.py:420-424 | the `include` import rewrite is idempotent |
| CreateCrud.MainUrlsSingleList | base/management/commands/createcrud.py:426-437 | with one urlpatterns list and no route yet, the route line goes just before `]` |
| CreateCrud.ReplaceAllLeavesReplacement | base/management/commands/createcrud.py:420-424 | replacing an occurring pattern leaves the replacement in the text |
| CrudFiles.ModulePathsCollideIff | base/management/commands/createcrud.py:144 | two models share a module path iff their lower-cased names are equal |
| CrudFiles.Touch | base/management/commands/createcrud.py:135-137 | adds the path with empty content if missing; every existing file is unchanged |
| CrudFiles.WriteUnlessKept | base/management/commands/createcrud.py:146-148 | an existing file is kept unless overwriting; else the new text; no other file changes |
| CrudFiles.WithApp | base/management/commands/createcrud.py:370-401 | only the settings module changes, to its registered form, and only if it exists |
| CrudFiles.WithRoutes | base/management/commands/createcrud.py:403-437 | only the main URL module changes, to its routed form, and only if it exists |
| CrudFiles.Outcome | base/management/commands/createcrud.py:48-59 | missing file, parse error and no models each give their message; otherwise the model names |
| CrudFiles.ModulesKeys | base/management/commands/createcrud.py:143-165 | the module loop adds exactly the models' module paths |
| CrudFiles.ModulesKeepExisting | base/management/commands/createcrud.py:146-148 | without overwrite an existing file survives the loop |
| CrudFiles.ModulesLeaveOthers | base/management/commands/createcrud.py:143-165 | a file that is no model's module survives the loop |
| CrudFiles.FirstModuleWins | base/management/commands/createcrud.py:143-165 | without overwrite, a new module holds the first model with that lower-cased name |
| CrudFiles.LastModuleWins | base/management/commands/createcrud.py:143-165 | with overwrite, a module holds the last model with that lower-cased name |
| CrudFiles.PackagesTouchInits | base/management/commands/createcrud.py:129-137 | existing files are kept; every package gets an `__init__.py`, empty when new; nothing else appears |
| CrudFiles.CrudAddsApp | base/management/commands/createcrud.py:82-85 | after the command the settings module is the registered form of its old content |
| CrudFiles.CrudAddsRoutes | base/management/commands/createcrud.py:85-88 | after the command the main URL module is the routed form of its old content |
| CrudFiles.ProjectModuleSurvives | base/management/commands/createcrud.py:73-82 | generation and `apps.py` leave settings and main URLs untouched |
| CrudFiles.GeneratedKeeps | base/management/commands/createcrud.py:73-79 | the generation steps leave settings and main URLs untouched |
| CrudFiles.GeneratedKeepsOther | base/management/commands/createcrud.py:73-79 | generation leaves every file outside the app's packages and `urls.py` untouched |
| CrudFiles.GeneratedPathsAvoidSettings | base/management/commands/createcrud.py:133-368 | no generated module, `__init__.py`, `urls.py` or `apps.py` is the settings module or the main URL module |
| CrudFiles.CrudCommand.CreateDirectories | base/management/commands/createcrud.py:129-137 | adds the three package directories; files follow `Packages` |
| CrudFiles.CrudCommand.AddPackage | base/management/commands/createcrud.py:133-137 | one package: its directory plus a touched `__init__.py` |
| CrudFiles.CrudCommand.GenerateLayer | base/management/commands/createcrud.py:139-316 | files follow `WithLayer` (modules and `__init__.py`); directories unchanged |
| CrudFiles.CrudCommand.WriteModules | base/management/commands/createcrud.py:143-165 | files follow `Modules`; directories unchanged |
| CrudFiles.CrudCommand.GenerateUrls | base/management/commands/createcrud.py:318-350 | `urls.py` is written, or kept without overwrite |
| CrudFiles.CrudCommand.CreateAppsConfig | base/management/commands/createcrud.py:352-368 | `apps.py` is written, or kept without overwrite |
| CrudFiles.CrudCommand.AddToInstalledApps | base/management/commands/createcrud.py:370-401 | files follow `WithApp` |
| CrudFiles.CrudCommand.AddToMainUrls | base/management/commands/createcrud.py:403-437 | files follow `WithRoutes` |
| CrudFiles.CrudCommand.Handle | base/management/commands/createcrud.py:43-96 | result is `Outcome`; an error changes nothing; success leaves the files of `CrudFiles` and the three package directories |
| GenerateCrud.AppPath | base/management/commands/generatecrud.py:35 | `apps/<app>` |
| GenerateCrud.ModelsPath | base/management/commands/generatecrud.py:40 | `apps/<app>/models.py` |
| GenerateCrud.GenerateOutcome | base/management/commands/generatecrud.py:30-50 | missing app, missing models.py, parse error and no models each give their message; otherwise the names |
| GenerateCrud.EndingOf | base/management/commands/generatecrud.py:30-71 | a failed check ends in `CommandError` with its message; a run past the checks ends at `generate_admin` with the models found |
| GenerateCrud.NoRunCompletes | base/management/commands/generatecrud.py:56-71 | a run stops at `generate_admin` exactly when the app, its models.py and at least one model class exist and the file parses, and then with a non-empty model list |
| GenerateCrud.AppUrlsAvoidProject | base/management/commands/generatecrud.py:35-70 | the app's `urls.py` is neither the settings module nor the main URL module |
| GenerateCrud.GenerationLeavesProject | base/management/commands/generatecrud.py:63-77 | a run leaves settings and main URLs untouched, because it stops at `generate_admin` |
| GenerateCrud.GenerationWritesUrls | base/management/commands/generatecrud.py:70 | with overwrite, the app's `urls.py` is the generated text |
| GenerateCrud.GenerateCrudCommand.Handle | base/management/commands/generatecrud.py:30-71 | the ending is `EndingOf(GenerateOutcome(...))`; a `CommandError` changes nothing; otherwise the run ends at `generate_admin` with the generated files and the three package directories written |
| CreateApp.Next | base/management/commands/createapp.py:106 | one console line: the next answer, or "" at the end of input |
| CreateApp.YesNoAnswers | base/management/commands/createapp.py:108-114 | a blank answer gives the default; any other is yes iff it strips and lower-cases to y or yes |
| CreateApp.YesNoNormalForm | base/management/commands/createapp.py:111-114 | the answer depends only on its stripped lower-cased form |
| CreateApp.ModelName | base/management/commands/createapp.py:127-132 | an accepted name is an identifier of the same length |
| CreateApp.ModelNameNormalises | base/management/commands/createapp.py:127-132 | accepted iff an identifier; the result equals the input ignoring case and does not start lower-case; a capitalised identifier is kept as is |
| CreateApp.ModelNameIdempotent | base/management/commands/createapp.py:127-132 | normalising an accepted name again changes nothing |
| CreateApp.CapitalizeKeepsWord | base/management/commands/createapp.py:127-130 | a capitalised name is an identifier iff the original is |
| CreateApp.CapitalizeKeepsLower | base/management/commands/createapp.py:128 | capitalising changes no letter apart from its case |
| CreateApp.MenuEntry | base/management/commands/createapp.py:158-168 | a field kind is chosen iff the answer is one digit 1-9 |
| CreateApp.MenuEntriesDistinct | base/management/commands/createapp.py:158-168 | different menu answers choose different field kinds |
| CreateApp.Join | base/management/commands/createapp.py:209 | joining one part gives that part |
| CreateApp.FieldParams | base/management/commands/createapp.py:200-209 | a non-nullable field keeps the kind's default parameters |
| CreateApp.FieldParamsNullable | base/management/commands/createapp.py:200-209 | a nullable field adds `null=True, blank=True`, after the defaults if any |
| CreateApp.FieldRound | base/management/commands/createapp.py:170-212 | a round consumes input, except the finishing blank at end of input |
| CreateApp.FieldRoundValid | base/management/commands/createapp.py:171-193 | a field that is read has an identifier name and line-free parameters |
| CreateApp.FieldsFromValid | base/management/commands/createapp.py:170-214 | every field the dialogue returns is valid |
| CreateApp.FieldsFromStep | base/management/commands/createapp.py:170-193 | finish ends the list; an invalid name or choice is skipped; a read field is prepended to the rest |
| CreateApp.FieldsLoopStep | base/management/commands/createapp.py:170-214 | one loop round keeps accumulated fields plus the remaining dialogue equal to the whole dialogue's fields |
| CreateApp.ModelRound | base/management/commands/createapp.py:122-142 | a round consumes input, except the finishing blank at end of input |
| CreateApp.ModelRoundValid | base/management/commands/createapp.py:123-132 | a named model is an identifier that does not start lower-case |
| CreateApp.ModelsFromValid | base/management/commands/createapp.py:116-142 | every model the dialogue returns is valid, fields included |
| CreateApp.ModelsFromStep | base/management/commands/createapp.py:122-142 | finish ends the list; an invalid name is skipped; a named model takes the field dialogue and is prepended |
| CreateApp.ModelsLoopStep | base/management/commands/createapp.py:121-143 | one loop round keeps accumulated models plus the remaining dialogue equal to the whole dialogue's models |
| CreateApp.DictKeys | base/management/commands/createapp.py:257 | the dictionary's keys: the same names, without duplicates |
| CreateApp.Names | base/management/commands/createapp.py:257 | the models' names in order |
| CreateApp.ModelBlockShape | base/management/commands/createapp.py:220-241 | a model block has n+14 lines: class line first, field i at line 3+i, the db_table line and `__str__` on the first field or id |
| CreateApp.ModelBlocksDeclare | base/management/commands/createapp.py:218-241 | every model's class line and field lines are in the file |
| CreateApp.ModelsFileReadsBack | base/management/commands/createapp.py:216-244 | the written `models.py` splits back into exactly its lines, so every declared class line is a line of the file |
| CreateApp.AppName | base/management/commands/createapp.py:40-42 | a non-empty option is used without reading input; otherwise one line is read |
| CreateApp.ModelDialogue | base/management/commands/createapp.py:66-83 | every run past the confirmation is a run for the chosen app, never aborted |
| CreateApp.Declared | base/management/commands/createapp.py:70-74 | the model dialogue's run is for the chosen app, never aborted |
| CreateApp.DecideOutcome | base/management/commands/createapp.py:36-53 | error iff the name is not an identifier; aborted iff the app exists and the answer is not yes; otherwise a run for that name |
| CreateApp.DialogueOutcome | base/management/commands/createapp.py:66-83 | with `--no-models` an empty models.py; a run that declared models stops at `generate_admin` with valid models |
| CreateApp.RunConfiguresApp | base/management/commands/createapp.py:62-63 | every run that goes ahead writes the app's `apps.py` |
| CreateApp.RunSettings | base/management/commands/createapp.py:85-86 | the app is registered only by runs that reach that step; a run stopped at `generate_admin` leaves settings as they were |
| CreateApp.RunModelsFile | base/management/commands/createapp.py:66-83 | models.py is the empty template, the declared models' text, or left as it was when no model was declared |
| CreateApp.Console.Input | base/management/commands/createapp.py:106 | returns the next answer and consumes it |
| CreateApp.CreateAppCommand.GetInput | base/management/commands/createapp.py:104-106 | the next answer, stripped |
| CreateApp.CreateAppCommand.GetYesNo | base/management/commands/createapp.py:108-114 | the yes/no reading of the next answer |
| CreateApp.CreateAppCommand.GetModelFields | base/management/commands/createapp.py:152-214 | the loop's fields and the remaining input are `FieldsFrom` of the input |
| CreateApp.CreateAppCommand.ReadFieldRound | base/management/commands/createapp.py:170-212 | one round of the field loop, as `FieldRound` |
| CreateApp.CreateAppCommand.CreateModelsInteractively | base/management/commands/createapp.py:116-150 | models are `ModelsFrom` of the input; models.py is written iff some model was declared |
| CreateApp.CreateAppCommand.ReadModels | base/management/commands/createapp.py:121-143 | the loop's models and the remaining input are `ModelsFrom` of the input |
| CreateApp.CreateAppCommand.ReadModelRound | base/management/commands/createapp.py:122-142 | one round of the model loop, as `ModelRound` |
| CreateApp.CreateAppCommand.GenerateCrud | base/management/commands/createapp.py:247-267 | the CRUD layers of the distinct model names are written with overwrite, up to `generate_admin` |
| CreateApp.CreateAppCommand.Handle | base/management/commands/createapp.py:36-102 | result and remaining input are `Decide`; an error changes nothing; otherwise files and directories follow the run |
| CreateApp.CreateAppCommand.Confirm | base/management/commands/createapp.py:47-53 | asks only when the app exists, and goes ahead on yes |
| CreateApp.CreateAppCommand.Build | base/management/commands/createapp.py:55-90 | the run is the model dialogue's; files and directories follow it |
| CreateApp.CreateAppCommand.ModelStep | base/management/commands/createapp.py:65-83 | asks whether to create models unless `--no-models`; files follow the run |
| CreateApp.CreateAppCommand.DeclareModels | base/management/commands/createapp.py:70-74 | declared models lead to the CRUD generation; none leaves the files as they were |
| CreateApp.CreateAppCommand.ScaffoldApp | base/management/commands/createapp.py:55-63 | creates `apps/<app>` with `__init__.py` and `apps.py` |
| CreateApp.BuildModelsFile | base/management/commands/createapp.py:216-244 | the loop-built text is the specified lines joined |
| CreateApp.AppendModel | base/management/commands/createapp.py:220-241 | appends one model block |
| CreateApp.AppendHead | base/management/commands/createapp.py:221-222 | appends the class and docstring lines |
| CreateApp.AppendFields | base/management/commands/createapp.py:225-227 | the field loop appends one line per field |
| CreateApp.AppendTail | base/management/commands/createapp.py:229-241 | appends timestamps, Meta and `__str__` |
| CreateApp.AppendTimestamps | base/management/commands/createapp.py:229-231 | appends the two timestamp fields |
| CreateApp.AppendMeta | base/management/commands/createapp.py:233-236 | appends the Meta class with `<app>_<model>` table and ordering |
| CreateApp.AppendStr | base/management/commands/createapp.py:238-241 | appends `__str__` on the first field, or id |
| Common.Lower | base/management/commands/createapp.py:111 | lower-cases every character and keeps the length |
| Common.Upper | apps/authentication/ratelimit.py:139 | upper-cases every character and keeps the length |
| Common.LowerIdempotent | base/management/commands/createapp.py:111 | lower-casing twice equals once |
| Common.Capitalize | base/management/commands/createapp.py:128 | first character upper-cased, the rest lower-cased |
| Common.Strip | base/management/commands/createapp.py:106 | no surrounding whitespace is left |
| Common.StripIsStripped | base/management/commands/createapp.py:106 | the result is the input with only whitespace removed from its two ends |
| Common.StripEmptyIffBlank | base/management/commands/createapp.py:112 | stripping gives "" iff the text is all whitespace |
| Common.TrimStart | base/management/commands/createapp.py:106 | removes exactly the leading whitespace |
| Common.TrimEnd | base/management/commands/createapp.py:106 | removes exactly the trailing whitespace |
| Common.ParseInt | apps/authentication/ratelimit.py:127 | a number is read only from non-blank text |
| Common.ParseIntNatToString | apps/authentication/ratelimit.py:127 | `int()` reads back every decimal numeral |
| Common.ReplaceAllAbsent | base/management/commands/createcrud.py:420-424 | replacing an absent pattern changes nothing |
| Common.BeforeFirst | apps/authentication/ratelimit.py:34 | the text before the first separator, with no separator in it |
| Common.Take | apps/authentication/ratelimit.py:52 | the first n characters, or all of a shorter text |

## Left out

- **Hashing and randomness are parameters.** The key functions take SHA-256 as a digest function, and the modelled digest prefix is its first 16 characters. Token values from `secrets.token_urlsafe` are passed in.
- **E-mail uniqueness is assumed.** The user model is not part of this model. The unique constraint on e-mail is modelled as registration failing, with no change, when the e-mail is taken.
- **Token validity is a parameter.** A token's `is_valid()` is a predicate on (token, now) (the token model is not part of this model). The single-use lemmas assume only that it rejects used tokens.
- **Password hashes are not modelled.** Passwords are stored as given, and `check_password` is equality.
- **LoginView and CurrentUserView are left out.** They need JWT issuing and user serialisation, which are not part of this model. Login validation itself is modelled in `Serializers.LoginValidate`.
- **The views' e-mails stop at the e-mail service's door.** A view records, in its outbox, each e-mail the e-mail service accepted. Whether the service raises is decided by `EmailService.Compose` and `EmailService.ProviderFor` on the mail configuration passed to the view. The log row the service then writes, and the provider's own answer, belong to `EmailService` and are not threaded through the views.
- **Logout's token parsing is a parameter.** Whether a refresh token is well formed and unexpired is the predicate `parses`. The blacklist is a set of token strings, not the outstanding-token table keyed by the token's `jti`, so two different strings that carry the same `jti` are not identified.
- **The throttle base classes are abstracted.** `ParseThrottleRate` models the framework's `parse_rate`. It reads the unit by its first letter, and a rate without `/` or with an unknown unit reads as none. The framework's throttle history and timing are not part of this model; only the cache key and rate choice are.
- **The cache is a map with absolute expiry.** An entry whose expiry is at or before `now` is missing. Cache back-end races between reading and incrementing are not modelled.
- **String handling is ASCII only.** `str.lower`, `upper`, `capitalize`, `strip`, `isspace` and `isidentifier`, and `\s` in the regular expressions, are modelled on ASCII only. `int()` accepts optional whitespace and sign with decimal digits, but no underscores.
- **The missing `generate_admin` method.** `createapp` (createapp.py:267) and `generatecrud` (generatecrud.py:71) call `generate_admin`, which the `createcrud` command does not define. A run that generates CRUD code therefore stops there, after the URL step, with an AttributeError. The model ends such runs at that point: `CreateApp` runs end in `AdminMissing`, and so do `generatecrud` runs (`GenerateCrud.AdminMissing`), after `GenerateUrls`. The steps after the call are not modelled for these runs (app registration, main URL routing, final messages).
- **Providers, Celery tasks and settings loading are left out.** Providers become a transport function from (provider, message) to a result. Settings become record parameters with the source's defaults.
- **Two defaults for the site name.** The receiver defaults `site_name` to 'Django App' and the e-mail service to 'Your App'. Both defaults are modelled as written.
- **Receiver inputs are simplified.** A missing `context` is modelled as an empty map, and `context=None` passed explicitly is not modelled. Logger output is a list of outcome records, not text.
- **The AST is reduced.** Only class definitions and their bases are kept, plus a generic node with children. Other expression kinds are collapsed into one.
- **Generated module bodies are a parameter.** The serializer, viewset and service module texts come from `Render`. Only where they are written and when they are kept is modelled.
- **Console I/O is a sequence of answers.** At end of input the source's `input()` raises EOFError (createapp.py:106); the model reads it as "" instead. Prompts and stdout messages are not modelled.
- EmailService.Mailer.SendTemplateEmail: the `from_email` and `from_name` overrides (email_service.py:134-135) are not modelled; the default sender is always used, since no caller in the modelled core passes them.
- **Filesystem errors are not modelled.** Directory-creation errors (for instance a file already at `apps/<name>`) and permission problems are left out.
- **`re.sub` replaces every match.** It is modelled as replacing every non-overlapping match, left to right.
- **`create_models_interactively` returns `[]`.** It returns `None` when no model was declared. The model returns `[]`, which the caller treats the same way.
