/** The generic e-mail signal: which template and subject each action sends,
    and whether the action sends anything at all. */
module EmailSignals {
  import opened Common

  /** The dictionary `get_email_config_for_action` returns. */
  datatype EmailConfig = EmailConfig(templateName: Option<string>, subject: Option<string>, enabled: bool)

  const UserRegisteredAction := "user_registered"
  const PasswordResetAction := "password_reset"
  const EmailVerifiedAction := "email_verified"
  const PasswordChangedAction := "password_changed"
  const CustomAction := "custom"

  /** The actions the signal knows about. */
  const Configs: map<string, EmailConfig> := map[
    UserRegisteredAction := EmailConfig(Some("emails/verify_email.html"), Some("Verify your email address"), true),
    PasswordResetAction := EmailConfig(Some("emails/password_reset.html"), Some("Reset your password"), true),
    EmailVerifiedAction := EmailConfig(Some("emails/welcome.html"), Some("Welcome to our platform!"), true),
    PasswordChangedAction := EmailConfig(Some("emails/password_changed.html"), Some("Your password was changed"), true),
    CustomAction := EmailConfig(None, None, true)
  ]

  /** What an action outside the table gets. */
  const Unknown := EmailConfig(None, None, false)

  /** `get_email_config_for_action`. */
  function ConfigForAction(action: string): (c: EmailConfig)
    ensures c.enabled <==> action in Configs
    ensures action in Configs ==> c == Configs[action]
    ensures action !in Configs ==> c == Unknown
  {
    if action in Configs then Configs[action] else Unknown
  }

  /** The actions that send a mail, and only those. */
  lemma EnabledActions(action: string)
    ensures ConfigForAction(action).enabled <==>
      action in {UserRegisteredAction, PasswordResetAction, EmailVerifiedAction, PasswordChangedAction, CustomAction}
  {
  }

  /** Every enabled action other than "custom" names both a template and a
      subject; "custom" and the unknown actions name neither. */
  lemma ConfiguredActionsAreComplete(action: string)
    ensures var c := ConfigForAction(action);
      (c.templateName.Some? <==> action in Configs && action != CustomAction)
      && (c.subject.Some? <==> c.templateName.Some?)
  {
  }
}
