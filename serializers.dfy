/** The validation steps of the authentication serializers. Validated data
    is a dictionary from field name to value; an error is either tied to a
    field or, when raised with a bare message, rendered under
    "non_field_errors" the way the REST framework renders it. */
module Serializers {
  import opened Common

  datatype Value = Text(text: string) | UserRef(id: nat)

  type Attrs = map<string, Value>

  datatype ValidationError = FieldError(field: string, message: string) | NonFieldError(message: string)

  /** `serializer.errors`: one message per field name. */
  type Errors = map<string, string>

  const NonFieldKey := "non_field_errors"
  const PasswordsDontMatch := "Passwords don't match"
  const InvalidCredentials := "Invalid credentials"
  const AccountDisabled := "Account is disabled"
  const MissingCredentials := "Must include email and password"
  const OldPasswordIncorrect := "Old password is incorrect"

  /** How a raised error appears in `serializer.errors`. */
  function Rendered(e: ValidationError): (errs: Errors)
    ensures |errs| == 1
    ensures e.FieldError? ==> e.field in errs && errs[e.field] == e.message
    ensures e.NonFieldError? ==> NonFieldKey in errs && errs[NonFieldKey] == e.message
  {
    match e
    case FieldError(f, m) => map[f := m]
    case NonFieldError(m) => map[NonFieldKey := m]
  }

  /** `attrs.get(key)` is a non-empty string. */
  predicate HasText(attrs: Attrs, key: string) {
    key in attrs && attrs[key].Text? && attrs[key].text != ""
  }

  /** The `validate` of the register, change-password and reset-password
      serializers, which all make one check: an error on `field` when it
      differs from `confirm`, the attributes unchanged otherwise. Register
      compares "password" with "password_confirm", the other two
      "new_password" with "new_password_confirm". */
  function MatchFields(attrs: Attrs, field: string, confirm: string): (r: Result<Attrs, ValidationError>)
    requires field in attrs && confirm in attrs
    ensures r.Ok? <==> attrs[field] == attrs[confirm]
    ensures r.Ok? ==> r.value == attrs
    ensures r.Err? ==> r.error == FieldError(field, PasswordsDontMatch)
    ensures r.Err? ==> Rendered(r.error) == map[field := PasswordsDontMatch]
  {
    if attrs[field] != attrs[confirm] then Err(FieldError(field, PasswordsDontMatch)) else Ok(attrs)
  }

  /** `RegisterSerializer.create`: the keyword arguments handed to
      `create_user` once `password_confirm` has been popped. */
  function CreateUserArgs(validated: Attrs): (args: Attrs)
    requires "password_confirm" in validated
    ensures "password_confirm" !in args
    ensures args.Keys == validated.Keys - {"password_confirm"}
    ensures forall k :: k in args ==> args[k] == validated[k]
  {
    validated - {"password_confirm"}
  }

  /** What `authenticate` returns: the matching account and whether it is active. */
  datatype Account = Account(id: nat, active: bool)

  /** `LoginSerializer.validate`; `authenticate` is the framework's check of
      an address and a password. */
  function LoginValidate(attrs: Attrs, authenticate: (string, string) -> Option<Account>): (r: Result<Attrs, ValidationError>)
    // both values present and non-empty, or the request is refused before authenticating
    ensures !(HasText(attrs, "email") && HasText(attrs, "password")) ==> r == Err(NonFieldError(MissingCredentials))
    ensures HasText(attrs, "email") && HasText(attrs, "password") ==>
      var found := authenticate(attrs["email"].text, attrs["password"].text);
      && (found.None? ==> r == Err(NonFieldError(InvalidCredentials)))
      && (found.Some? && !found.value.active ==> r == Err(NonFieldError(AccountDisabled)))
      && (found.Some? && found.value.active ==> r == Ok(attrs["user" := UserRef(found.value.id)]))
  {
    if HasText(attrs, "email") && HasText(attrs, "password") then
      match authenticate(attrs["email"].text, attrs["password"].text)
      case None => Err(NonFieldError(InvalidCredentials))
      case Some(account) =>
        if !account.active then Err(NonFieldError(AccountDisabled))
        else Ok(attrs["user" := UserRef(account.id)])
    else Err(NonFieldError(MissingCredentials))
  }

  /** A successful login only adds the user to what was submitted. */
  lemma LoginAddsOnlyUser(attrs: Attrs, authenticate: (string, string) -> Option<Account>)
    requires LoginValidate(attrs, authenticate).Ok?
    ensures var v := LoginValidate(attrs, authenticate).value;
      && v.Keys == attrs.Keys + {"user"}
      && v["user"].UserRef?
      && (forall k :: k in attrs && k != "user" ==> v[k] == attrs[k])
  {
  }

  /** `ChangePasswordSerializer.validate_old_password` against the password
      of the requesting user. */
  function ValidateOldPassword(value: string, current: string): (r: Result<string, ValidationError>)
    ensures r.Ok? <==> value == current
    ensures r.Ok? ==> r.value == value
    ensures r.Err? ==> r.error == FieldError("old_password", OldPasswordIncorrect)
  {
    if value != current then Err(FieldError("old_password", OldPasswordIncorrect)) else Ok(value)
  }

  // ---------------------------------------------------------------------------
  // `is_valid()`: the field checks first, then `validate`

  /** `is_valid()` for a serializer whose `validate` gave `validated`, after
      the framework's per-field checks (required, e-mail format, password
      strength) reported `fieldErrors`; `validate` is reached only when
      those found nothing. */
  function IsValid(fieldErrors: Errors, validated: Result<Attrs, ValidationError>): (r: Result<Attrs, Errors>)
    ensures fieldErrors != map[] ==> r == Err(fieldErrors)
    ensures fieldErrors == map[] && validated.Ok? ==> r == Ok(validated.value)
    ensures fieldErrors == map[] && validated.Err? ==> r == Err(Rendered(validated.error))
  {
    if fieldErrors != map[] then Err(fieldErrors)
    else match validated
      case Ok(v) => Ok(v)
      case Err(e) => Err(Rendered(e))
  }

  /** The required fields of a serializer are present, as strings, once its
      per-field checks have passed. */
  predicate Present(fieldErrors: Errors, attrs: Attrs, fields: set<string>) {
    fieldErrors == map[] ==> forall f :: f in fields ==> f in attrs && attrs[f].Text?
  }

  /** `validated_data.get(key, default)` for a string field. */
  function TextOr(attrs: Attrs, key: string, default: string): string {
    if key in attrs && attrs[key].Text? then attrs[key].text else default
  }

  /** `is_valid()` of `RegisterSerializer`. */
  function RegisterIsValid(fieldErrors: Errors, attrs: Attrs): Result<Attrs, Errors>
    requires Present(fieldErrors, attrs, {"email", "password", "password_confirm"})
  {
    if fieldErrors != map[] then Err(fieldErrors)
    else IsValid(fieldErrors, MatchFields(attrs, "password", "password_confirm"))
  }

  /** `is_valid()` of `ResetPasswordSerializer`. */
  function ResetPasswordIsValid(fieldErrors: Errors, attrs: Attrs): Result<Attrs, Errors>
    requires Present(fieldErrors, attrs, {"token", "new_password", "new_password_confirm"})
  {
    if fieldErrors != map[] then Err(fieldErrors)
    else IsValid(fieldErrors, MatchFields(attrs, "new_password", "new_password_confirm"))
  }

  /** `is_valid()` of `ChangePasswordSerializer`: `validate_old_password`
      runs with the per-field checks, for a submitted `old_password` that
      passed them; its error is filed under that field. */
  function ChangePasswordIsValid(fieldErrors: Errors, attrs: Attrs, current: string): (r: Result<Attrs, Errors>)
    requires Present(fieldErrors, attrs, {"old_password", "new_password", "new_password_confirm"})
  {
    var oldOk :=
      "old_password" !in fieldErrors && "old_password" in attrs && attrs["old_password"].Text?
      && ValidateOldPassword(attrs["old_password"].text, current).Ok?;
    var errs :=
      if "old_password" in fieldErrors || "old_password" !in attrs || oldOk then fieldErrors
      else fieldErrors["old_password" := OldPasswordIncorrect];
    if errs != map[] then Err(errs) else IsValid(errs, MatchFields(attrs, "new_password", "new_password_confirm"))
  }

  /** A change-password request passes validation exactly when the per-field
      checks pass, the old password is the user's current one and the two
      new passwords agree. */
  lemma ChangePasswordValidIff(fieldErrors: Errors, attrs: Attrs, current: string)
    requires Present(fieldErrors, attrs, {"old_password", "new_password", "new_password_confirm"})
    ensures ChangePasswordIsValid(fieldErrors, attrs, current).Ok? <==>
      && fieldErrors == map[]
      && attrs["old_password"] == Text(current)
      && attrs["new_password"] == attrs["new_password_confirm"]
  {
    var r := ChangePasswordIsValid(fieldErrors, attrs, current);
    if fieldErrors == map[] && attrs["old_password"] != Text(current) {
      assert "old_password" in r.error;
    }
  }
}
