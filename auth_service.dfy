/** The authentication service: users, e-mail verification tokens and
    password-reset tokens, and the single-use token lifecycle over them.

    Each operation of `AuthService` is modelled as one step on the tables.
    In auth_service.py, registering, verifying, resetting and changing a
    password run in a transaction, while creating a verification or a reset
    token does not; the difference shows only under concurrent requests,
    which are not modelled. Each operation is given twice:
    as a transition function on a snapshot `Db` of the three tables (the
    specification, about which the lemmas speak), and as a method of
    `AuthStore`, whose fields are the tables and whose methods are proved
    to make exactly that transition. */
module AuthService {
  import opened Common

  /** A user row; `id` is the position in the user table. `password` stands
      for whatever `set_password` stored: `check_password(p)` holds exactly
      when `p` is the password last set. */
  datatype User = User(email: string, password: string, firstName: string, lastName: string, verified: bool)

  /** A row of either token table. */
  datatype Token = Token(value: string, owner: nat, expiresAt: int, used: bool)

  datatype Db = Db(users: seq<User>, verifications: seq<Token>, resets: seq<Token>)

  /** A transition's new tables together with what the operation returns. */
  datatype Outcome<T> = Outcome(db: Db, result: T)

  /** `token.is_valid()` at a given instant; its definition is not part of
      this model. */
  type Validity = (Token, int) -> bool

  /** What a single-use token check must at least do: reject a used token. */
  ghost predicate RejectsUsed(valid: Validity) {
    forall t: Token, now: int :: valid(t, now) ==> !t.used
  }

  const VerificationLifetime := 24 * 3600
  const ResetLifetime := 3600

  const InvalidToken := "Invalid token"
  const InvalidOrExpired := "Token is invalid or expired"
  const EmailVerified := "Email verified successfully"
  const PasswordWasReset := "Password reset successfully"
  const WrongOldPassword := "Old password is incorrect"
  const PasswordChanged := "Password changed successfully"

  // ---------------------------------------------------------------------------
  // Lookups and table invariants

  /** `objects.get(token=value)`: the row carrying `value`, if any. */
  function FindToken(ts: seq<Token>, value: string): (r: Option<nat>)
    ensures r.Some? ==> r.value < |ts| && ts[r.value].value == value
    ensures r.Some? ==> forall j :: 0 <= j < r.value ==> ts[j].value != value
    ensures r.None? ==> forall j :: 0 <= j < |ts| ==> ts[j].value != value
  {
    if ts == [] then None
    else if ts[0].value == value then Some(0)
    else match FindToken(ts[1..], value)
      case None => None
      case Some(k) => Some(k + 1)
  }

  /** `User.objects.get(email=email)`: the id of the user with that address. */
  function FindUser(users: seq<User>, email: string): (r: Option<nat>)
    ensures r.Some? ==> r.value < |users| && users[r.value].email == email
    ensures r.Some? ==> forall j :: 0 <= j < r.value ==> users[j].email != email
    ensures r.None? ==> forall j :: 0 <= j < |users| ==> users[j].email != email
  {
    if users == [] then None
    else if users[0].email == email then Some(0)
    else match FindUser(users[1..], email)
      case None => None
      case Some(k) => Some(k + 1)
  }

  /** Token values are unique within a table and every token belongs to an
      existing user. */
  predicate WellFormedTokens(ts: seq<Token>, userCount: nat) {
    && (forall i :: 0 <= i < |ts| ==> ts[i].owner < userCount)
    && (forall i, j :: 0 <= i < j < |ts| ==> ts[i].value != ts[j].value)
  }

  /** The database constraints the service relies on: unique e-mail
      addresses, unique token values, and tokens that point at users. */
  predicate Valid(db: Db) {
    && (forall i, j :: 0 <= i < j < |db.users| ==> db.users[i].email != db.users[j].email)
    && WellFormedTokens(db.verifications, |db.users|)
    && WellFormedTokens(db.resets, |db.users|)
  }

  /** Whether some row of `ts` carries `value`. */
  predicate Issued(ts: seq<Token>, value: string) {
    exists i :: 0 <= i < |ts| && ts[i].value == value
  }

  /** Two tables with the same values in the same places find the same row. */
  lemma FindTokenByValues(a: seq<Token>, b: seq<Token>, value: string)
    requires |a| == |b| && forall i :: 0 <= i < |a| ==> a[i].value == b[i].value
    ensures FindToken(a, value) == FindToken(b, value)
  {
  }

  // ---------------------------------------------------------------------------
  // Counting and retiring tokens

  /** Unused tokens of user `u`. */
  function UnusedOf(ts: seq<Token>, u: nat): nat {
    if ts == [] then 0
    else UnusedOf(ts[..|ts| - 1], u) + (if ts[|ts| - 1].owner == u && !ts[|ts| - 1].used then 1 else 0)
  }

  /** Tokens of user `u`, used or not. */
  function OwnedBy(ts: seq<Token>, u: nat): nat {
    if ts == [] then 0
    else OwnedBy(ts[..|ts| - 1], u) + (if ts[|ts| - 1].owner == u then 1 else 0)
  }

  /** One row of the bulk `filter(user=u, is_used=False).update(is_used=True)`. */
  function RetireOne(t: Token, u: nat): Token {
    if t.owner == u && !t.used then t.(used := true) else t
  }

  /** The bulk update over a whole table. */
  function Retire(ts: seq<Token>, u: nat): (r: seq<Token>)
    ensures |r| == |ts|
    ensures forall i :: 0 <= i < |ts| ==> r[i] == RetireOne(ts[i], u)
  {
    seq(|ts|, i requires 0 <= i < |ts| => RetireOne(ts[i], u))
  }

  lemma {:induction false} UnusedOfAppend(ts: seq<Token>, t: Token, u: nat)
    ensures UnusedOf(ts + [t], u) == UnusedOf(ts, u) + (if t.owner == u && !t.used then 1 else 0)
  {
    assert (ts + [t])[..|ts|] == ts;
  }

  /** After the bulk update user `u` has no unused token left. */
  lemma {:induction false} RetireLeavesNoneUnused(ts: seq<Token>, u: nat)
    ensures UnusedOf(Retire(ts, u), u) == 0
  {
    if ts != [] {
      var n := |ts| - 1;
      assert Retire(ts, u)[..n] == Retire(ts[..n], u);
      RetireLeavesNoneUnused(ts[..n], u);
    }
  }

  /** The bulk update does not change any other user's count of unused tokens. */
  lemma {:induction false} RetireKeepsOthers(ts: seq<Token>, u: nat, v: nat)
    requires v != u
    ensures UnusedOf(Retire(ts, u), v) == UnusedOf(ts, v)
  {
    if ts != [] {
      var n := |ts| - 1;
      assert Retire(ts, u)[..n] == Retire(ts[..n], u);
      RetireKeepsOthers(ts[..n], u, v);
    }
  }

  /** A table whose tokens all belong to users below `bound` holds none of
      user `bound`. */
  lemma {:induction false} NoneOwnedBeyond(ts: seq<Token>, bound: nat)
    requires forall i :: 0 <= i < |ts| ==> ts[i].owner < bound
    ensures OwnedBy(ts, bound) == 0
  {
    if ts != [] {
      NoneOwnedBeyond(ts[..|ts| - 1], bound);
    }
  }

  // ---------------------------------------------------------------------------
  // The operations, as transitions

  datatype RegisterError = EmailTaken

  /** `create_verification_token`: a new unused token valid for 24 hours. */
  function CreateVerification(db: Db, uid: nat, value: string, now: int): Outcome<Token> {
    var t := Token(value, uid, now + VerificationLifetime, false);
    Outcome(db.(verifications := db.verifications + [t]), t)
  }

  /** `register_user`: a new user, verified exactly when auto-verification is
      on, and its verification token, already used in that case. An address
      that is taken makes `create_user` fail and the transaction roll back. */
  function Register(db: Db, email: string, password: string, firstName: string, lastName: string,
                    autoVerify: bool, value: string, now: int): Outcome<Result<(nat, Token), RegisterError>>
  {
    if FindUser(db.users, email).Some? then Outcome(db, Err(EmailTaken))
    else
      var uid := |db.users|;
      var withUser := db.(users := db.users + [User(email, password, firstName, lastName, autoVerify)]);
      var created := CreateVerification(withUser, uid, value, now);
      var t := created.result.(used := autoVerify);
      Outcome(created.db.(verifications := withUser.verifications + [t]), Ok((uid, t)))
  }

  /** `verify_email`. */
  function VerifyEmail(db: Db, value: string, valid: Validity, now: int): Outcome<(bool, string)>
    requires Valid(db)
  {
    match FindToken(db.verifications, value)
    case None => Outcome(db, (false, InvalidToken))
    case Some(i) =>
      var t := db.verifications[i];
      if !valid(t, now) then Outcome(db, (false, InvalidOrExpired))
      else
        var users := db.users[t.owner := db.users[t.owner].(verified := true)];
        Outcome(Db(users, db.verifications[i := t.(used := true)], db.resets), (true, EmailVerified))
  }

  /** `create_password_reset_token`: nothing for an unknown address; otherwise
      every unused reset token of the user is retired and a new one, valid
      for one hour, is added. */
  function CreateReset(db: Db, email: string, value: string, now: int): Outcome<Option<Token>> {
    match FindUser(db.users, email)
    case None => Outcome(db, None)
    case Some(uid) =>
      var t := Token(value, uid, now + ResetLifetime, false);
      Outcome(db.(resets := Retire(db.resets, uid) + [t]), Some(t))
  }

  /** `reset_password`. */
  function ResetPassword(db: Db, value: string, newPassword: string, valid: Validity, now: int): Outcome<(bool, string)>
    requires Valid(db)
  {
    match FindToken(db.resets, value)
    case None => Outcome(db, (false, InvalidToken))
    case Some(i) =>
      var t := db.resets[i];
      if !valid(t, now) then Outcome(db, (false, InvalidOrExpired))
      else
        var users := db.users[t.owner := db.users[t.owner].(password := newPassword)];
        var resets := Retire(db.resets[i := t.(used := true)], t.owner);
        Outcome(Db(users, db.verifications, resets), (true, PasswordWasReset))
  }

  /** `change_password` for the user with id `uid`. */
  function ChangePassword(db: Db, uid: nat, current: string, replacement: string): Outcome<(bool, string)>
    requires uid < |db.users|
  {
    if db.users[uid].password != current then Outcome(db, (false, WrongOldPassword))
    else Outcome(db.(users := db.users[uid := db.users[uid].(password := replacement)]), (true, PasswordChanged))
  }

  // ---------------------------------------------------------------------------
  // What the transitions promise

  /** A new verification token is unused, expires 24 hours from now, and the
      existing tokens are left as they were. */
  lemma CreateVerificationAppends(db: Db, uid: nat, value: string, now: int)
    ensures var o := CreateVerification(db, uid, value, now);
      && o.db.users == db.users && o.db.resets == db.resets
      && o.db.verifications[..|db.verifications|] == db.verifications
      && |o.db.verifications| == |db.verifications| + 1
      && o.db.verifications[|db.verifications|] == o.result
      && o.result.value == value && o.result.owner == uid
      && !o.result.used && o.result.expiresAt == now + 86400
  {
    var o := CreateVerification(db, uid, value, now);
    assert o.db.verifications[..|db.verifications|] == db.verifications;
  }

  /** A registration on a taken address changes nothing. Otherwise the new
      user is verified exactly when auto-verification is on and owns exactly
      one verification token, which is used exactly in that case. */
  lemma {:induction false} RegisterIssuesOneToken(db: Db, email: string, password: string, firstName: string,
                                                  lastName: string, autoVerify: bool, value: string, now: int)
    requires Valid(db)
    ensures var o := Register(db, email, password, firstName, lastName, autoVerify, value, now);
      && (FindUser(db.users, email).Some? <==> o.result.Err?)
      && (o.result.Err? ==> o.db == db)
      && (o.result.Ok? ==>
            var (uid, t) := o.result.value;
            && uid == |db.users| && |o.db.users| == uid + 1
            && o.db.users[..uid] == db.users
            && o.db.users[uid] == User(email, password, firstName, lastName, autoVerify)
            && OwnedBy(o.db.verifications, uid) == 1
            && o.db.verifications == db.verifications + [t]
            && t.used == autoVerify && t.owner == uid && t.value == value
            && t.expiresAt == now + VerificationLifetime
            && o.db.resets == db.resets)
  {
    var o := Register(db, email, password, firstName, lastName, autoVerify, value, now);
    if o.result.Ok? {
      var uid := |db.users|;
      var t := o.result.value.1;
      NoneOwnedBeyond(db.verifications, uid);
      assert (db.verifications + [t])[..|db.verifications|] == db.verifications;
      assert o.db.users[..uid] == db.users;
    }
  }

  /** `verify_email` fails without touching anything for an unknown token or
      one that is not valid now; on success exactly the token's user becomes
      verified and exactly that token becomes used. */
  lemma VerifyEmailEffect(db: Db, value: string, valid: Validity, now: int)
    requires Valid(db)
    ensures var o := VerifyEmail(db, value, valid, now);
      && (!Issued(db.verifications, value) ==> o == Outcome(db, (false, InvalidToken)))
      && (Issued(db.verifications, value) ==>
            var i := FindToken(db.verifications, value).value;
            var t := db.verifications[i];
            && (!valid(t, now) ==> o == Outcome(db, (false, InvalidOrExpired)))
            && (valid(t, now) ==>
                  && o.result == (true, EmailVerified)
                  && |o.db.users| == |db.users|
                  && o.db.users[t.owner].verified
                  && o.db.users[t.owner] == db.users[t.owner].(verified := true)
                  && (forall k :: 0 <= k < |db.users| && k != t.owner ==> o.db.users[k] == db.users[k])
                  && o.db.verifications == db.verifications[i := t.(used := true)]
                  && o.db.resets == db.resets))
  {
  }

  /** Once a verification token has been used successfully, presenting it a
      second time fails, as long as validity rejects used tokens. */
  lemma VerifyEmailSingleUse(db: Db, value: string, valid: Validity, now: int, later: int)
    requires Valid(db) && RejectsUsed(valid)
    requires VerifyEmail(db, value, valid, now).result.0
    ensures Valid(VerifyEmail(db, value, valid, now).db)
    ensures VerifyEmail(VerifyEmail(db, value, valid, now).db, value, valid, later).result == (false, InvalidOrExpired)
  {
    var o := VerifyEmail(db, value, valid, now);
    FindTokenByValues(db.verifications, o.db.verifications, value);
  }

  /** For an unknown address nothing changes and nothing is returned.
      Otherwise the user ends up with exactly one unused reset token, the new
      one, which expires in an hour; other users' tokens are untouched. */
  lemma {:induction false} CreateResetLeavesOne(db: Db, email: string, value: string, now: int)
    ensures var o := CreateReset(db, email, value, now);
      && (FindUser(db.users, email).None? <==> o.result.None?)
      && (o.result.None? ==> o.db == db)
      && (o.result.Some? ==>
            var uid := FindUser(db.users, email).value;
            var t := o.result.value;
            && t == Token(value, uid, now + ResetLifetime, false)
            && UnusedOf(o.db.resets, uid) == 1
            && |o.db.resets| == |db.resets| + 1 && o.db.resets[|db.resets|] == t
            && (forall i :: 0 <= i < |db.resets| && db.resets[i].owner != uid ==> o.db.resets[i] == db.resets[i])
            && (forall v :: v != uid ==> UnusedOf(o.db.resets, v) == UnusedOf(db.resets, v))
            && o.db.users == db.users && o.db.verifications == db.verifications)
  {
    var o := CreateReset(db, email, value, now);
    if o.result.Some? {
      var uid := FindUser(db.users, email).value;
      var t := o.result.value;
      RetireLeavesNoneUnused(db.resets, uid);
      UnusedOfAppend(Retire(db.resets, uid), t, uid);
      forall v | v != uid
        ensures UnusedOf(o.db.resets, v) == UnusedOf(db.resets, v)
      {
        UnusedOfAppend(Retire(db.resets, uid), t, v);
        RetireKeepsOthers(db.resets, uid, v);
      }
    }
  }

  /** `reset_password` fails without touching anything for an unknown token
      or one that is not valid now. On success the token's user gets the new
      password, that user has no unused reset token left, and every other
      user's reset tokens and the verification tokens are untouched. */
  lemma {:induction false} ResetPasswordEffect(db: Db, value: string, newPassword: string, valid: Validity, now: int)
    requires Valid(db)
    ensures var o := ResetPassword(db, value, newPassword, valid, now);
      && (!Issued(db.resets, value) ==> o == Outcome(db, (false, InvalidToken)))
      && (Issued(db.resets, value) ==>
            var i := FindToken(db.resets, value).value;
            var t := db.resets[i];
            && (!valid(t, now) ==> o == Outcome(db, (false, InvalidOrExpired)))
            && (valid(t, now) ==>
                  && o.result == (true, PasswordWasReset)
                  && |o.db.users| == |db.users|
                  && o.db.users[t.owner] == db.users[t.owner].(password := newPassword)
                  && (forall k :: 0 <= k < |db.users| && k != t.owner ==> o.db.users[k] == db.users[k])
                  && o.db.resets[i].used
                  && UnusedOf(o.db.resets, t.owner) == 0
                  && |o.db.resets| == |db.resets|
                  && (forall k :: 0 <= k < |db.resets| && db.resets[k].owner != t.owner ==> o.db.resets[k] == db.resets[k])
                  && o.db.verifications == db.verifications))
  {
    var o := ResetPassword(db, value, newPassword, valid, now);
    if Issued(db.resets, value) {
      var i := FindToken(db.resets, value).value;
      var t := db.resets[i];
      if valid(t, now) {
        RetireLeavesNoneUnused(db.resets[i := t.(used := true)], t.owner);
      }
    }
  }

  /** A reset token works once: presenting it again fails, as long as
      validity rejects used tokens. */
  lemma ResetPasswordSingleUse(db: Db, value: string, p1: string, p2: string, valid: Validity, now: int, later: int)
    requires Valid(db) && RejectsUsed(valid)
    requires ResetPassword(db, value, p1, valid, now).result.0
    ensures Valid(ResetPassword(db, value, p1, valid, now).db)
    ensures ResetPassword(ResetPassword(db, value, p1, valid, now).db, value, p2, valid, later).result == (false, InvalidOrExpired)
  {
    var o := ResetPassword(db, value, p1, valid, now);
    var i := FindToken(db.resets, value).value;
    var t := db.resets[i];
    assert forall k :: 0 <= k < |db.resets| ==> o.db.resets[k].value == db.resets[k].value;
    FindTokenByValues(db.resets, o.db.resets, value);
    assert o.db.resets[i].used;
  }

  /** A wrong old password changes nothing; the right one replaces the
      password of that user only. */
  lemma ChangePasswordEffect(db: Db, uid: nat, current: string, replacement: string)
    requires uid < |db.users|
    ensures var o := ChangePassword(db, uid, current, replacement);
      && (o.result.0 <==> db.users[uid].password == current)
      && (!o.result.0 ==> o == Outcome(db, (false, WrongOldPassword)))
      && (o.result.0 ==>
            && o.result.1 == PasswordChanged
            && o.db.users == db.users[uid := db.users[uid].(password := replacement)]
            && o.db.verifications == db.verifications && o.db.resets == db.resets)
  {
  }

  /** Every operation keeps the database constraints, given token values
      that have not been issued before. */
  lemma {:induction false} OperationsPreserveValid(db: Db, email: string, password: string,
                                                   firstName: string, lastName: string, autoVerify: bool,
                                                   value: string, valid: Validity, now: int, uid: nat)
    requires Valid(db)
    requires !Issued(db.verifications, value) && !Issued(db.resets, value)
    ensures Valid(Register(db, email, password, firstName, lastName, autoVerify, value, now).db)
    ensures uid < |db.users| ==> Valid(CreateVerification(db, uid, value, now).db)
    ensures Valid(VerifyEmail(db, value, valid, now).db)
    ensures Valid(CreateReset(db, email, value, now).db)
    ensures Valid(ResetPassword(db, value, password, valid, now).db)
    ensures uid < |db.users| ==> Valid(ChangePassword(db, uid, email, password).db)
  {
    RegisterPreservesValid(db, email, password, firstName, lastName, autoVerify, value, now);
    CreateResetPreservesValid(db, email, value, now);
  }

  lemma RegisterPreservesValid(db: Db, email: string, password: string, firstName: string, lastName: string,
                               autoVerify: bool, value: string, now: int)
    requires Valid(db)
    requires !Issued(db.verifications, value) && !Issued(db.resets, value)
    ensures Valid(Register(db, email, password, firstName, lastName, autoVerify, value, now).db)
  {
    var r := Register(db, email, password, firstName, lastName, autoVerify, value, now);
    if r.result.Ok? {
      var u := |db.users|;
      assert r.db.users == db.users + [User(email, password, firstName, lastName, autoVerify)];
      forall i, j | 0 <= i < j < |r.db.users| ensures r.db.users[i].email != r.db.users[j].email {
        if j == u {
          assert r.db.users[i] == db.users[i];
        }
      }
    }
  }

  lemma CreateResetPreservesValid(db: Db, email: string, value: string, now: int)
    requires Valid(db)
    requires !Issued(db.resets, value)
    ensures Valid(CreateReset(db, email, value, now).db)
  {
    var c := CreateReset(db, email, value, now);
    if c.result.Some? {
      var t := c.result.value;
      assert forall i :: 0 <= i < |db.resets| ==> Retire(db.resets, t.owner)[i].value == db.resets[i].value;
    }
  }

  // ---------------------------------------------------------------------------
  // The tables, updated in place

  class AuthStore {
    var users: seq<User>
    var verifications: seq<Token>
    var resets: seq<Token>

    function State(): Db
      reads this
    {
      Db(users, verifications, resets)
    }

    constructor ()
      ensures State() == Db([], [], [])
    {
      users, verifications, resets := [], [], [];
    }

    /** `get_user_by_email` */
    function GetUserByEmail(email: string): (r: Option<nat>)
      reads this
      ensures r.Some? ==> r.value < |users| && users[r.value].email == email
      ensures r.None? ==> forall j :: 0 <= j < |users| ==> users[j].email != email
    {
      FindUser(users, email)
    }

    method CreateVerificationToken(uid: nat, value: string, now: int) returns (t: Token)
      modifies this
      ensures Outcome(State(), t) == CreateVerification(old(State()), uid, value, now)
    {
      t := Token(value, uid, now + VerificationLifetime, false);
      verifications := verifications + [t];
    }

    method RegisterUser(email: string, password: string, firstName: string, lastName: string,
                        autoVerify: bool, value: string, now: int)
      returns (r: Result<(nat, Token), RegisterError>)
      modifies this
      ensures Outcome(State(), r) == Register(old(State()), email, password, firstName, lastName, autoVerify, value, now)
    {
      if GetUserByEmail(email).Some? {
        return Err(EmailTaken);
      }
      var uid := |users|;
      users := users + [User(email, password, firstName, lastName, autoVerify)];
      var t := CreateVerificationToken(uid, value, now);
      if autoVerify {
        t := t.(used := true);
        verifications := verifications[|verifications| - 1 := t];
      }
      r := Ok((uid, t));
    }

    method VerifyEmailToken(value: string, valid: Validity, now: int) returns (ok: bool, message: string)
      requires Valid(State())
      modifies this
      ensures Outcome(State(), (ok, message)) == VerifyEmail(old(State()), value, valid, now)
    {
      var found := FindToken(verifications, value);
      if found.None? {
        return false, InvalidToken;
      }
      var i := found.value;
      var t := verifications[i];
      if !valid(t, now) {
        return false, InvalidOrExpired;
      }
      users := users[t.owner := users[t.owner].(verified := true)];
      verifications := verifications[i := t.(used := true)];
      return true, EmailVerified;
    }

    /** The bulk `filter(user=u, is_used=False).update(is_used=True)` on the
        reset table, row by row. */
    method RetireUnusedResets(u: nat)
      modifies this
      ensures resets == Retire(old(resets), u)
      ensures users == old(users) && verifications == old(verifications)
    {
      var updated: seq<Token> := [];
      var i := 0;
      while i < |resets|
        invariant 0 <= i <= |resets|
        invariant |updated| == i
        invariant forall j :: 0 <= j < i ==> updated[j] == RetireOne(resets[j], u)
      {
        updated := updated + [RetireOne(resets[i], u)];
        i := i + 1;
      }
      resets := updated;
    }

    method CreatePasswordResetToken(email: string, value: string, now: int) returns (t: Option<Token>)
      modifies this
      ensures Outcome(State(), t) == CreateReset(old(State()), email, value, now)
    {
      var found := GetUserByEmail(email);
      if found.None? {
        return None;
      }
      var uid := found.value;
      RetireUnusedResets(uid);
      var token := Token(value, uid, now + ResetLifetime, false);
      resets := resets + [token];
      return Some(token);
    }

    method ResetPasswordWithToken(value: string, newPassword: string, valid: Validity, now: int)
      returns (ok: bool, message: string)
      requires Valid(State())
      modifies this
      ensures Outcome(State(), (ok, message)) == ResetPassword(old(State()), value, newPassword, valid, now)
    {
      var found := FindToken(resets, value);
      if found.None? {
        return false, InvalidToken;
      }
      var i := found.value;
      var t := resets[i];
      if !valid(t, now) {
        return false, InvalidOrExpired;
      }
      users := users[t.owner := users[t.owner].(password := newPassword)];
      resets := resets[i := t.(used := true)];
      RetireUnusedResets(t.owner);
      return true, PasswordWasReset;
    }

    method ChangeUserPassword(uid: nat, current: string, replacement: string) returns (ok: bool, message: string)
      requires uid < |users|
      modifies this
      ensures Outcome(State(), (ok, message)) == ChangePassword(old(State()), uid, current, replacement)
    {
      if users[uid].password != current {
        return false, WrongOldPassword;
      }
      users := users[uid := users[uid].(password := replacement)];
      return true, PasswordChanged;
    }
  }
}
