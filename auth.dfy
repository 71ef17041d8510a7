/**
 * The account handlers of the auth controller: `login`, `forgotPassword`,
 * `updatePassword` and `updateUsername`. Each is a pure outcome function
 * over the user list (the reply and the new list) and a method over the
 * `UserStore` proved equal to it. Hashing, comparing and token signing are
 * the `Crypto` oracles; the welcome and reset mails, database faults and the
 * generated identifiers are parameters.
 */
module Auth {
  import opened Wrappers
  import opened JsValues
  import opened Users

  /** `hashPassword`, `comparePassword` and `jwt.sign` of a user id. */
  datatype Crypto = Crypto(hash: string -> string, compare: (string, string) -> bool, sign: string -> string)

  /** The messages the handlers answer with, each worded by `Text`. */
  datatype Notice =
    | ValidEmailRequired | EmailRequired | PasswordRequired | PasswordTooShort | SomethingWrong
    | InvalidEmail | WrongPassword | MaybeSent | CheckEmail | UsernameRequired
    | UsernameTaken     // the explicit "taken" check
    | UsernameFailed    // the catch-all of `updateUsername`

  /** The wording of each message, as the controller spells it. */
  function Text(n: Notice): string {
    match n
    case ValidEmailRequired => "A valid email is required"
    case EmailRequired => "Email is required"
    case PasswordRequired => "Password is required"
    case PasswordTooShort => "Password must be at least 6 characters long"
    case SomethingWrong => "Something went wrong. Try again."
    case InvalidEmail => "Invalid email. Please use a valid email address"
    case WrongPassword => "Wrong password"
    case MaybeSent => "If we find your account, you will receive an email from us shortly"
    case CheckEmail => "Please check your email"
    case UsernameRequired => "Username is required"
    case UsernameTaken => "Username is already taken. Try anonther one."
    case UsernameFailed => "Username is already taken. Try another one."
  }

  /** What a handler answers. */
  datatype AuthReply =
    | Error(error: Notice)                    // `{ error: Text(error) }`
    | Message(message: Notice)                // `{ message: Text(message) }`
    | LoggedIn(token: string, user: PublicUser)  // `{ token, user }`
    | Ok                                      // `{ ok: true }`
    | Updated(updatedUser: PublicUser)        // `{ updatedUser }`
    | NoReply                                 // the error is only logged; no response is sent
    | Rejected(typeError: string)             // a TypeError thrown outside every `try`

  const MinPasswordLength := 6

  /** The TypeError of destructuring `req.body` when it is null or undefined. */
  function DestructureError(prop: string, body: Json): string
    requires IsNullish(body)
  {
    "Cannot destructure property '" + prop + "' of 'req.body' as it is "
      + (if body.Undefined? then "undefined." else "null.")
  }

  /** The outcome of a `!v?.trim()` gate. */
  datatype Gate = Pass(text: string) | Fail(reply: AuthReply)

  /**
   * `if (!v?.trim()) reply(missing)`: a nullish value and a blank string
   * fail with `missing`, any other string passes unchanged, and any other
   * value throws because it has no `trim`.
   */
  function RequireText(v: Json, name: string, missing: Notice): (g: Gate)
    ensures g.Pass? <==> v.Str? && !AllWhitespace(v.s)
    ensures g.Pass? ==> g.text == v.s
    ensures g.Fail? && (IsNullish(v) || v.Str?) ==> g.reply == Error(missing)
    ensures !IsNullish(v) && !v.Str? ==> g == Fail(Rejected(name + "?.trim is not a function"))
  {
    if IsNullish(v) then Fail(Error(missing))
    else if !v.Str? then Fail(Rejected(name + "?.trim is not a function"))
    else
      TrimEmptyIffBlank(v.s);
      if Trim(v.s) == "" then Fail(Error(missing)) else Pass(v.s)
  }

  // ---------------------------------------------------------------- login

  /**
   * The effects `login` meets after its gates: a failing `findOne`, whether
   * the welcome mail was sent, a failing `User.create`, and the id, the
   * generated username and the default roles of a new account.
   */
  datatype LoginEffects = LoginEffects(findFault: bool, welcomeSent: bool, createFault: bool,
                                       newId: string, nickname: string, defaultRoles: seq<string>)

  /** The account `login` creates for an unknown email. */
  function NewAccount(email: string, password: string, crypto: Crypto, fx: LoginEffects): User {
    User(fx.newId, email, crypto.hash(password), fx.nickname, fx.defaultRoles)
  }

  /**
   * `validator.validate(email)` of the email-validator package: a falsy
   * value is refused outright, a truthy value that is not a string throws
   * at `email.split('@')`, and a non-empty string is judged by the
   * `validEmail` oracle.
   */
  function EmailVerdict(email: Json, validEmail: Json -> bool): (r: Result<bool, string>)
    ensures !Truthy(email) ==> r == Success(false)
    ensures Truthy(email) && !email.Str? ==> r == Failure("email.split is not a function")
    ensures r == Success(true) <==> email.Str? && email.s != "" && validEmail(email)
  {
    if !Truthy(email) then Success(false)
    else if !email.Str? then Failure("email.split is not a function")
    else Success(validEmail(email))
  }

  /**
   * The input gates of `login`, in order: the validator, the email, the
   * password and its length measured before trimming. They yield the email
   * and password strings or the reply that stops the handler.
   */
  function LoginGates(body: Json, validEmail: Json -> bool): Result<(string, string), AuthReply> {
    if IsNullish(body) then Failure(Rejected(DestructureError("email", body)))
    else
      var email := Prop(body, "email");
      var password := Prop(body, "password");
      match EmailVerdict(email, validEmail)
      case Failure(t) => Failure(Rejected(t))
      case Success(ok) => if !ok then Failure(Error(ValidEmailRequired)) else TextGates(email, password)
  }

  /** The gates of `login` after the validator: the email's, the password's and the password's length. */
  function TextGates(email: Json, password: Json): (r: Result<(string, string), AuthReply>)
    ensures r.Failure? ==> r.error != Error(ValidEmailRequired) && (r.error.Rejected? ==> !email.Str? || !password.Str?)
  {
    match RequireText(email, "email", EmailRequired)
    case Fail(r) => Failure(r)
    case Pass(e) =>
      match RequireText(password, "password", PasswordRequired)
      case Fail(r) => Failure(r)
      case Pass(p) =>
        if JsLength(p) < MinPasswordLength then Failure(Error(PasswordTooShort))
        else Success((e, p))
  }

  /**
   * The account step of `login`: an unknown email gets a welcome mail and a
   * new account (both failures end in the "Invalid email" reply); a known
   * one has its password compared.
   */
  function LoginAccount(users: seq<User>, e: string, p: string, crypto: Crypto, fx: LoginEffects): (AuthReply, seq<User>) {
    if fx.findFault then (Error(SomethingWrong), users)
    else match FindByEmail(users, e)
      case None =>
        if !fx.welcomeSent || fx.createFault then (Error(InvalidEmail), users)
        else
          var u := NewAccount(e, p, crypto, fx);
          (LoggedIn(crypto.sign(fx.newId), Public(u)), users + [u])
      case Some(i) =>
        if !crypto.compare(p, users[i].password) then (Error(WrongPassword), users)
        else (LoggedIn(crypto.sign(users[i].id), Public(users[i])), users)
  }

  /** `login`: the gates, then the account step. */
  function LoginOutcome(users: seq<User>, body: Json, validEmail: Json -> bool, crypto: Crypto,
                        fx: LoginEffects): (AuthReply, seq<User>)
  {
    match LoginGates(body, validEmail)
    case Failure(r) => (r, users)
    case Success(ep) => LoginAccount(users, ep.0, ep.1, crypto, fx)
  }

  /** The account step answers none of the gates' replies. */
  lemma AccountRepliesDiffer(users: seq<User>, e: string, p: string, crypto: Crypto, fx: LoginEffects)
    ensures var r := LoginAccount(users, e, p, crypto, fx).0;
      r != Error(ValidEmailRequired) && r != Error(EmailRequired) && r != Error(PasswordRequired)
      && r != Error(PasswordTooShort) && !r.Rejected?
  {
  }

  /**
   * The validator is consulted before anything else: it alone decides the
   * first reply, and its TypeError on a truthy non-string email is thrown
   * before any reply, with nothing changed.
   */
  lemma LoginChecksEmailFirst(users: seq<User>, body: Json, validEmail: Json -> bool, crypto: Crypto, fx: LoginEffects)
    requires !IsNullish(body)
    ensures var out := LoginOutcome(users, body, validEmail, crypto, fx);
      var verdict := EmailVerdict(Prop(body, "email"), validEmail);
      && (out.0 == Error(ValidEmailRequired) <==> verdict == Success(false))
      && (verdict.Failure? ==> out.0 == Rejected(verdict.error))
      && (verdict != Success(true) ==> out.1 == users)
  {
    var verdict := EmailVerdict(Prop(body, "email"), validEmail);
    var g := LoginGates(body, validEmail);
    if verdict.Failure? {
      assert g == Failure(Rejected(verdict.error));
    } else if verdict == Success(false) {
      assert g == Failure(Error(ValidEmailRequired));
    } else {
      assert g != Failure(Error(ValidEmailRequired));
      if g.Success? {
        AccountRepliesDiffer(users, g.value.0, g.value.1, crypto, fx);
      }
    }
  }

  /**
   * "Email is required" is answered exactly when the validator accepted a
   * non-empty blank email, so it is unreachable with a validator that
   * accepts no blank text; a nullish email never gets that far.
   */
  lemma LoginEmailGate(users: seq<User>, body: Json, validEmail: Json -> bool, crypto: Crypto, fx: LoginEffects)
    requires !IsNullish(body)
    ensures var out := LoginOutcome(users, body, validEmail, crypto, fx);
      var email := Prop(body, "email");
      out.0 == Error(EmailRequired) <==> email.Str? && email.s != "" && validEmail(email) && AllWhitespace(email.s)
  {
    var g := LoginGates(body, validEmail);
    if g.Success? {
      AccountRepliesDiffer(users, g.value.0, g.value.1, crypto, fx);
    }
  }

  /**
   * Once the email passes: "Password is required" exactly for a nullish or
   * blank password, and the length error exactly for a non-blank password
   * of fewer than 6 UTF-16 units before trimming.
   */
  lemma LoginPasswordGates(users: seq<User>, body: Json, validEmail: Json -> bool, crypto: Crypto, fx: LoginEffects)
    requires !IsNullish(body) && validEmail(Prop(body, "email"))
    requires Prop(body, "email").Str? && !AllWhitespace(Prop(body, "email").s)
    ensures var out := LoginOutcome(users, body, validEmail, crypto, fx);
      var password := Prop(body, "password");
      && (out.0 == Error(PasswordRequired) <==> IsNullish(password) || (password.Str? && AllWhitespace(password.s)))
      && (out.0 == Error(PasswordTooShort) <==>
            (password.Str? && !AllWhitespace(password.s) && JsLength(password.s) < MinPasswordLength))
  {
    var g := LoginGates(body, validEmail);
    PasswordGatesOnly(body, validEmail);
    if g.Success? {
      AccountRepliesDiffer(users, g.value.0, g.value.1, crypto, fx);
    }
  }

  /** The password gates of `login`, on the gates alone. */
  lemma PasswordGatesOnly(body: Json, validEmail: Json -> bool)
    requires !IsNullish(body) && validEmail(Prop(body, "email"))
    requires Prop(body, "email").Str? && !AllWhitespace(Prop(body, "email").s)
    ensures var g := LoginGates(body, validEmail);
      var password := Prop(body, "password");
      && (g == Failure(Error(PasswordRequired)) <==> IsNullish(password) || (password.Str? && AllWhitespace(password.s)))
      && (g == Failure(Error(PasswordTooShort)) <==>
            (password.Str? && !AllWhitespace(password.s) && JsLength(password.s) < MinPasswordLength))
  {
    var email := Prop(body, "email");
    var password := Prop(body, "password");
    assert EmailVerdict(email, validEmail) == Success(true);
    assert LoginGates(body, validEmail) == TextGates(email, password);
    assert RequireText(email, "email", EmailRequired) == Pass(email.s);
    var pr := RequireText(password, "password", PasswordRequired);
    assert TextGates(email, password) ==
      match pr
      case Fail(r) => Failure(r)
      case Pass(p) => if JsLength(p) < MinPasswordLength then Failure(Error(PasswordTooShort)) else Success((email.s, p));
  }

  /** The sample padded password: one blank on each side of "abcd". */
  const Padded := " abcd "

  lemma PaddedTrimsToFour()
    ensures Trim(Padded) == "abcd"
  {
    var s := Padded;
    assert s[0] == ' ' && s[1] == 'a';
    assert s[1..] == "abcd ";
    assert TrimStart(s[1..]) == "abcd ";
    assert TrimStart(s) == "abcd ";
    var t := "abcd ";
    assert t[4] == ' ' && t[3] == 'd';
    assert t[..4] == "abcd";
    assert TrimEnd(t[..4]) == "abcd";
  }

  lemma PaddedLengths()
    ensures JsLength(Padded) == 6 && JsLength("abcd") == 4 && !AllWhitespace(Padded)
  {
    assert JsLength("") == 0;
    assert JsLength("d") == 1;
    assert Padded[1] == 'a';
  }

  /**
   * `login` changes the store only by appending one new account, for an
   * email no stored user has, holding the hash of the submitted password.
   */
  lemma LoginOnlyCreates(users: seq<User>, body: Json, validEmail: Json -> bool, crypto: Crypto, fx: LoginEffects)
    ensures var out := LoginOutcome(users, body, validEmail, crypto, fx);
      || out.1 == users
      || (&& LoginGates(body, validEmail) == Success((Prop(body, "email").s, Prop(body, "password").s))
          && out.1 == users + [NewAccount(Prop(body, "email").s, Prop(body, "password").s, crypto, fx)]
          && FindByEmail(users, Prop(body, "email").s).None?
          && out.0 == LoggedIn(crypto.sign(fx.newId), Public(out.1[|users|])))
  {
  }

  lemma AppendFreshEmail(users: seq<User>, u: User)
    requires UniqueEmails(users) && FindByEmail(users, u.email).None?
    ensures UniqueEmails(users + [u])
  {
    var after := users + [u];
    forall i, j | 0 <= i < j < |after| ensures after[i].email != after[j].email {
      assert after[i] == users[i];
      if j < |users| {
        assert after[j] == users[j];
      }
    }
  }

  /** No login makes two accounts share an email. */
  lemma LoginKeepsEmailsUnique(users: seq<User>, body: Json, validEmail: Json -> bool, crypto: Crypto, fx: LoginEffects)
    requires UniqueEmails(users)
    ensures UniqueEmails(LoginOutcome(users, body, validEmail, crypto, fx).1)
  {
    var out := LoginOutcome(users, body, validEmail, crypto, fx);
    LoginOnlyCreates(users, body, validEmail, crypto, fx);
    if out.1 != users {
      var e := Prop(body, "email").s;
      AppendFreshEmail(users, NewAccount(e, Prop(body, "password").s, crypto, fx));
    }
  }

  /** The first account with a given email among `users + [u]` when none of `users` has it. */
  lemma FindAppended(users: seq<User>, u: User)
    requires FindByEmail(users, u.email).None?
    ensures FindByEmail(users + [u], u.email) == Some(|users|)
  {
    assert (users + [u])[|users|] == u;
  }

  /**
   * Signing up and logging in again: after a login that created the
   * account, the same credentials log into that account (when the
   * comparison accepts a password against its own hash) and change nothing.
   */
  lemma SignupThenLogin(users: seq<User>, body: Json, validEmail: Json -> bool, crypto: Crypto,
                        fx: LoginEffects, fx2: LoginEffects)
    requires !fx2.findFault
    requires LoginOutcome(users, body, validEmail, crypto, fx).1 != users
    requires crypto.compare(Prop(body, "password").s, crypto.hash(Prop(body, "password").s))
    ensures var out := LoginOutcome(users, body, validEmail, crypto, fx);
      LoginOutcome(out.1, body, validEmail, crypto, fx2) == out
  {
    LoginOnlyCreates(users, body, validEmail, crypto, fx);
    FindAppended(users, NewAccount(Prop(body, "email").s, Prop(body, "password").s, crypto, fx));
  }

  /**
   * A different password that the comparison refuses against the stored
   * hash gets "Wrong password" from the account just created.
   */
  lemma SignupThenWrongPassword(users: seq<User>, body: Json, body2: Json, validEmail: Json -> bool, crypto: Crypto,
                                fx: LoginEffects, fx2: LoginEffects)
    requires !fx2.findFault
    requires LoginOutcome(users, body, validEmail, crypto, fx).1 != users
    requires !IsNullish(body2) && Prop(body2, "email") == Prop(body, "email")
    requires Prop(body2, "password").Str? && !AllWhitespace(Prop(body2, "password").s)
    requires JsLength(Prop(body2, "password").s) >= MinPasswordLength
    requires !crypto.compare(Prop(body2, "password").s, crypto.hash(Prop(body, "password").s))
    ensures var out := LoginOutcome(users, body, validEmail, crypto, fx);
      LoginOutcome(out.1, body2, validEmail, crypto, fx2) == (Error(WrongPassword), out.1)
  {
    LoginOnlyCreates(users, body, validEmail, crypto, fx);
    FindAppended(users, NewAccount(Prop(body, "email").s, Prop(body, "password").s, crypto, fx));
    assert LoginGates(body2, validEmail) == Success((Prop(body, "email").s, Prop(body2, "password").s));
  }

  // ------------------------------------------------------- forgotPassword

  /**
   * `forgotPassword`: an unknown (or non-string) email gets the generic
   * reply; a known one has its password replaced by the hash of the
   * temporary password `temp` and saved, then the mail is sent. A failed
   * send gets the same generic reply, with the password already reset.
   * A failing lookup or save, and a missing body, end in the outer catch,
   * which only logs.
   */
  function ForgotPasswordOutcome(users: seq<User>, body: Json, crypto: Crypto, findFault: bool,
                                 temp: string, saveFault: bool, mailSent: bool): (AuthReply, seq<User>)
  {
    if IsNullish(body) || findFault then (NoReply, users)
    else
      var email := Prop(body, "email");
      var found := if email.Str? then FindByEmail(users, email.s) else None;
      match found
      case None => (Error(MaybeSent), users)
      case Some(i) =>
        if saveFault then (NoReply, users)
        else
          var after := users[i := users[i].(password := crypto.hash(temp))];
          (if mailSent then Message(CheckEmail) else Error(MaybeSent), after)
  }

  /**
   * Without a delivered mail the reply does not tell whether the account
   * exists: any two stores get the same answer.
   */
  lemma ForgotPasswordHidesAccounts(users1: seq<User>, users2: seq<User>, body: Json, crypto: Crypto,
                                    temp: string)
    requires !IsNullish(body)
    ensures ForgotPasswordOutcome(users1, body, crypto, false, temp, false, false).0
         == ForgotPasswordOutcome(users2, body, crypto, false, temp, false, false).0
         == Error(MaybeSent)
  {
  }

  /** "Please check your email" is answered exactly when a stored account was reset and its mail sent. */
  lemma ForgotPasswordConfirms(users: seq<User>, body: Json, crypto: Crypto, findFault: bool,
                               temp: string, saveFault: bool, mailSent: bool)
    ensures var out := ForgotPasswordOutcome(users, body, crypto, findFault, temp, saveFault, mailSent);
      out.0 == Message(CheckEmail) <==>
        (!IsNullish(body) && !findFault && Prop(body, "email").Str?
             && FindByEmail(users, Prop(body, "email").s).Some? && !saveFault && mailSent)
  {
  }

  /** Positions of users and their emails survive a password change. */
  lemma FindByEmailIgnoresPasswords(users: seq<User>, i: nat, hash: string, email: string)
    requires i < |users|
    ensures FindByEmail(users[i := users[i].(password := hash)], email) == FindByEmail(users, email)
  {
    var after := users[i := users[i].(password := hash)];
    assert forall j :: 0 <= j < |users| ==> after[j].email == users[j].email;
    var a := FindByEmail(after, email);
    var b := FindByEmail(users, email);
    if a.Some? && b.Some? {
      assert a.value == b.value;
    }
  }

  /**
   * The reset only changes the found account's password, to the hash of
   * the temporary password, and that password then logs in (when the
   * comparison accepts a password against its own hash).
   */
  lemma ForgotPasswordResets(users: seq<User>, body: Json, crypto: Crypto, temp: string, mailSent: bool,
                             validEmail: Json -> bool, fx: LoginEffects)
    requires !IsNullish(body) && Prop(body, "email").Str?
    requires FindByEmail(users, Prop(body, "email").s).Some?
    requires validEmail(Prop(body, "email")) && !AllWhitespace(Prop(body, "email").s)
    requires !AllWhitespace(temp) && JsLength(temp) >= MinPasswordLength
    requires crypto.compare(temp, crypto.hash(temp)) && !fx.findFault
    ensures var i := FindByEmail(users, Prop(body, "email").s).value;
      var after := ForgotPasswordOutcome(users, body, crypto, false, temp, false, mailSent).1;
      && after == users[i := users[i].(password := crypto.hash(temp))]
      && LoginOutcome(after, Obj(map["email" := Prop(body, "email"), "password" := Str(temp)]), validEmail, crypto, fx)
         == (LoggedIn(crypto.sign(users[i].id), Public(after[i])), after)
  {
    var e := Prop(body, "email").s;
    var i := FindByEmail(users, e).value;
    FindByEmailIgnoresPasswords(users, i, crypto.hash(temp), e);
    var login := Obj(map["email" := Prop(body, "email"), "password" := Str(temp)]);
    assert Prop(login, "email") == Prop(body, "email");
    assert Prop(login, "password") == Str(temp);
  }

  // ------------------------------------------------------- updatePassword

  /**
   * `password ? password.trim() : ""`: a truthy string is trimmed, a truthy
   * non-string throws into the catch-all, anything falsy becomes "".
   */
  function PasswordValue(password: Json): Result<string, AuthReply> {
    if !Truthy(password) then Success("")
    else if !password.Str? then Failure(Error(SomethingWrong))
    else Success(Trim(password.s))
  }

  /** The checks on the trimmed value: not blank, at least 6 units. */
  function PasswordChecks(t: string): Result<string, AuthReply> {
    if Trim(t) == "" then Failure(Error(PasswordRequired))
    else if JsLength(t) < MinPasswordLength then Failure(Error(PasswordTooShort))
    else Success(t)
  }

  /** The gates of `updatePassword`: the value, then its checks. */
  function NewPasswordGate(password: Json): Result<string, AuthReply> {
    match PasswordValue(password)
    case Failure(r) => Failure(r)
    case Success(t) => PasswordChecks(t)
  }

  /**
   * `updatePassword`: after the gates the caller's stored password becomes
   * the hash of the trimmed password and the reply is `{ ok: true }`,
   * whether or not the caller's account exists. `fault` is a failing query.
   */
  function UpdatePasswordOutcome(users: seq<User>, body: Json, callerId: string, crypto: Crypto,
                                 fault: bool): (AuthReply, seq<User>)
  {
    if IsNullish(body) then (Error(SomethingWrong), users)
    else match NewPasswordGate(Prop(body, "password"))
      case Failure(r) => (r, users)
      case Success(t) =>
        if fault then (Error(SomethingWrong), users)
        else (Ok, SetPasswordState(users, callerId, crypto.hash(t)))
  }

  /**
   * The gates trim first: a password passes exactly when it is a string of
   * at least 6 units after trimming, and passes trimmed. "Password is
   * required" answers exactly a falsy or blank value, the length error
   * exactly a non-blank string whose trimmed length is below 6.
   */
  lemma NewPasswordGateTrimsFirst(password: Json)
    ensures var g := NewPasswordGate(password);
      && (g.Success? <==> password.Str? && JsLength(Trim(password.s)) >= MinPasswordLength)
      && (g.Success? ==> g.value == Trim(password.s))
      && (g == Failure(Error(PasswordRequired)) <==> (!Truthy(password) || (password.Str? && AllWhitespace(password.s))))
      && (g == Failure(Error(PasswordTooShort)) <==>
            (password.Str? && !AllWhitespace(password.s) && JsLength(Trim(password.s)) < MinPasswordLength))
  {
    if password.Str? {
      StringPasswordGate(password.s);
    } else {
      assert Trim("") == "";
    }
  }

  /** A string password is checked in its trimmed form. */
  lemma StringPasswordGate(s: string)
    ensures NewPasswordGate(Str(s)) == PasswordChecks(Trim(s))
    ensures Trim(Trim(s)) == Trim(s)
    ensures Trim(s) == "" <==> AllWhitespace(s)
  {
    TrimEmptyIffBlank(s);
    TrimIdempotent(s);
    if s == "" {
      assert Trim(s) == "";
      assert NewPasswordGate(Str(s)) == PasswordChecks("");
    } else {
      assert Truthy(Str(s));
      assert PasswordValue(Str(s)) == Success(Trim(s));
    }
  }

  /**
   * `{ ok: true }` is answered exactly for a string password of at least 6
   * units after trimming, and then the caller's password is the hash of the
   * trimmed string; every other reply leaves the store as it was.
   */
  lemma UpdatePasswordStoresTrimmed(users: seq<User>, body: Json, callerId: string, crypto: Crypto, fault: bool)
    ensures var out := UpdatePasswordOutcome(users, body, callerId, crypto, fault);
      var password := Prop(body, "password");
      && (out.0 == Ok <==> !IsNullish(body) && password.Str? && JsLength(Trim(password.s)) >= MinPasswordLength && !fault)
      && (out.0 == Ok ==> out.1 == SetPasswordState(users, callerId, crypto.hash(Trim(password.s))))
      && (out.0 != Ok ==> out.1 == users)
  {
    if !IsNullish(body) {
      NewPasswordGateTrimsFirst(Prop(body, "password"));
    }
  }

  /**
   * The two password gates disagree on padded input: " abcd " passes the
   * login password and length checks, but `updatePassword` refuses it as
   * too short.
   */
  lemma PaddedPasswordGates()
    ensures RequireText(Str(Padded), "password", PasswordRequired) == Pass(Padded)
    ensures JsLength(Padded) >= MinPasswordLength
    ensures NewPasswordGate(Str(Padded)) == Failure(Error(PasswordTooShort))
  {
    PaddedTrimsToFour();
    PaddedLengths();
    NewPasswordGateTrimsFirst(Str(Padded));
  }

  // ------------------------------------------------------- updateUsername

  /**
   * The gate of `updateUsername`: a falsy or blank name is refused, a
   * truthy non-string throws into the catch-all, and a name passes trimmed.
   */
  function UsernameGate(username: Json): Result<string, AuthReply> {
    if !Truthy(username) then Failure(Error(UsernameRequired))
    else if !username.Str? then Failure(Error(UsernameFailed))
    else if Trim(username.s) == "" then Failure(Error(UsernameRequired))
    else Success(Trim(username.s))
  }

  /** A name passes exactly when it is a non-blank string, and passes trimmed and non-empty. */
  lemma UsernameGateTrims(username: Json)
    ensures var g := UsernameGate(username);
      && (g.Success? <==> username.Str? && !AllWhitespace(username.s))
      && (g.Success? ==> g.value == Trim(username.s) && g.value != "")
      && (g == Failure(Error(UsernameRequired)) <==> (!Truthy(username) || (username.Str? && AllWhitespace(username.s))))
  {
    if username.Str? {
      TrimEmptyIffBlank(username.s);
    }
  }

  /**
   * `updateUsername`: the trimmed name is refused when any user (the caller
   * included) holds it; otherwise it becomes the caller's name and the
   * updated account is replied. An unknown caller makes the update return
   * null, whose dereference ends in the catch-all, as does a failing query.
   */
  function UpdateUsernameOutcome(users: seq<User>, body: Json, callerId: string, fault: bool): (AuthReply, seq<User>)
  {
    if IsNullish(body) then (Error(UsernameFailed), users)
    else match UsernameGate(Prop(body, "username"))
      case Failure(r) => (r, users)
      case Success(t) =>
        if fault then (Error(UsernameFailed), users)
        else if FindByUsername(users, t).Some? then (Error(UsernameTaken), users)
        else match FindById(users, callerId)
          case None => (Error(UsernameFailed), users)
          case Some(i) =>
            var after := SetUsernameState(users, callerId, t);
            (Updated(Public(after[i])), after)
  }

  /**
   * A rename succeeds exactly for a non-blank string whose trimmed form no
   * user holds, by an existing caller; the caller then holds the trimmed
   * name, everyone else is untouched, and any other reply changes nothing.
   */
  lemma UpdateUsernameStoresTrimmed(users: seq<User>, body: Json, callerId: string, fault: bool)
    ensures var out := UpdateUsernameOutcome(users, body, callerId, fault);
      var username := Prop(body, "username");
      && (out.0.Updated? <==> !IsNullish(body) && username.Str? && !AllWhitespace(username.s) && !fault
                              && FindByUsername(users, Trim(username.s)).None? && FindById(users, callerId).Some?)
      && (out.0.Updated? ==>
            var i := FindById(users, callerId).value;
            && out.1 == users[i := users[i].(username := Trim(username.s))]
            && out.0.updatedUser.username == Trim(username.s))
      && (!out.0.Updated? ==> out.1 == users)
  {
    if !IsNullish(body) {
      UsernameGateTrims(Prop(body, "username"));
    }
  }

  /** A name already held, even by the caller, is refused with the controller's own wording. */
  lemma UpdateUsernameRefusesTaken(users: seq<User>, body: Json, callerId: string)
    requires !IsNullish(body) && Prop(body, "username").Str? && !AllWhitespace(Prop(body, "username").s)
    requires FindByUsername(users, Trim(Prop(body, "username").s)).Some?
    ensures UpdateUsernameOutcome(users, body, callerId, false) == (Error(UsernameTaken), users)
  {
    UsernameGateTrims(Prop(body, "username"));
  }

  /** No rename makes two accounts share a username. */
  lemma UpdateUsernameKeepsUnique(users: seq<User>, body: Json, callerId: string, fault: bool)
    requires UniqueUsernames(users)
    ensures UniqueUsernames(UpdateUsernameOutcome(users, body, callerId, fault).1)
  {
    var out := UpdateUsernameOutcome(users, body, callerId, fault);
    UpdateUsernameStoresTrimmed(users, body, callerId, fault);
    if out.0.Updated? {
      var t := Trim(Prop(body, "username").s);
      var i := FindById(users, callerId).value;
      assert forall j :: 0 <= j < |users| ==> users[j].username != t;
      forall a, b | 0 <= a < b < |out.1| ensures out.1[a].username != out.1[b].username {
        if a != i && b != i {
          assert out.1[a] == users[a] && out.1[b] == users[b];
        }
      }
    }
  }

  // -------------------------------------------------------------- handlers

  /** `login` over the store. */
  method Login(store: UserStore, body: Json, validEmail: Json -> bool, crypto: Crypto, fx: LoginEffects)
    returns (reply: AuthReply)
    modifies store
    ensures (reply, store.users) == LoginOutcome(old(store.users), body, validEmail, crypto, fx)
  {
    var gates := LoginGates(body, validEmail);
    if gates.Failure? {
      return gates.error;
    }
    var (e, p) := gates.value;
    if fx.findFault {
      return Error(SomethingWrong);
    }
    var found := FindByEmail(store.users, e);
    if found.None? {
      if !fx.welcomeSent || fx.createFault {
        return Error(InvalidEmail);
      }
      var u := NewAccount(e, p, crypto, fx);
      store.Create(u);
      reply := LoggedIn(crypto.sign(fx.newId), Public(u));
    } else {
      var user := store.users[found.value];
      if !crypto.compare(p, user.password) {
        return Error(WrongPassword);
      }
      reply := LoggedIn(crypto.sign(user.id), Public(user));
    }
  }

  /** `forgotPassword` over the store. */
  method ForgotPassword(store: UserStore, body: Json, crypto: Crypto, findFault: bool,
                        temp: string, saveFault: bool, mailSent: bool) returns (reply: AuthReply)
    modifies store
    ensures (reply, store.users) == ForgotPasswordOutcome(old(store.users), body, crypto, findFault, temp, saveFault, mailSent)
  {
    if IsNullish(body) || findFault {
      return NoReply;
    }
    var email := Prop(body, "email");
    var found := if email.Str? then FindByEmail(store.users, email.s) else None;
    if found.None? {
      return Error(MaybeSent);
    }
    if saveFault {
      return NoReply;
    }
    store.SavePasswordAt(found.value, crypto.hash(temp));
    reply := if mailSent then Message(CheckEmail) else Error(MaybeSent);
  }

  /** `updatePassword` over the store. */
  method UpdatePassword(store: UserStore, body: Json, callerId: string, crypto: Crypto, fault: bool)
    returns (reply: AuthReply)
    modifies store
    ensures (reply, store.users) == UpdatePasswordOutcome(old(store.users), body, callerId, crypto, fault)
  {
    if IsNullish(body) {
      return Error(SomethingWrong);
    }
    var gate := NewPasswordGate(Prop(body, "password"));
    if gate.Failure? {
      return gate.error;
    }
    if fault {
      return Error(SomethingWrong);
    }
    store.SetPassword(callerId, crypto.hash(gate.value));
    reply := Ok;
  }

  /** `updateUsername` over the store. */
  method UpdateUsername(store: UserStore, body: Json, callerId: string, fault: bool) returns (reply: AuthReply)
    modifies store
    ensures (reply, store.users) == UpdateUsernameOutcome(old(store.users), body, callerId, fault)
  {
    if IsNullish(body) {
      return Error(UsernameFailed);
    }
    var gate := UsernameGate(Prop(body, "username"));
    if gate.Failure? {
      return gate.error;
    }
    var t := gate.value;
    if fault {
      return Error(UsernameFailed);
    }
    if FindByUsername(store.users, t).Some? {
      return Error(UsernameTaken);
    }
    var updated := store.SetUsername(callerId, t);
    if updated.None? {
      return Error(UsernameFailed);
    }
    reply := Updated(Public(updated.value));
  }
}
