/** The login form: its ordered input checks, the early return of `signIn`,
    the outcome of the sign-in call, the error reset on every edit and the
    field highlighting, which marks a short password as no field's fault. */
module Login {
  import opened KotlinStd

  datatype LoginFailure = EmailRequired | EmailInvalid | PasswordRequired | PasswordTooShort {
    function Message(): string {
      match this
      case EmailRequired => "Email is required"
      case EmailInvalid => "Please enter a valid email address"
      case PasswordRequired => "Password is required"
      case PasswordTooShort => "Password must be at least 6 characters"
    }
  }

  /** Each check has its own message, so the error text tells which check failed. */
  lemma MessageIdentifiesFailure(f: LoginFailure, g: LoginFailure)
    ensures f.Message() == g.Message() ==> f == g
  {
  }

  const MinPasswordLength: nat := 6

  /** The order the checks run in. */
  const CheckOrder: seq<LoginFailure> := [EmailRequired, EmailInvalid, PasswordRequired, PasswordTooShort]

  datatype LoginFields = LoginFields(email: string, password: string)

  /** Whether one rule, taken on its own, rejects the fields. */
  predicate Violates(f: LoginFailure, x: LoginFields, matchesEmail: string -> bool) {
    match f
    case EmailRequired => IsBlank(x.email)
    case EmailInvalid => !matchesEmail(x.email)
    case PasswordRequired => IsBlank(x.password)
    case PasswordTooShort => |x.password| < MinPasswordLength
  }

  /** `validateInputs`'s `when`: the first failing check, or none. An
      accepted form has a non-blank email the pattern accepts and a
      non-blank password of at least six characters. */
  function FirstFailure(x: LoginFields, matchesEmail: string -> bool): (r: Option<LoginFailure>)
    ensures r.None? ==>
              !IsBlank(x.email) && matchesEmail(x.email) && !IsBlank(x.password) && |x.password| >= MinPasswordLength
    ensures r.Some? ==> Violates(r.value, x, matchesEmail)
  {
    if IsBlank(x.email) then Some(EmailRequired)
    else if !matchesEmail(x.email) then Some(EmailInvalid)
    else if IsBlank(x.password) then Some(PasswordRequired)
    else if |x.password| < MinPasswordLength then Some(PasswordTooShort)
    else None
  }

  /** The reported check is the earliest violated one in the check order,
      and nothing is reported exactly when no check is violated. */
  lemma FirstFailureIsEarliest(x: LoginFields, matchesEmail: string -> bool)
    ensures FirstFailure(x, matchesEmail).None? <==> forall k :: 0 <= k < |CheckOrder| ==> !Violates(CheckOrder[k], x, matchesEmail)
    ensures FirstFailure(x, matchesEmail).Some? ==>
              exists k :: 0 <= k < |CheckOrder| && CheckOrder[k] == FirstFailure(x, matchesEmail).value
                && Violates(CheckOrder[k], x, matchesEmail)
                && forall j :: 0 <= j < k ==> !Violates(CheckOrder[j], x, matchesEmail)
  {
    var r := FirstFailure(x, matchesEmail);
    if r.Some? {
      var k := match r.value
        case EmailRequired => 0 case EmailInvalid => 1 case PasswordRequired => 2 case PasswordTooShort => 3;
      assert CheckOrder[k] == r.value;
    } else {
      forall k | 0 <= k < |CheckOrder|
        ensures !Violates(CheckOrder[k], x, matchesEmail)
      {
      }
    }
  }

  function ErrorAfterValidation(x: LoginFields, matchesEmail: string -> bool): (e: Option<string>)
    ensures e.None? <==> FirstFailure(x, matchesEmail).None?
  {
    var f := FirstFailure(x, matchesEmail);
    if f.Some? then Some(f.value.Message()) else None
  }

  predicate EmailHighlighted(x: LoginFields, error: Option<string>, matchesEmail: string -> bool) {
    error.Some? && (IsBlank(x.email) || !matchesEmail(x.email))
  }

  /** Only a blank password is highlighted. */
  predicate PasswordHighlighted(x: LoginFields, error: Option<string>) {
    error.Some? && IsBlank(x.password)
  }

  /** A rejected email is highlighted; so is a blank password, but a
      non-blank password shorter than six characters is rejected with no
      field highlighted. */
  lemma HighlightAfterValidation(x: LoginFields, matchesEmail: string -> bool)
    ensures var e := ErrorAfterValidation(x, matchesEmail);
            var f := FirstFailure(x, matchesEmail);
            && (f == Some(EmailRequired) || f == Some(EmailInvalid) ==> EmailHighlighted(x, e, matchesEmail))
            && (f == Some(PasswordRequired) ==> PasswordHighlighted(x, e))
            && (f == Some(PasswordTooShort) ==> !EmailHighlighted(x, e, matchesEmail) && !PasswordHighlighted(x, e))
            && (f.None? ==> !EmailHighlighted(x, e, matchesEmail) && !PasswordHighlighted(x, e))
  {
  }

  /** "abc" as the password of an accepted email: rejected as too short, yet nothing is highlighted. */
  lemma ShortPasswordNotHighlighted(email: string, matchesEmail: string -> bool)
    requires !IsBlank(email) && matchesEmail(email)
    ensures var x := LoginFields(email, "abc");
            && FirstFailure(x, matchesEmail) == Some(PasswordTooShort)
            && ErrorAfterValidation(x, matchesEmail) == Some("Password must be at least 6 characters")
            && !PasswordHighlighted(x, ErrorAfterValidation(x, matchesEmail))
  {
    assert !IsWhitespace("abc"[0]);
  }

  /** Where the screen goes when the sign-in call completes. */
  datatype Navigation = StayOnLogin | GoHome

  class LoginForm {
    var email: string
    var password: string
    var error: Option<string>
    var loading: bool

    function Fields(): LoginFields
      reads this
    {
      LoginFields(email, password)
    }

    constructor()
      ensures Fields() == LoginFields("", "") && error.None? && !loading
    {
      email := "";
      password := "";
      error := None;
      loading := false;
    }

    /** Typing in a field replaces it and clears the error. */
    method EditEmail(value: string)
      modifies this
      ensures Fields() == old(Fields()).(email := value)
      ensures error.None? && loading == old(loading)
    {
      email := value;
      error := None;
    }

    method EditPassword(value: string)
      modifies this
      ensures Fields() == old(Fields()).(password := value)
      ensures error.None? && loading == old(loading)
    {
      password := value;
      error := None;
    }

    /** `validateInputs`: sets the error to the first failure's message, or
      clears it, and reports whether the form was accepted. */
    method ValidateInputs(matchesEmail: string -> bool) returns (ok: bool)
      modifies this`error
      ensures ok <==> FirstFailure(Fields(), matchesEmail).None?
      ensures error == ErrorAfterValidation(Fields(), matchesEmail)
    {
      var f := FirstFailure(Fields(), matchesEmail);
      if f.Some? {
        error := Some(f.value.Message());
        ok := false;
      } else {
        error := None;
        ok := true;
      }
    }

    /** `signIn`: a rejected form stops before any call to the
      authentication service; an accepted one turns busy, clears the error
      and returns the credentials to sign in with. */
    method SignIn(matchesEmail: string -> bool) returns (request: Option<(string, string)>)
      modifies this
      ensures Fields() == old(Fields())
      ensures request.None? <==> FirstFailure(Fields(), matchesEmail).Some?
      ensures request.None? ==> error == ErrorAfterValidation(Fields(), matchesEmail) && loading == old(loading)
      ensures request.Some? ==> request.value == (email, password) && error.None? && loading
    {
      var ok := ValidateInputs(matchesEmail);
      if !ok {
        return None;
      }
      loading := true;
      error := None;
      request := Some((email, password));
    }

    /** The sign-in call's completion: no longer busy; on success the screen
      goes home, on failure it stays with the failure's message, or
      "Login failed" when it has none. */
    method SignInCompleted(outcome: Result<()>) returns (nav: Navigation)
      modifies this
      ensures Fields() == old(Fields()) && !loading
      ensures nav == GoHome <==> outcome.Ok?
      ensures outcome.Ok? ==> error == old(error)
      ensures outcome.Threw? ==> error == Some(outcome.message.GetOr("Login failed"))
    {
      loading := false;
      if outcome.Ok? {
        nav := GoHome;
      } else {
        error := Some(outcome.message.GetOr("Login failed"));
        nav := StayOnLogin;
      }
    }
  }
}
