/** The sign-up form: its ordered input checks (the first failing check
    alone sets the error), the early return of `signUp`, the error reset on
    every edit and the per-field error highlighting. The email pattern is a
    parameter. */
module Signup {
  import opened KotlinStd

  /** The checks, each named after the rule it enforces. */
  datatype SignupFailure =
    | NameRequired | NameTooShort | EmailRequired | EmailInvalid
    | PasswordRequired | PasswordTooShort | PasswordsDiffer
  {
    function Message(): string {
      match this
      case NameRequired => "Name is required"
      case NameTooShort => "Name must be at least 2 characters"
      case EmailRequired => "Email is required"
      case EmailInvalid => "Please enter a valid email address"
      case PasswordRequired => "Password is required"
      case PasswordTooShort => "Password must be at least 6 characters"
      case PasswordsDiffer => "Passwords do not match"
    }
  }

  const MinNameLength: nat := 2
  /** Each check has its own message, so the error text tells which check failed. */
  lemma MessageIdentifiesFailure(f: SignupFailure, g: SignupFailure)
    ensures f.Message() == g.Message() ==> f == g
  {
  }

  const MinPasswordLength: nat := 6

  /** The order the checks run in. */
  const CheckOrder: seq<SignupFailure> :=
    [NameRequired, NameTooShort, EmailRequired, EmailInvalid, PasswordRequired, PasswordTooShort, PasswordsDiffer]

  datatype SignupFields = SignupFields(name: string, email: string, password: string, confirmPassword: string)

  /** Whether one rule, taken on its own, rejects the fields. */
  predicate Violates(f: SignupFailure, x: SignupFields, matchesEmail: string -> bool) {
    match f
    case NameRequired => IsBlank(x.name)
    case NameTooShort => |x.name| < MinNameLength
    case EmailRequired => IsBlank(x.email)
    case EmailInvalid => !matchesEmail(x.email)
    case PasswordRequired => IsBlank(x.password)
    case PasswordTooShort => |x.password| < MinPasswordLength
    case PasswordsDiffer => x.confirmPassword != x.password
  }

  /** `validateInputs`'s `when`: the first failing check, or none. An
      accepted form has a non-blank name of at least two characters, a
      non-blank email the pattern accepts, and a non-blank password of at
      least six characters equal to its confirmation. */
  function FirstFailure(x: SignupFields, matchesEmail: string -> bool): (r: Option<SignupFailure>)
    ensures r.None? ==>
              && !IsBlank(x.name) && |x.name| >= MinNameLength
              && !IsBlank(x.email) && matchesEmail(x.email)
              && !IsBlank(x.password) && |x.password| >= MinPasswordLength
              && x.confirmPassword == x.password
    ensures r.Some? ==> Violates(r.value, x, matchesEmail)
  {
    if IsBlank(x.name) then Some(NameRequired)
    else if |x.name| < MinNameLength then Some(NameTooShort)
    else if IsBlank(x.email) then Some(EmailRequired)
    else if !matchesEmail(x.email) then Some(EmailInvalid)
    else if IsBlank(x.password) then Some(PasswordRequired)
    else if |x.password| < MinPasswordLength then Some(PasswordTooShort)
    else if x.confirmPassword != x.password then Some(PasswordsDiffer)
    else None
  }

  /** The reference reading of the cascade: the reported check is the
      earliest one in the check order that the fields violate, and nothing
      is reported exactly when no check is violated. */
  lemma FirstFailureIsEarliest(x: SignupFields, matchesEmail: string -> bool)
    ensures FirstFailure(x, matchesEmail).None? <==> forall k :: 0 <= k < |CheckOrder| ==> !Violates(CheckOrder[k], x, matchesEmail)
    ensures FirstFailure(x, matchesEmail).Some? ==>
              exists k :: 0 <= k < |CheckOrder| && CheckOrder[k] == FirstFailure(x, matchesEmail).value
                && Violates(CheckOrder[k], x, matchesEmail)
                && forall j :: 0 <= j < k ==> !Violates(CheckOrder[j], x, matchesEmail)
  {
    var r := FirstFailure(x, matchesEmail);
    if r.Some? {
      var k := match r.value
        case NameRequired => 0 case NameTooShort => 1 case EmailRequired => 2 case EmailInvalid => 3
        case PasswordRequired => 4 case PasswordTooShort => 5 case PasswordsDiffer => 6;
      assert CheckOrder[k] == r.value;
    } else {
      forall k | 0 <= k < |CheckOrder|
        ensures !Violates(CheckOrder[k], x, matchesEmail)
      {
      }
    }
  }

  /** A one-letter name is reported as too short, not as missing, and a
      name of spaces only as missing whatever its length. */
  lemma NameChecksExample(matchesEmail: string -> bool)
    ensures FirstFailure(SignupFields("A", "", "", ""), matchesEmail) == Some(NameTooShort)
    ensures FirstFailure(SignupFields("   ", "", "", ""), matchesEmail) == Some(NameRequired)
  {
    assert !IsWhitespace("A"[0]);
  }

  /** The error text the validation leaves behind. */
  function ErrorAfterValidation(x: SignupFields, matchesEmail: string -> bool): (e: Option<string>)
    ensures e.None? <==> FirstFailure(x, matchesEmail).None?
  {
    var f := FirstFailure(x, matchesEmail);
    if f.Some? then Some(f.value.Message()) else None
  }

  /** The field highlights: each needs an error to be set and its own rule to fail. */
  predicate NameHighlighted(x: SignupFields, error: Option<string>) {
    error.Some? && (IsBlank(x.name) || |x.name| < MinNameLength)
  }

  predicate EmailHighlighted(x: SignupFields, error: Option<string>, matchesEmail: string -> bool) {
    error.Some? && (IsBlank(x.email) || !matchesEmail(x.email))
  }

  predicate PasswordHighlighted(x: SignupFields, error: Option<string>) {
    error.Some? && (IsBlank(x.password) || |x.password| < MinPasswordLength)
  }

  predicate ConfirmHighlighted(x: SignupFields, error: Option<string>) {
    error.Some? && x.confirmPassword != x.password
  }

  /** After a rejected validation the field whose check failed is highlighted;
      after an accepted one, or once the error is cleared, none is. */
  lemma RejectedFieldHighlighted(x: SignupFields, matchesEmail: string -> bool)
    ensures var e := ErrorAfterValidation(x, matchesEmail);
            var f := FirstFailure(x, matchesEmail);
            && (f == Some(NameRequired) || f == Some(NameTooShort) ==> NameHighlighted(x, e))
            && (f == Some(EmailRequired) || f == Some(EmailInvalid) ==> EmailHighlighted(x, e, matchesEmail))
            && (f == Some(PasswordRequired) || f == Some(PasswordTooShort) ==> PasswordHighlighted(x, e))
            && (f == Some(PasswordsDiffer) ==> ConfirmHighlighted(x, e))
            && (f.None? ==> !NameHighlighted(x, e) && !EmailHighlighted(x, e, matchesEmail)
                            && !PasswordHighlighted(x, e) && !ConfirmHighlighted(x, e))
  {
  }

  /** The form's state: the four text fields, the error text and the busy flag. */
  class SignupForm {
    var name: string
    var email: string
    var password: string
    var confirmPassword: string
    var error: Option<string>
    var loading: bool

    function Fields(): SignupFields
      reads this
    {
      SignupFields(name, email, password, confirmPassword)
    }

    constructor()
      ensures Fields() == SignupFields("", "", "", "")
      ensures error.None? && !loading
    {
      name := "";
      email := "";
      password := "";
      confirmPassword := "";
      error := None;
      loading := false;
    }

    /** Typing in a field replaces it and clears the error. */
    method EditName(value: string)
      modifies this
      ensures Fields() == old(Fields()).(name := value)
      ensures error.None? && loading == old(loading)
    {
      name := value;
      error := None;
    }

    method EditEmail(value: string)
      modifies this
      ensures Fields() == old(Fields()).(email := value)
      ensures error.None? && loading == old(loading)
    {
      email := value;
      error := None;
    }

    method EditPassword(value: string)
      modifies this
      ensures Fields() == old(Fields()).(password := value)
      ensures error.None? && loading == old(loading)
    {
      password := value;
      error := None;
    }

    method EditConfirmPassword(value: string)
      modifies this
      ensures Fields() == old(Fields()).(confirmPassword := value)
      ensures error.None? && loading == old(loading)
    {
      confirmPassword := value;
      error := None;
    }

    /** `validateInputs`: sets the error to the first failure's message, or
      clears it, and reports whether the form was accepted. */
    method ValidateInputs(matchesEmail: string -> bool) returns (ok: bool)
      modifies this`error
      ensures ok <==> FirstFailure(Fields(), matchesEmail).None?
      ensures error == ErrorAfterValidation(Fields(), matchesEmail)
    {
      var f := FirstFailure(Fields(), matchesEmail);
      if f.Some? {
        error := Some(f.value.Message());
        ok := false;
      } else {
        error := None;
        ok := true;
      }
    }

    /** `signUp`: a rejected form stops after the validation; an accepted one
      turns busy, clears the error, and returns the email and password the
      account is created with. */
    method SignUp(matchesEmail: string -> bool) returns (request: Option<(string, string)>)
      modifies this
      ensures Fields() == old(Fields())
      ensures request.None? <==> FirstFailure(Fields(), matchesEmail).Some?
      ensures request.None? ==> error == ErrorAfterValidation(Fields(), matchesEmail) && loading == old(loading)
      ensures request.Some? ==> request.value == (email, password) && error.None? && loading
    {
      var ok := ValidateInputs(matchesEmail);
      if !ok {
        return None;
      }
      loading := true;
      error := None;
      request := Some((email, password));
    }
  }
}
