/** The admin registration form: a five-rule password validator, a submit handler that checks its
    fields in a fixed order before sending anything, and the handling of the server's reply. */
module AdminRegister {
  import opened Wrappers
  import opened Session
  import App

  // ---------------------------------------------------------------------------------------------
  // The password rules

  const MinPasswordLength := 7

  datatype Rule = Length | Lowercase | Uppercase | Digit | Special

  /** The rules in the order the validator checks them. */
  const AllRules := [Length, Lowercase, Uppercase, Digit, Special]

  predicate IsLower(c: char) { 'a' <= c <= 'z' }
  predicate IsUpper(c: char) { 'A' <= c <= 'Z' }
  predicate IsSpecial(c: char) { c in "@$!%*?&" }

  /** `/(?=.*[a-z])/.test(pw)` and its siblings: some character of the class occurs. */
  predicate ContainsLower(pw: string) { exists i :: 0 <= i < |pw| && IsLower(pw[i]) }
  predicate ContainsUpper(pw: string) { exists i :: 0 <= i < |pw| && IsUpper(pw[i]) }
  predicate ContainsDigit(pw: string) { exists i :: 0 <= i < |pw| && IsDigit(pw[i]) }
  predicate ContainsSpecial(pw: string) { exists i :: 0 <= i < |pw| && IsSpecial(pw[i]) }

  predicate Holds(r: Rule, pw: string)
  {
    match r
    case Length => |pw| >= MinPasswordLength
    case Lowercase => ContainsLower(pw)
    case Uppercase => ContainsUpper(pw)
    case Digit => ContainsDigit(pw)
    case Special => ContainsSpecial(pw)
  }

  function Message(r: Rule): string
  {
    match r
    case Length => "Password must be at least 7 characters long"
    case Lowercase => "Password must contain at least one lowercase letter"
    case Uppercase => "Password must contain at least one uppercase letter"
    case Digit => "Password must contain at least one number"
    case Special => "Password must contain at least one special character"
  }

  /** The rules of `rules` that `pw` breaks, in the order of `rules`. */
  function Broken(rules: seq<Rule>, pw: string): (out: seq<Rule>)
    ensures |out| <= |rules|
    ensures forall r :: r in out <==> r in rules && !Holds(r, pw)
  {
    if rules == [] then []
    else (if Holds(rules[0], pw) then [] else [rules[0]]) + Broken(rules[1..], pw)
  }

  function Messages(rs: seq<Rule>): (ms: seq<string>)
    ensures |ms| == |rs| && forall i :: 0 <= i < |rs| ==> ms[i] == Message(rs[i])
  {
    if rs == [] then [] else [Message(rs[0])] + Messages(rs[1..])
  }

  /** What `validatePassword` returns, defined by the rules rather than by the code's steps. */
  function PasswordErrors(pw: string): seq<string>
  {
    Messages(Broken(AllRules, pw))
  }

  /** Breaking rules in a concatenation of rule lists: the earlier list's violations come first. */
  lemma {:induction false} BrokenAppend(a: seq<Rule>, b: seq<Rule>, pw: string)
    ensures Broken(a + b, pw) == Broken(a, pw) + Broken(b, pw)
  {
    if a == [] {
      assert a + b == b;
    } else {
      assert (a + b)[0] == a[0];
      assert (a + b)[1..] == a[1..] + b;
      BrokenAppend(a[1..], b, pw);
    }
  }

  /** One rule checked on its own: its message when broken, nothing when met. */
  function Check(r: Rule, pw: string): seq<Rule>
  {
    if Holds(r, pw) then [] else [r]
  }

  lemma CheckIsBroken(r: Rule, pw: string)
    ensures Check(r, pw) == Broken([r], pw)
  {
    assert [r][1..] == [];
  }

  /** The rule list unrolled into the five checks, in order. */
  lemma BrokenUnfold(pw: string)
    ensures Broken(AllRules, pw) ==
      Check(Length, pw) + Check(Lowercase, pw) + Check(Uppercase, pw) + Check(Digit, pw) + Check(Special, pw)
  {
    assert AllRules == [Length] + [Lowercase] + [Uppercase] + [Digit] + [Special];
    CheckIsBroken(Length, pw);
    CheckIsBroken(Lowercase, pw);
    CheckIsBroken(Uppercase, pw);
    CheckIsBroken(Digit, pw);
    CheckIsBroken(Special, pw);
    BrokenAppend([Length] + [Lowercase] + [Uppercase] + [Digit], [Special], pw);
    BrokenAppend([Length] + [Lowercase] + [Uppercase], [Digit], pw);
    BrokenAppend([Length] + [Lowercase], [Uppercase], pw);
    BrokenAppend([Length], [Lowercase], pw);
  }

  lemma MessagesSnoc(rs: seq<Rule>, r: Rule)
    ensures Messages(rs + [r]) == Messages(rs) + [Message(r)]
  {
    assert |Messages(rs + [r])| == |Messages(rs) + [Message(r)]|;
    forall i | 0 <= i < |rs| + 1
      ensures Messages(rs + [r])[i] == (Messages(rs) + [Message(r)])[i]
    {
      if i < |rs| {
        assert (rs + [r])[i] == rs[i];
      }
    }
  }

  /** `validatePassword`: five checks in sequence, each pushing its message when it fails. */
  method ValidatePassword(pw: string) returns (errors: seq<string>)
    ensures errors == PasswordErrors(pw)
  {
    errors := [];
    if |pw| < MinPasswordLength {
      errors := errors + [Message(Length)];
    }
    ghost var broken := Check(Length, pw);
    assert errors == Messages(broken);
    if !ContainsLower(pw) {
      errors := errors + [Message(Lowercase)];
    }
    assert errors == Messages(broken + Check(Lowercase, pw)) by { CheckStep(broken, Lowercase, pw); }
    broken := broken + Check(Lowercase, pw);
    if !ContainsUpper(pw) {
      errors := errors + [Message(Uppercase)];
    }
    assert errors == Messages(broken + Check(Uppercase, pw)) by { CheckStep(broken, Uppercase, pw); }
    broken := broken + Check(Uppercase, pw);
    if !ContainsDigit(pw) {
      errors := errors + [Message(Digit)];
    }
    assert errors == Messages(broken + Check(Digit, pw)) by { CheckStep(broken, Digit, pw); }
    broken := broken + Check(Digit, pw);
    if !ContainsSpecial(pw) {
      errors := errors + [Message(Special)];
    }
    assert errors == Messages(broken + Check(Special, pw)) by { CheckStep(broken, Special, pw); }
    broken := broken + Check(Special, pw);
    assert broken == Broken(AllRules, pw) by { BrokenUnfold(pw); }
  }

  /** One step of the validator: the pushed message list still lists the broken rules' messages. */
  lemma CheckStep(broken: seq<Rule>, r: Rule, pw: string)
    ensures Messages(broken + Check(r, pw)) == Messages(broken) + (if Holds(r, pw) then [] else [Message(r)])
  {
    if Holds(r, pw) {
      assert broken + Check(r, pw) == broken;
    } else {
      MessagesSnoc(broken, r);
    }
  }

  /** Distinct rules have distinct messages. */
  lemma MessageInjective(r: Rule, r': Rule)
    ensures Message(r) == Message(r') ==> r == r'
  {
    if r != r' {
      assert Message(r)[|"Password must "|..] != Message(r')[|"Password must "|..] || |Message(r)| != |Message(r')|;
    }
  }

  lemma MessageIn(rs: seq<Rule>, r: Rule)
    ensures Message(r) in Messages(rs) <==> r in rs
  {
    if Message(r) in Messages(rs) {
      var i :| 0 <= i < |rs| && Messages(rs)[i] == Message(r);
      MessageInjective(r, rs[i]);
    }
    if r in rs {
      var i :| 0 <= i < |rs| && rs[i] == r;
      assert Messages(rs)[i] == Message(r);
    }
  }

  /** Each rule's message is reported exactly when the rule is broken, and the list is empty
      exactly when all five rules hold. */
  lemma PasswordErrorsIff(pw: string)
    ensures Message(Length) in PasswordErrors(pw) <==> |pw| < 7
    ensures Message(Lowercase) in PasswordErrors(pw) <==> !ContainsLower(pw)
    ensures Message(Uppercase) in PasswordErrors(pw) <==> !ContainsUpper(pw)
    ensures Message(Digit) in PasswordErrors(pw) <==> !ContainsDigit(pw)
    ensures Message(Special) in PasswordErrors(pw) <==> !ContainsSpecial(pw)
    ensures PasswordErrors(pw) == [] <==> forall r :: r in AllRules ==> Holds(r, pw)
  {
    var br := Broken(AllRules, pw);
    MessageIn(br, Length);
    MessageIn(br, Lowercase);
    MessageIn(br, Uppercase);
    MessageIn(br, Digit);
    MessageIn(br, Special);
    if br != [] {
      assert br[0] in br;
    }
  }

  /** 'Abcde1!' (seven characters, every class) meets every rule. */
  lemma StrongPasswordExample()
    ensures PasswordErrors("Abcde1!") == []
  {
    var good := "Abcde1!";
    assert |good| == 7;
    assert IsUpper(good[0]) && IsLower(good[1]) && IsDigit(good[5]) && IsSpecial(good[6]);
    assert Check(Length, good) == [] && Check(Lowercase, good) == [] && Check(Uppercase, good) == [];
    assert Check(Digit, good) == [] && Check(Special, good) == [];
    BrokenUnfold(good);
  }

  /** A short lowercase-only password breaks length, uppercase, digit and special character,
      in that order. */
  lemma ShortLowercaseBroken(pw: string)
    requires |pw| < MinPasswordLength && ContainsLower(pw)
    requires !ContainsUpper(pw) && !ContainsDigit(pw) && !ContainsSpecial(pw)
    ensures Broken(AllRules, pw) == [Length, Uppercase, Digit, Special]
  {
    assert Check(Length, pw) == [Length];
    assert Check(Lowercase, pw) == [];
    assert Check(Uppercase, pw) == [Uppercase];
    assert Check(Digit, pw) == [Digit];
    assert Check(Special, pw) == [Special];
    BrokenUnfold(pw);
  }

  /** ... and so is reported with those four messages. */
  lemma ShortLowercaseErrors(pw: string)
    requires |pw| < MinPasswordLength && ContainsLower(pw)
    requires !ContainsUpper(pw) && !ContainsDigit(pw) && !ContainsSpecial(pw)
    ensures PasswordErrors(pw) == [Message(Length), Message(Uppercase), Message(Digit), Message(Special)]
  {
    ShortLowercaseBroken(pw);
    assert Messages([Length, Uppercase, Digit, Special])
        == [Message(Length), Message(Uppercase), Message(Digit), Message(Special)];
  }

  /** 'abc' breaks every rule but the lowercase one. */
  lemma WeakPasswordExample()
    ensures PasswordErrors("abc") == [Message(Length), Message(Uppercase), Message(Digit), Message(Special)]
  {
    var bad := "abc";
    assert IsLower(bad[0]);
    ShortLowercaseErrors(bad);
  }

  // ---------------------------------------------------------------------------------------------
  // The submit order

  datatype RegisterForm = RegisterForm(email: string, password: string, confirmPassword: string)

  datatype RegisterField = EmailField | PasswordField | ConfirmField

  const EmptyRegisterForm := RegisterForm("", "", "")

  const FillAllFields := "Please fill in all fields"
  const PasswordsDiffer := "Passwords do not match"
  const RegistrationSucceeded := "Registration successful! You can now log in."
  const RegistrationFailed := "Registration failed"
  const RegisterNetworkError := "Network error. Please try again."

  /** The error the submit handler stops with, or None when it goes on to send the request. */
  function SubmitCheck(f: RegisterForm): (r: Option<string>)
    ensures (f.email == "" || f.password == "" || f.confirmPassword == "") ==> r == Some(FillAllFields)
    ensures f.email != "" && f.password != "" && f.confirmPassword != "" && PasswordErrors(f.password) != [] ==>
      r == Some(PasswordErrors(f.password)[0])
    ensures f.email != "" && f.password != "" && f.confirmPassword != "" && PasswordErrors(f.password) == [] ==>
      r == (if f.password != f.confirmPassword then Some(PasswordsDiffer) else None)
  {
    if f.email == "" || f.password == "" || f.confirmPassword == "" then Some(FillAllFields)
    else if PasswordErrors(f.password) != [] then Some(PasswordErrors(f.password)[0])
    else if f.password != f.confirmPassword then Some(PasswordsDiffer)
    else None
  }

  /** A request goes out exactly when every field is filled, the password meets all five rules,
      and the two passwords agree. */
  lemma SubmitCheckPasses(f: RegisterForm)
    ensures SubmitCheck(f) == None <==>
      f.email != "" && f.password != "" && f.password == f.confirmPassword &&
      forall r :: r in AllRules ==> Holds(r, f.password)
  {
    PasswordErrorsIff(f.password);
  }

  /** A weak password is reported by its first broken rule in check order, before any mismatch. */
  lemma SubmitReportsFirstRule(f: RegisterForm)
    requires f.email != "" && f.confirmPassword != "" && f.password != ""
    requires |f.password| < MinPasswordLength
    ensures SubmitCheck(f) == Some(Message(Length))
  {
  }

  // ---------------------------------------------------------------------------------------------
  // The reply

  datatype Detail = Detail(msg: string)

  /** A successful reply; absent fields are the empty string. */
  datatype RegisterData = RegisterData(message: string, token: string, userJson: string, redirectTo: string)

  /** An error reply: the validation detail list and the `error` field ("" when absent). */
  datatype RegisterError = RegisterError(details: seq<Detail>, error: string)

  /** The inline error for a non-ok reply: the first detail's message, falling back to `error`
      when details exist, and to the fixed text only when there are none. */
  function RejectionMessage(e: RegisterError): (m: string)
    ensures |e.details| > 0 && e.details[0].msg != "" ==> m == e.details[0].msg
    ensures |e.details| > 0 && e.details[0].msg == "" ==> m == e.error
    ensures |e.details| == 0 ==> m == OrElse(e.error, RegistrationFailed) && m != ""
  {
    if |e.details| > 0 then OrElse(e.details[0].msg, e.error)
    else OrElse(e.error, RegistrationFailed)
  }

  /** The error line is left empty exactly when the first detail has no message and the reply
      has no `error`; a reply without details always yields a message. */
  lemma RejectionMessageEmptyIff(e: RegisterError)
    ensures RejectionMessage(e) == "" <==> |e.details| > 0 && e.details[0].msg == "" && e.error == ""
  {
  }

  /** A detail list whose first entry has no message, next to an absent `error`, leaves the
      error line empty although the registration failed. */
  lemma RejectionMessageCanBeEmpty()
    ensures RejectionMessage(RegisterError([Detail("")], "")) == ""
  {
  }

  class RegisterPage {
    var form: RegisterForm
    var error: string
    var success: string
    var isSubmitting: bool

    constructor ()
      ensures form == EmptyRegisterForm && error == "" && success == "" && !isSubmitting
    {
      form := EmptyRegisterForm;
      error := "";
      success := "";
      isSubmitting := false;
    }

    /** Typing sets the named field and clears both messages. */
    method HandleInputChange(k: RegisterField, value: string)
      modifies this
      ensures form == match k
                      case EmailField => old(form).(email := value)
                      case PasswordField => old(form).(password := value)
                      case ConfirmField => old(form).(confirmPassword := value)
      ensures error == "" && success == "" && isSubmitting == old(isSubmitting)
    {
      match k {
        case EmailField => form := form.(email := value);
        case PasswordField => form := form.(password := value);
        case ConfirmField => form := form.(confirmPassword := value);
      }
      if error != "" {
        error := "";
      }
      if success != "" {
        success := "";
      }
    }

    /** Submit: the checks in order; the request (email, password, confirmPassword) is returned
        only when they all pass, and then the form is in flight. */
    method HandleSubmit() returns (request: Option<RegisterForm>)
      modifies this
      ensures form == old(form)
      ensures request.Some? <==> SubmitCheck(old(form)) == None
      ensures request.Some? ==> request.value == old(form) && isSubmitting && error == "" && success == ""
      ensures request.None? ==>
        error == SubmitCheck(old(form)).value && success == old(success) && isSubmitting == old(isSubmitting)
    {
      if form.email == "" || form.password == "" || form.confirmPassword == "" {
        error := FillAllFields;
        return None;
      }
      var passwordErrors := ValidatePassword(form.password);
      if |passwordErrors| > 0 {
        error := passwordErrors[0];
        return None;
      }
      if form.password != form.confirmPassword {
        error := PasswordsDiffer;
        return None;
      }
      isSubmitting := true;
      error := "";
      success := "";
      request := Some(form);
    }

    /** The reply: on ok both session keys are written and the page is left, for the welcome page
        when the server asks for it and through the app's register callback otherwise. */
    method ReceiveResponse(app: App.AppState, b: BrowserState, reply: Reply<RegisterData, RegisterError>)
      modifies this, b
      ensures !isSubmitting && form == old(form)
      ensures reply.Accepted? ==>
        success == OrElse(reply.body.message, RegistrationSucceeded) && error == old(error)
        && b.storage == StoreSession(old(b.storage), reply.body.token, reply.body.userJson)
        && b.route == Some(if reply.body.redirectTo == WelcomeRoute then WelcomeRoute else AdminRoute)
      ensures reply.Rejected? ==>
        error == RejectionMessage(reply.error) && success == old(success)
        && b.storage == old(b.storage) && b.route == old(b.route)
      ensures reply.NetworkError? ==>
        error == RegisterNetworkError && success == old(success)
        && b.storage == old(b.storage) && b.route == old(b.route)
    {
      match reply {
        case Accepted(data) =>
          success := OrElse(data.message, RegistrationSucceeded);
          b.storage := StoreSession(b.storage, data.token, data.userJson);
          if data.redirectTo == WelcomeRoute {
            b.NavigateTo(WelcomeRoute);
          } else {
            app.HandleAdminRegister(b, data.userJson, data.token);
          }
        case Rejected(e) =>
          error := RejectionMessage(e);
        case NetworkError =>
          error := RegisterNetworkError;
      }
      isSubmitting := false;
    }
  }
}
