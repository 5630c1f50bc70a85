/**
 * The registration page script: the role picker, the field checks that
 * all run before anything is sent, the e-mail and phone patterns, and the
 * page's reading of the server's answer.
 */
module RegisterPage {
  import opened Wrappers
  import opened Text

  // ---------------------------------------------------------------------------
  // Patterns.
  // ---------------------------------------------------------------------------

  /** One run of the class `[^\s@]+`: not empty, no whitespace and no "@". */
  predicate Part(p: string)
  {
    p != [] && forall k :: 0 <= k < |p| ==> p[k] != '@' && !IsJsSpace(p[k])
  }

  /**
   * The address pattern `^[^\s@]+@[^\s@]+\.[^\s@]+$` read as a split of the
   * whole text at an "@" and a later ".", each of the three pieces a `Part`.
   */
  ghost predicate EmailPattern(e: string)
  {
    exists i, j :: 0 < i && i + 1 < j < |e| - 1 && e[i] == '@' && e[j] == '.'
                   && Part(e[..i]) && Part(e[i + 1..j]) && Part(e[j + 1..])
  }

  /** The domain after the "@": a `Part` with a "." that has a character on each side. */
  predicate DomainOk(d: string)
  {
    |d| >= 3 && Part(d) && '.' in d[1..|d| - 1]
  }

  /** `isValidEmail`, computed: the first "@" ends a non-empty local part and starts a dotted domain. */
  function IsValidEmail(e: string): bool
  {
    if '@' !in e then false
    else
      var i := IndexOf(e, '@');
      i > 0 && Part(e[..i]) && DomainOk(e[i + 1..])
  }

  /** Every piece of a `Part` is a `Part`. */
  lemma PartSlice(p: string, a: int, b: int)
    requires Part(p) && 0 <= a < b <= |p|
    ensures Part(p[a..b])
  {
  }

  /** Whatever the computed check accepts, the pattern matches. */
  lemma CheckedEmailMatches(e: string)
    requires IsValidEmail(e)
    ensures EmailPattern(e)
  {
    var i := IndexOf(e, '@');
    var d := e[i + 1..];
    var t := IndexOf(d[1..|d| - 1], '.');
    var j := i + 2 + t;
    assert e[j] == d[1 + t] == '.';
    assert e[i + 1..j] == d[..1 + t];
    PartSlice(d, 0, 1 + t);
    assert e[j + 1..] == d[2 + t..];
    PartSlice(d, 2 + t, |d|);
  }

  /** The "@" of a split the pattern matches is the first one. */
  lemma SplitAtFirstAt(e: string, i: int)
    requires 0 < i < |e| && e[i] == '@' && Part(e[..i])
    ensures '@' in e && IndexOf(e, '@') == i
  {
  }

  /** A dotted domain built from two `Part`s passes the domain check. */
  lemma DomainOfSplit(m: string, r: string)
    requires Part(m) && Part(r)
    ensures DomainOk(m + ['.'] + r)
  {
    var d := m + ['.'] + r;
    forall n | 0 <= n < |d|
      ensures d[n] != '@' && !IsJsSpace(d[n])
    {
      if n < |m| {
        assert d[n] == m[n];
      } else if n > |m| {
        assert d[n] == r[n - |m| - 1];
      }
    }
    assert d[1..|d| - 1][|m| - 1] == '.';
  }

  /** Whatever the pattern matches, the computed check accepts. */
  lemma MatchedEmailChecks(e: string)
    requires EmailPattern(e)
    ensures IsValidEmail(e)
  {
    var i, j :| 0 < i && i + 1 < j < |e| - 1 && e[i] == '@' && e[j] == '.'
                && Part(e[..i]) && Part(e[i + 1..j]) && Part(e[j + 1..]);
    SplitChecks(e, i, j);
  }

  lemma SplitChecks(e: string, i: int, j: int)
    requires 0 < i && i + 1 < j < |e| - 1 && e[i] == '@' && e[j] == '.'
    requires Part(e[..i]) && Part(e[i + 1..j]) && Part(e[j + 1..])
    ensures IsValidEmail(e)
  {
    SplitAtFirstAt(e, i);
    var d := e[i + 1..];
    assert d == e[i + 1..j] + ['.'] + e[j + 1..];
    DomainOfSplit(e[i + 1..j], e[j + 1..]);
    assert DomainOk(d);
  }

  /** The computed check accepts exactly the addresses the pattern matches. */
  lemma EmailCheckIsPattern(e: string)
    ensures IsValidEmail(e) <==> EmailPattern(e)
  {
    if IsValidEmail(e) {
      CheckedEmailMatches(e);
    }
    if EmailPattern(e) {
      MatchedEmailChecks(e);
    }
  }

  /** Two `Part`s joined by an "@": that "@" is the only one and nothing is whitespace. */
  lemma JoinedParts(a: string, b: string, e: string)
    requires Part(a) && Part(b) && e == a + ['@'] + b
    ensures forall k :: 0 <= k < |e| && e[k] == '@' ==> k == |a|
    ensures forall k :: 0 <= k < |e| ==> !IsJsSpace(e[k])
  {
    assert !IsJsSpace('@');
    forall k | 0 <= k < |e|
      ensures e[k] == '@' ==> k == |a|
      ensures !IsJsSpace(e[k])
    {
      if k < |a| {
        assert e[k] == a[k];
      } else if k > |a| {
        assert e[k] == b[k - |a| - 1];
      }
    }
  }

  /** An accepted address splits at its first "@" into two `Part`s. */
  lemma AcceptedSplit(e: string)
    requires IsValidEmail(e)
    ensures '@' in e && 0 < IndexOf(e, '@')
    ensures var i := IndexOf(e, '@'); e == e[..i] + ['@'] + e[i + 1..] && Part(e[..i]) && Part(e[i + 1..])
  {
    var i := IndexOf(e, '@');
    assert e == e[..i] + ['@'] + e[i + 1..];
  }

  /** An accepted address has exactly one "@", not at the start, and no whitespace... */
  lemma AcceptedEmailShape(e: string)
    requires IsValidEmail(e)
    ensures '@' in e && 0 < IndexOf(e, '@')
    ensures forall k :: 0 <= k < |e| && e[k] == '@' ==> k == IndexOf(e, '@')
    ensures forall k :: 0 <= k < |e| ==> !IsJsSpace(e[k])
  {
    AcceptedSplit(e);
    var i := IndexOf(e, '@');
    JoinedParts(e[..i], e[i + 1..], e);
  }

  /** ... and a "." after the "@" with a character on each side. */
  lemma AcceptedEmailDot(e: string)
    requires IsValidEmail(e)
    ensures exists j :: IndexOf(e, '@') + 1 < j < |e| - 1 && e[j] == '.'
  {
    var i := IndexOf(e, '@');
    var d := e[i + 1..];
    DomainDot(d);
    var t :| 0 < t < |d| - 1 && d[t] == '.';
    assert e[i + 1 + t] == d[t];
  }

  lemma DomainDot(d: string)
    requires DomainOk(d)
    ensures exists t :: 0 < t < |d| - 1 && d[t] == '.'
  {
    var t := IndexOf(d[1..|d| - 1], '.');
    assert d[t + 1] == '.';
  }

  /** The phone pattern `^\d{10,15}$`. */
  predicate PhonePattern(p: string)
  {
    10 <= |p| <= 15 && AllDigits(p)
  }

  // ---------------------------------------------------------------------------
  // Field checks, each on the value as the page reads it.
  // ---------------------------------------------------------------------------

  function NameCheck(name: string): (e: Option<Shown>)
    ensures e.Some? <==> name == ""
    ensures e.Some? ==> e.value == Shown("nameError", "Enter your name")
  {
    if name == "" then Some(Shown("nameError", "Enter your name")) else None
  }

  function EmailCheck(email: string): (e: Option<Shown>)
    ensures email == "" ==> e == Some(Shown("emailError", "Enter your email"))
    ensures email != "" ==> (e.Some? <==> !IsValidEmail(email))
    ensures email != "" && e.Some? ==> e.value == Shown("emailError", "Enter a valid email address")
  {
    if email == "" then Some(Shown("emailError", "Enter your email"))
    else if !IsValidEmail(email) then Some(Shown("emailError", "Enter a valid email address"))
    else None
  }

  function PhoneCheck(phone: string): (e: Option<Shown>)
    ensures phone == "" ==> e == Some(Shown("phoneError", "Enter your mobile number"))
    ensures phone != "" ==> (e.Some? <==> !PhonePattern(phone))
    ensures phone != "" && e.Some? ==> e.value == Shown("phoneError", "Enter a valid phone number (10-15 digits)")
  {
    if phone == "" then Some(Shown("phoneError", "Enter your mobile number"))
    else if !PhonePattern(phone) then Some(Shown("phoneError", "Enter a valid phone number (10-15 digits)"))
    else None
  }

  function PasswordCheck(password: string): (e: Option<Shown>)
    ensures password == "" ==> e == Some(Shown("passwordError", "Enter a password"))
    ensures password != "" ==> (e.Some? <==> |password| < 6)
    ensures password != "" && e.Some? ==> e.value == Shown("passwordError", "Password must be at least 6 characters")
  {
    if password == "" then Some(Shown("passwordError", "Enter a password"))
    else if |password| < 6 then Some(Shown("passwordError", "Password must be at least 6 characters"))
    else None
  }

  function ConfirmCheck(password: string, confirm: string): (e: Option<Shown>)
    ensures e.Some? <==> password != confirm
    ensures e.Some? ==> e.value == Shown("confirmPasswordError", "Passwords do not match")
  {
    if password != confirm then Some(Shown("confirmPasswordError", "Passwords do not match")) else None
  }

  /** The message a check contributes to the list shown: none when it passes. */
  function Reported(check: Option<Shown>): (r: seq<Shown>)
    ensures check.None? <==> r == []
    ensures check.Some? ==> r == [check.value]
  {
    if check.None? then [] else [check.value]
  }

  /** Everything `handleRegistration` shows for one set of values, in the page's order. */
  function FieldErrors(name: string, email: string, phone: string, password: string, confirm: string): seq<Shown>
  {
    Reported(NameCheck(name)) + Reported(EmailCheck(email)) + Reported(PhoneCheck(phone))
    + Reported(PasswordCheck(password)) + Reported(ConfirmCheck(password, confirm))
  }

  /**
   * No check hides another: each failing check's message is shown whatever
   * the other fields hold, and nothing is shown exactly when every field
   * is acceptable.
   */
  lemma AllChecksReported(name: string, email: string, phone: string, password: string, confirm: string)
    ensures var errors := FieldErrors(name, email, phone, password, confirm);
            && (NameCheck(name).Some? ==> NameCheck(name).value in errors)
            && (EmailCheck(email).Some? ==> EmailCheck(email).value in errors)
            && (PhoneCheck(phone).Some? ==> PhoneCheck(phone).value in errors)
            && (PasswordCheck(password).Some? ==> PasswordCheck(password).value in errors)
            && (ConfirmCheck(password, confirm).Some? ==> ConfirmCheck(password, confirm).value in errors)
    ensures FieldErrors(name, email, phone, password, confirm) == [] <==>
              name != "" && EmailPattern(email) && PhonePattern(phone) && |password| >= 6 && password == confirm
  {
    EmailCheckIsPattern(email);
  }

  // ---------------------------------------------------------------------------
  // The page.
  // ---------------------------------------------------------------------------

  /**
   * The checks of `handleRegistration`, on the trimmed values: each one
   * runs, adds its message when it fails and clears the `isValid` flag.
   */
  method Validate(name: string, email: string, phone: string, password: string, confirm: string)
    returns (isValid: bool, errors: seq<Shown>)
    ensures errors == FieldErrors(name, email, phone, password, confirm)
    ensures isValid <==> errors == []
    ensures isValid <==> name != "" && EmailPattern(email) && PhonePattern(phone) && |password| >= 6 && password == confirm
  {
    errors := [];
    isValid := true;

    var check := NameCheck(name);
    if check.Some? {
      errors := errors + [check.value];
      isValid := false;
    }
    assert errors == Reported(NameCheck(name));
    check := EmailCheck(email);
    if check.Some? {
      errors := errors + [check.value];
      isValid := false;
    }
    assert errors == Reported(NameCheck(name)) + Reported(EmailCheck(email));
    check := PhoneCheck(phone);
    if check.Some? {
      errors := errors + [check.value];
      isValid := false;
    }
    assert errors == Reported(NameCheck(name)) + Reported(EmailCheck(email)) + Reported(PhoneCheck(phone));
    check := PasswordCheck(password);
    if check.Some? {
      errors := errors + [check.value];
      isValid := false;
    }
    assert errors == Reported(NameCheck(name)) + Reported(EmailCheck(email)) + Reported(PhoneCheck(phone))
                     + Reported(PasswordCheck(password));
    check := ConfirmCheck(password, confirm);
    if check.Some? {
      errors := errors + [check.value];
      isValid := false;
    }
    assert isValid <==> errors == [];
    AllChecksReported(name, email, phone, password, confirm);
  }

  /** The JSON body posted to registration. */
  datatype RegistrationBody = RegistrationBody(name: string, email: string, phone: string, password: string,
                                               role: string)

  /** What the page does with the server's answer. */
  datatype Outcome = Created(message: string, redirect: string) | Failed(shown: Shown)

  /** The answer read: success, a conflict, any other refusal, or no answer at all. */
  function RegistrationReply(reply: Reply): (r: Outcome)
    ensures reply.Ok() <==> r == Created("Account created successfully! Redirecting to login...", "/login.html")
    ensures reply.Answered? && reply.status == 409 ==>
              r == Failed(Shown("emailError", "An account with this email already exists"))
    ensures reply.Answered? && !reply.Ok() && reply.status != 409 ==>
              r == Failed(Shown("emailError", "Registration failed. Please try again."))
    ensures reply.NetworkFailure? ==> r == Failed(Shown("emailError", "Network error. Please try again."))
  {
    if reply.NetworkFailure? then Failed(Shown("emailError", "Network error. Please try again."))
    else if reply.Ok() then Created("Account created successfully! Redirecting to login...", "/login.html")
    else if reply.status == 409 then Failed(Shown("emailError", "An account with this email already exists"))
    else Failed(Shown("emailError", "Registration failed. Please try again."))
  }

  /** The page's state: the role picked, CUSTOMER until another is chosen. */
  class Registration {
    var selectedRole: string

    constructor ()
      ensures selectedRole == "CUSTOMER"
    {
      selectedRole := "CUSTOMER";
    }

    method SelectRole(role: string)
      modifies this`selectedRole
      ensures selectedRole == role
    {
      selectedRole := role;
    }

    /**
     * `handleRegistration`: name, e-mail and phone are trimmed, the
     * passwords are not; every check runs and adds its message, and only
     * when none failed is the body sent, with the selected role, and the
     * answer `reply` read.
     */
    method HandleRegistration(nameInput: string, emailInput: string, phoneInput: string, password: string,
                              confirm: string, reply: Reply)
      returns (errors: seq<Shown>, sent: Option<RegistrationBody>, outcome: Option<Outcome>)
      ensures errors == FieldErrors(JsTrim(nameInput), JsTrim(emailInput), JsTrim(phoneInput), password, confirm)
      ensures sent.Some? <==> errors == []
      ensures sent.Some? <==> && JsTrim(nameInput) != "" && EmailPattern(JsTrim(emailInput))
                              && PhonePattern(JsTrim(phoneInput)) && |password| >= 6 && password == confirm
      ensures sent.Some? ==> sent.value == RegistrationBody(JsTrim(nameInput), JsTrim(emailInput), JsTrim(phoneInput),
                                                            password, selectedRole)
      ensures outcome.Some? <==> sent.Some?
      ensures outcome.Some? ==> outcome.value == RegistrationReply(reply)
    {
      var name := JsTrim(nameInput);
      var email := JsTrim(emailInput);
      var phone := JsTrim(phoneInput);
      var isValid;
      isValid, errors := Validate(name, email, phone, password, confirm);

      if !isValid {
        return errors, None, None;
      }
      sent := Some(RegistrationBody(name, email, phone, password, selectedRole));
      outcome := Some(RegistrationReply(reply));
    }
  }
}
