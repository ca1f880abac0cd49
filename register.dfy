/**
 * The registration form: the three validators (email shape, an 11-digit
 * phone number, and the password rules reported one at a time), the
 * change handlers that keep an error message per field, and the checks
 * that `handleRegister` runs before it sends anything.
 */
module Register {

  import opened Wrappers

  // ---------------------------------------------------------------------
  // Character classes of the patterns

  /** `\s` of a JavaScript pattern: the ASCII spaces and the Unicode space separators. */
  predicate IsWhitespace(c: char)
  {
    c == ' ' || c == '\t' || c == '\n' || c == '\r' || c == '\U{000B}' || c == '\U{000C}'
    || c == '\U{00A0}' || c == '\U{1680}' || ('\U{2000}' <= c <= '\U{200A}')
    || c == '\U{2028}' || c == '\U{2029}' || c == '\U{202F}' || c == '\U{205F}' || c == '\U{3000}' || c == '\U{FEFF}'
  }

  /** `\d`: an ASCII digit. */
  predicate IsDigit(c: char)
  {
    '0' <= c <= '9'
  }

  /** `[^\s@]`: a character an email part may hold. */
  predicate IsEmailChar(c: char)
  {
    !IsWhitespace(c) && c != '@'
  }

  /** The characters a password may hold: a-z, A-Z, a digit, one of `!@#$%^&*(),.?":{}|<>`. */
  datatype CharClass = Lowercase | Uppercase | Digit | Special

  predicate InClass(c: char, cls: CharClass)
  {
    match cls
    case Lowercase => 'a' <= c <= 'z'
    case Uppercase => 'A' <= c <= 'Z'
    case Digit => IsDigit(c)
    case Special => c in "!@#$%^&*(),.?\":{}|<>"
  }

  /** `/[...]/.test(s)`: some character of `s` is in the class. */
  function Contains(s: string, cls: CharClass): (found: bool)
    ensures found <==> exists k :: 0 <= k < |s| && InClass(s[k], cls)
    decreases |s|
  {
    if s == [] then false
    else InClass(s[0], cls) || (assert forall k :: 0 < k < |s| ==> s[k] == s[1..][k - 1]; Contains(s[1..], cls))
  }

  // ---------------------------------------------------------------------
  // validateEmail

  /**
   * What `^[^\s@]+@[^\s@]+\.[^\s@]+$` accepts: one `@` after a non-empty
   * local part, and a `.` in the domain that is neither its first nor its
   * last character; no other character is whitespace or `@`.
   */
  ghost predicate EmailShape(s: string)
  {
    exists at, dot :: 0 < at && at + 1 < dot && dot + 1 < |s| && s[at] == '@' && s[dot] == '.'
      && forall k :: 0 <= k < |s| && k != at ==> IsEmailChar(s[k])
  }

  /** The first `@` at or after position `i`, if any. */
  function FindAt(s: string, i: nat): (r: int)
    requires i <= |s|
    ensures i <= r <= |s|
    ensures r < |s| ==> s[r] == '@'
    ensures forall k :: i <= k < r ==> s[k] != '@'
    decreases |s| - i
  {
    if i == |s| then |s| else if s[i] == '@' then i else FindAt(s, i + 1)
  }

  /** Every character of `s[i..j]`, except the one at `skip`, is an email character. */
  function EmailCharsFrom(s: string, i: nat, skip: int): (ok: bool)
    requires i <= |s|
    ensures ok <==> forall k :: i <= k < |s| && k != skip ==> IsEmailChar(s[k])
    decreases |s| - i
  {
    if i == |s| then true
    else (i == skip || IsEmailChar(s[i])) && EmailCharsFrom(s, i + 1, skip)
  }

  /** Some `.` lies in `s[i..j]`. */
  function HasDot(s: string, i: nat, j: int): (found: bool)
    requires i <= |s| && j <= |s|
    ensures found <==> exists k :: i <= k < j && s[k] == '.'
    decreases |s| - i
  {
    if i >= j then false else s[i] == '.' || HasDot(s, i + 1, j)
  }

  /** `validateEmail`. */
  function ValidateEmail(email: string): (ok: bool)
    ensures ok <==> EmailShape(email)
  {
    var at := FindAt(email, 0);
    var ok := 0 < at < |email| && EmailCharsFrom(email, 0, at) && at + 2 <= |email| && HasDot(email, at + 2, |email| - 1);
    assert ok ==> EmailShape(email) by {
      if ok {
        var dot :| at + 2 <= dot < |email| - 1 && email[dot] == '.';
        assert 0 < at && at + 1 < dot && dot + 1 < |email|;
      }
    }
    assert EmailShape(email) ==> ok by {
      if EmailShape(email) {
        var a, d :| 0 < a && a + 1 < d && d + 1 < |email| && email[a] == '@' && email[d] == '.'
          && forall k :: 0 <= k < |email| && k != a ==> IsEmailChar(email[k]);
        assert at == a;
        assert at + 2 <= d < |email| - 1 && email[d] == '.';
      }
    }
    ok
  }

  /** An accepted email holds exactly one `@` and no whitespace. */
  lemma EmailHasOneAt(email: string)
    requires ValidateEmail(email)
    ensures multiset(email)['@'] == 1
    ensures forall k :: 0 <= k < |email| ==> !IsWhitespace(email[k])
  {
    var at, dot :| 0 < at && at + 1 < dot && dot + 1 < |email| && email[at] == '@' && email[dot] == '.'
      && forall k :: 0 <= k < |email| && k != at ==> IsEmailChar(email[k]);
    assert email == email[..at] + [email[at]] + email[at + 1..];
    assert '@' !in email[..at];
    assert '@' !in email[at + 1..];
  }

  // ---------------------------------------------------------------------
  // validatePhoneNumber

  function AllDigits(s: string): (ok: bool)
    ensures ok <==> forall k :: 0 <= k < |s| ==> IsDigit(s[k])
    decreases |s|
  {
    if s == [] then true
    else IsDigit(s[0]) && (assert forall k :: 0 < k < |s| ==> s[k] == s[1..][k - 1]; AllDigits(s[1..]))
  }

  /** `validatePhoneNumber`: `^\d{11}$`. */
  function ValidatePhoneNumber(phone: string): (ok: bool)
    ensures ok <==> |phone| == 11 && forall k :: 0 <= k < 11 ==> IsDigit(phone[k])
  {
    |phone| == 11 && AllDigits(phone)
  }

  // ---------------------------------------------------------------------
  // validatePassword

  const TooShort := "Password must be at least 8 characters long."
  const NoLowercase := "Password must contain a lowercase letter."
  const NoUppercase := "Password must contain an uppercase letter."
  const NoDigit := "Password must contain a digit."
  const NoSpecial := "Password must contain a special character."

  /** `validatePassword`: the message of the first rule the password breaks, or "". */
  function ValidatePassword(password: string): (message: string)
    ensures message == "" <==> PasswordRulesHold(password)
    ensures message in {"", TooShort, NoLowercase, NoUppercase, NoDigit, NoSpecial}
  {
    if |password| < 8 then TooShort
    else if !Contains(password, Lowercase) then NoLowercase
    else if !Contains(password, Uppercase) then NoUppercase
    else if !Contains(password, Digit) then NoDigit
    else if !Contains(password, Special) then NoSpecial
    else ""
  }

  /** The five rules, stated on the characters. */
  ghost predicate PasswordRulesHold(p: string)
  {
    && |p| >= 8
    && (exists k :: 0 <= k < |p| && 'a' <= p[k] <= 'z')
    && (exists k :: 0 <= k < |p| && 'A' <= p[k] <= 'Z')
    && (exists k :: 0 <= k < |p| && IsDigit(p[k]))
    && (exists k :: 0 <= k < |p| && p[k] in "!@#$%^&*(),.?\":{}|<>")
  }

  /** The rules in the order they are checked. */
  datatype Rule = MinLength | HasClass(cls: CharClass)

  const RuleOrder: seq<Rule> := [MinLength, HasClass(Lowercase), HasClass(Uppercase), HasClass(Digit), HasClass(Special)]

  ghost predicate Holds(r: Rule, p: string)
  {
    match r
    case MinLength => |p| >= 8
    case HasClass(cls) => exists k :: 0 <= k < |p| && InClass(p[k], cls)
  }

  function RuleMessage(r: Rule): string
  {
    match r
    case MinLength => TooShort
    case HasClass(Lowercase) => NoLowercase
    case HasClass(Uppercase) => NoUppercase
    case HasClass(Digit) => NoDigit
    case HasClass(Special) => NoSpecial
  }

  /** The first rule of `rules` that `p` breaks, if any. */
  ghost function FirstBroken(rules: seq<Rule>, p: string): Option<Rule>
  {
    if rules == [] then None
    else if !Holds(rules[0], p) then Some(rules[0])
    else FirstBroken(rules[1..], p)
  }

  /** The rule found is broken and every rule before it holds; none found means all hold. */
  lemma {:induction false} FirstBrokenIsFirst(rules: seq<Rule>, p: string)
    ensures FirstBroken(rules, p).None? <==> forall i :: 0 <= i < |rules| ==> Holds(rules[i], p)
    ensures FirstBroken(rules, p).Some? ==>
      exists i :: 0 <= i < |rules| && rules[i] == FirstBroken(rules, p).value
        && !Holds(rules[i], p) && forall j :: 0 <= j < i ==> Holds(rules[j], p)
  {
    if rules != [] && Holds(rules[0], p) {
      FirstBrokenIsFirst(rules[1..], p);
      assert forall i :: 0 < i < |rules| ==> rules[i] == rules[1..][i - 1];
      if FirstBroken(rules, p).Some? {
        var i :| 0 <= i < |rules[1..]| && rules[1..][i] == FirstBroken(rules, p).value
          && !Holds(rules[1..][i], p) && forall j :: 0 <= j < i ==> Holds(rules[1..][j], p);
        assert rules[i + 1] == FirstBroken(rules, p).value;
      }
    }
  }

  /**
   * Only the first broken rule is reported: the message is the one of the
   * first rule, in checking order, that the password breaks.
   */
  lemma PasswordReportsFirstBroken(p: string)
    ensures ValidatePassword(p) == match FirstBroken(RuleOrder, p)
      case None => ""
      case Some(r) => RuleMessage(r)
  {
    var rules := RuleOrder;
    assert rules[1..] == [HasClass(Lowercase), HasClass(Uppercase), HasClass(Digit), HasClass(Special)];
    assert rules[1..][1..] == [HasClass(Uppercase), HasClass(Digit), HasClass(Special)];
    assert rules[1..][1..][1..] == [HasClass(Digit), HasClass(Special)];
    assert rules[1..][1..][1..][1..] == [HasClass(Special)];
    assert rules[1..][1..][1..][1..][1..] == [];
    var r1, r2, r3, r4 := rules[1..], rules[1..][1..], rules[1..][1..][1..], rules[1..][1..][1..][1..];
    assert FirstBroken(r4[1..], p) == None;
    assert FirstBroken(r4, p) == if !Holds(r4[0], p) then Some(r4[0]) else None;
    assert FirstBroken(r3, p) == if !Holds(r3[0], p) then Some(r3[0]) else FirstBroken(r4, p);
    assert FirstBroken(r2, p) == if !Holds(r2[0], p) then Some(r2[0]) else FirstBroken(r3, p);
    assert FirstBroken(r1, p) == if !Holds(r1[0], p) then Some(r1[0]) else FirstBroken(r2, p);
    assert FirstBroken(rules, p) == if !Holds(rules[0], p) then Some(rules[0]) else FirstBroken(r1, p);
    assert Contains(p, Lowercase) == Holds(HasClass(Lowercase), p);
    assert Contains(p, Uppercase) == Holds(HasClass(Uppercase), p);
    assert Contains(p, Digit) == Holds(HasClass(Digit), p);
    assert Contains(p, Special) == Holds(HasClass(Special), p);
  }

  // ---------------------------------------------------------------------
  // The form

  const EmailMessage := "Please enter a valid email address."
  const PhoneMessage := "Phone number must be exactly 11 digits."

  /** The register page's state hooks and handlers. */
  class RegisterForm {
    var email: string
    var password: string
    var name: string
    var phoneNumber: string
    var loading: bool
    var emailError: string
    var phoneNumberError: string
    var passwordError: string

    /**
     * An error shown under a field always describes the field's current
     * value: the email or phone message only for a value that fails, the
     * password message only as the message for the current password.
     */
    ghost predicate Valid()
      reads this
    {
      && (emailError == "" || (emailError == EmailMessage && !ValidateEmail(email)))
      && (phoneNumberError == "" || (phoneNumberError == PhoneMessage && !ValidatePhoneNumber(phoneNumber)))
      && (passwordError == "" || passwordError == ValidatePassword(password))
    }

    constructor()
      ensures Valid()
      ensures email == "" && password == "" && name == "" && phoneNumber == "" && !loading
      ensures emailError == "" && phoneNumberError == "" && passwordError == ""
    {
      email, password, name, phoneNumber := "", "", "", "";
      loading := false;
      emailError, phoneNumberError, passwordError := "", "", "";
    }

    /** `handleEmailChange`: a non-empty invalid value shows the email message, anything else clears it. */
    method ChangeEmail(value: string)
      requires Valid()
      modifies this
      ensures Valid()
      ensures email == value
      ensures emailError == (if value != "" && !ValidateEmail(value) then EmailMessage else "")
      ensures password == old(password) && phoneNumber == old(phoneNumber) && name == old(name)
      ensures loading == old(loading) && phoneNumberError == old(phoneNumberError)
      ensures passwordError == old(passwordError)
    {
      email := value;
      if value != "" && !ValidateEmail(value) {
        emailError := EmailMessage;
      } else {
        emailError := "";
      }
    }

    /** `handlePhoneNumberChange`, the same rule for the phone number. */
    method ChangePhoneNumber(value: string)
      requires Valid()
      modifies this
      ensures Valid()
      ensures phoneNumber == value
      ensures phoneNumberError == (if value != "" && !ValidatePhoneNumber(value) then PhoneMessage else "")
      ensures email == old(email) && password == old(password) && name == old(name)
      ensures loading == old(loading) && emailError == old(emailError) && passwordError == old(passwordError)
    {
      phoneNumber := value;
      if value != "" && !ValidatePhoneNumber(value) {
        phoneNumberError := PhoneMessage;
      } else {
        phoneNumberError := "";
      }
    }

    /** `handlePasswordChange`: a non-empty value shows its first broken rule, an empty one clears it. */
    method ChangePassword(value: string)
      requires Valid()
      modifies this
      ensures Valid()
      ensures password == value
      ensures passwordError == (if value != "" then ValidatePassword(value) else "")
      ensures email == old(email) && phoneNumber == old(phoneNumber) && name == old(name)
      ensures loading == old(loading) && emailError == old(emailError)
      ensures phoneNumberError == old(phoneNumberError)
    {
      password := value;
      if value != "" {
        passwordError := ValidatePassword(value);
      } else {
        passwordError := "";
      }
    }

    /** The name field has no validation. */
    method ChangeName(value: string)
      requires Valid()
      modifies this
      ensures Valid()
      ensures name == value
      ensures email == old(email) && password == old(password) && phoneNumber == old(phoneNumber)
      ensures loading == old(loading) && emailError == old(emailError)
      ensures phoneNumberError == old(phoneNumberError) && passwordError == old(passwordError)
    {
      name := value;
    }

    /**
     * The checks of `handleRegister` before the request: password, then
     * email, then phone number, stopping at the first that fails and
     * showing its message. `sent` says whether the request goes out; it
     * does exactly when all three pass, so the later check of the shown
     * errors never stops a submission.
     */
    method Submit() returns (sent: bool)
      requires Valid()
      modifies this
      ensures Valid()
      ensures sent <==> ValidatePassword(old(password)) == "" && ValidateEmail(old(email))
                        && ValidatePhoneNumber(old(phoneNumber))
      ensures email == old(email) && password == old(password) && phoneNumber == old(phoneNumber)
      ensures name == old(name)
      ensures ValidatePassword(password) != "" ==>
        passwordError == ValidatePassword(password)
        && emailError == old(emailError) && phoneNumberError == old(phoneNumberError)
      ensures ValidatePassword(password) == "" && !ValidateEmail(email) ==>
        emailError == EmailMessage
        && passwordError == old(passwordError) && phoneNumberError == old(phoneNumberError)
      ensures ValidatePassword(password) == "" && ValidateEmail(email) && !ValidatePhoneNumber(phoneNumber) ==>
        phoneNumberError == PhoneMessage
        && passwordError == old(passwordError) && emailError == old(emailError)
      ensures sent ==> emailError == "" && phoneNumberError == "" && passwordError == "" && loading
      ensures !sent ==> loading == old(loading)
    {
      var currentPasswordError := ValidatePassword(password);
      if currentPasswordError != "" {
        passwordError := currentPasswordError;
        return false;
      }
      if !ValidateEmail(email) {
        emailError := EmailMessage;
        return false;
      }
      if !ValidatePhoneNumber(phoneNumber) {
        phoneNumberError := PhoneMessage;
        return false;
      }
      if emailError != "" || phoneNumberError != "" || passwordError != "" {
        assert false;
        return false;
      }
      emailError := "";
      phoneNumberError := "";
      passwordError := "";
      loading := true;
      sent := true;
    }

    /** The `finally` of the request: whatever the answer, the form is usable again. */
    method FinishRequest()
      requires Valid()
      modifies this
      ensures Valid()
      ensures !loading
      ensures email == old(email) && password == old(password) && phoneNumber == old(phoneNumber)
      ensures name == old(name) && emailError == old(emailError)
      ensures phoneNumberError == old(phoneNumberError) && passwordError == old(passwordError)
    {
      loading := false;
    }
  }
}
