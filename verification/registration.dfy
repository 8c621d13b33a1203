/**
 Field checks of the user registration form: the phone number, the email
 address and the first password field. Character classes are ASCII.
 */
module Registration {
  import opened Models

  datatype Result<T, E> = Ok(value: T) | Err(error: E)

  datatype FieldError =
    | PhoneTooLong
    | PhoneNotDigits
    | PhoneWrongLength
    | EmailTaken
    | PasswordTooShort
    | PasswordNoUpper
    | PasswordNoLower
    | PasswordNoDigit
    | PasswordMismatch

  predicate IsDigit(c: char) { '0' <= c <= '9' }
  predicate IsUpper(c: char) { 'A' <= c <= 'Z' }
  predicate IsLower(c: char) { 'a' <= c <= 'z' }

  /** A string of digits only; as with the string method it mirrors, the
      empty string does not count. */
  predicate AllDigits(s: string) {
    |s| > 0 && forall i :: 0 <= i < |s| ==> IsDigit(s[i])
  }

  predicate HasUpper(s: string) { exists i :: 0 <= i < |s| && IsUpper(s[i]) }
  predicate HasLower(s: string) { exists i :: 0 <= i < |s| && IsLower(s[i]) }
  predicate HasDigit(s: string) { exists i :: 0 <= i < |s| && IsDigit(s[i]) }

  /** What a valid phone number is: ten characters, each a decimal digit. */
  predicate IsPhoneNumber(p: string) {
    |p| == 10 && forall i :: 0 <= i < 10 ==> '0' <= p[i] <= '9'
  }

  /** Accepts a phone number of exactly ten digits and returns it unchanged;
      a non-digit is reported before a wrong length. */
  function CleanPhone(phone: string): (r: Result<string, FieldError>)
    ensures r.Ok? <==> IsPhoneNumber(phone)
    ensures r.Ok? ==> r.value == phone
    ensures r.Err? ==> r.error in {PhoneNotDigits, PhoneWrongLength}
    ensures r == Err(PhoneNotDigits) <==> !AllDigits(phone)
    ensures r == Err(PhoneWrongLength) <==> AllDigits(phone) && |phone| != 10
  {
    if !AllDigits(phone) then Err(PhoneNotDigits)
    else if |phone| != 10 then Err(PhoneWrongLength)
    else Ok(phone)
  }

  /** The phone field as a whole: the field's declared maximum of ten
      characters is enforced before the phone check runs. */
  function CleanPhoneField(phone: string): (r: Result<string, FieldError>)
    ensures r.Ok? <==> IsPhoneNumber(phone)
    ensures r.Ok? ==> r.value == phone
    ensures r == Err(PhoneTooLong) <==> |phone| > 10
    ensures r == Err(PhoneWrongLength) ==> |phone| < 10
    ensures |phone| <= 10 ==> r == CleanPhone(phone)
  {
    if |phone| > 10 then Err(PhoneTooLong) else CleanPhone(phone)
  }

  /** Accepts an email address that no account uses yet, unchanged. */
  function CleanEmail(email: string, registered: set<string>): (r: Result<string, FieldError>)
    ensures r.Ok? <==> email !in registered
    ensures r.Ok? ==> r.value == email
    ensures r.Err? ==> r.error == EmailTaken
  {
    if email in registered then Err(EmailTaken) else Ok(email)
  }

  /** The password checks in the order they run. */
  const PasswordChecks: seq<FieldError> :=
    [PasswordTooShort, PasswordNoUpper, PasswordNoLower, PasswordNoDigit, PasswordMismatch]

  /** A value is truthy when it is present and non-empty. */
  predicate Truthy(s: Option<string>) {
    s.Some? && |s.value| > 0
  }

  /** Whether `password1` passes the check that reports `e`. `password2` is
      the confirmation as the cleaned data holds it at that moment: None when
      the confirmation field has not been cleaned yet. */
  predicate Passes(e: FieldError, password1: string, password2: Option<string>) {
    match e
    case PasswordTooShort => |password1| >= 8
    case PasswordNoUpper => HasUpper(password1)
    case PasswordNoLower => HasLower(password1)
    case PasswordNoDigit => HasDigit(password1)
    case PasswordMismatch => !(|password1| > 0 && Truthy(password2) && password1 != password2.value)
    case _ => true
  }

  /** Checks the first password: at least 8 characters, an upper-case letter,
      a lower-case letter and a digit, then that it matches a non-empty
      confirmation. The first failing check is the one reported. */
  function CleanPassword1(password1: string, password2: Option<string>): (r: Result<string, FieldError>)
    ensures r.Ok? <==> forall k :: 0 <= k < |PasswordChecks| ==> Passes(PasswordChecks[k], password1, password2)
    ensures r.Ok? ==> r.value == password1
    ensures r.Err? ==> exists k :: (0 <= k < |PasswordChecks| && r.error == PasswordChecks[k]
      && !Passes(PasswordChecks[k], password1, password2)
      && forall j :: 0 <= j < k ==> Passes(PasswordChecks[j], password1, password2))
  {
    assert PasswordChecks[0] == PasswordTooShort && PasswordChecks[1] == PasswordNoUpper;
    assert PasswordChecks[2] == PasswordNoLower && PasswordChecks[3] == PasswordNoDigit;
    assert PasswordChecks[4] == PasswordMismatch;
    if |password1| < 8 then Err(PasswordTooShort)
    else if !HasUpper(password1) then Err(PasswordNoUpper)
    else if !HasLower(password1) then Err(PasswordNoLower)
    else if !HasDigit(password1) then Err(PasswordNoDigit)
    else if |password1| > 0 && Truthy(password2) && password1 != password2.value then Err(PasswordMismatch)
    else Ok(password1)
  }

  /** The phone numbers the registration form is exercised with. */
  lemma PhoneExamples()
    ensures CleanPhone("1234567890") == Ok("1234567890")
    ensures CleanPhone("123456789") == Err(PhoneWrongLength)
    ensures CleanPhone("12345678901") == Err(PhoneWrongLength)
    ensures CleanPhoneField("12345678901") == Err(PhoneTooLong)
    ensures CleanPhoneField("123456789") == Err(PhoneWrongLength)
    ensures CleanPhone("123456789a") == Err(PhoneNotDigits)
  {
    assert !IsDigit("123456789a"[9]);
  }

  /** The passwords the registration form is exercised with. */
  lemma PasswordExamples()
    ensures CleanPassword1("TestPass123", Some("TestPass123")) == Ok("TestPass123")
    ensures CleanPassword1("TestPass123", Some("TestPass456")) == Err(PasswordMismatch)
    ensures CleanPassword1("Short1", Some("Short1")) == Err(PasswordTooShort)
  {
    assert IsUpper("TestPass123"[0]) && IsLower("TestPass123"[1]) && IsDigit("TestPass123"[8]);
  }

  /** Passwords missing one character class are refused for that class. */
  lemma WeakPasswordExamples()
    ensures CleanPassword1("testpass123", Some("testpass123")) == Err(PasswordNoUpper)
    ensures CleanPassword1("TESTPASS123", Some("TESTPASS123")) == Err(PasswordNoLower)
    ensures CleanPassword1("TestPass", Some("TestPass")) == Err(PasswordNoDigit)
  {
    assert IsLower("testpass123"[0]);
    assert IsUpper("TESTPASS123"[0]);
    assert IsUpper("TestPass"[0]) && IsLower("TestPass"[1]);
  }

  /** A strong password is never refused for its confirmation when the
      confirmation is empty or has not been cleaned yet. */
  lemma MissingConfirmationIsNotChecked(password1: string, password2: Option<string>)
    requires !Truthy(password2)
    ensures CleanPassword1(password1, password2).Ok? <==>
      |password1| >= 8 && HasUpper(password1) && HasLower(password1) && HasDigit(password1)
  {
    assert forall k :: 0 <= k < |PasswordChecks| ==>
      PasswordChecks[k] in {PasswordTooShort, PasswordNoUpper, PasswordNoLower, PasswordNoDigit, PasswordMismatch};
  }

  /** The form cleans its fields in declaration order, password1 before
      password2, so when the first password is checked the confirmation is not
      in the cleaned data yet: in the form the mismatch branch is never taken. */
  lemma FormNeverReportsMismatch(password1: string)
    ensures CleanPassword1(password1, None) != Err(PasswordMismatch)
    ensures CleanPassword1(password1, None).Ok? <==>
      |password1| >= 8 && HasUpper(password1) && HasLower(password1) && HasDigit(password1)
  {
    MissingConfirmationIsNotChecked(password1, None);
  }
}
