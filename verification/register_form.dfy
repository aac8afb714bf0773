/** The registration form: one error per field, each the first rule the field
    breaks, the digit-only phone input, and the submission, which is sent
    only when no field has an error. */
module RegisterForm {
  import opened Js
  import opened Validation

  datatype Fields = Fields(
    fullName: string,
    email: string,
    phone: string,
    password: string,
    confirm: string,
    agreed: bool)

  /** The error map; `None` is a field without an entry. */
  datatype Errors = Errors(
    fullName: Option<string>,
    email: Option<string>,
    phone: Option<string>,
    password: Option<string>,
    confirm: Option<string>,
    terms: Option<string>)

  const NoErrors: Errors := Errors(None, None, None, None, None, None)

  predicate HasUpper(s: string) {
    exists k :: 0 <= k < |s| && IsUpper(s[k])
  }

  predicate HasDigit(s: string) {
    exists k :: 0 <= k < |s| && IsDigit(s[k])
  }

  /** The pattern `^[0-9]{10,11}$`. */
  predicate PhonePattern(p: string) {
    AllDigits(p) && 10 <= |p| <= 11
  }

  /** The name rule, measured as `trim().length` in UTF-16 code units. */
  function FullNameError(name: string): (r: Option<string>)
    ensures r.None? <==> Utf16Length(Trim(name)) >= 2
    ensures AllSpace(name) ==> r == Some("Full name is required")
    ensures !AllSpace(name) && r.Some? ==> r == Some("Please enter a valid full name")
  {
    TrimEmptyIffBlank(name);
    if Trim(name) == "" then Some("Full name is required")
    else if Utf16Length(Trim(name)) < 2 then Some("Please enter a valid full name")
    else None
  }

  function PhoneError(phone: string): (r: Option<string>)
    ensures r.None? <==> PhonePattern(phone)
    ensures phone == "" ==> r == Some("Phone number is required")
  {
    if phone == "" then Some("Phone number is required")
    else if !PhonePattern(phone) then Some("Please enter a valid phone number (10-11 digits)")
    else None
  }

  /** The password rules in their order: present, a `length` of at least
      eight UTF-16 code units, then an upper-case letter and a digit. */
  function PasswordError(password: string): (r: Option<string>)
    ensures r.None? <==> Utf16Length(password) >= 8 && HasUpper(password) && HasDigit(password)
    ensures password == "" ==> r == Some("Password is required")
    ensures 0 < Utf16Length(password) < 8 ==> r == Some("Password must be at least 8 characters")
    ensures Utf16Length(password) >= 8 && r.Some? ==> r == Some("Password must include uppercase letters and numbers")
  {
    if password == "" then Some("Password is required")
    else if Utf16Length(password) < 8 then Some("Password must be at least 8 characters")
    else if !HasUpper(password) || !HasDigit(password) then Some("Password must include uppercase letters and numbers")
    else None
  }

  function ConfirmError(password: string, confirm: string): (r: Option<string>)
    ensures r.None? <==> confirm != "" && confirm == password
  {
    if confirm == "" then Some("Please confirm your password")
    else if password != confirm then Some("Passwords do not match")
    else None
  }

  /** `validateForm`: a fresh error map with one entry per failing field. */
  function Validate(f: Fields): (r: Errors)
    ensures r.fullName.None? <==> Utf16Length(Trim(f.fullName)) >= 2
    ensures r.email.None? <==> EmailShape(f.email)
    ensures r.phone.None? <==> PhonePattern(f.phone)
    ensures r.password.None? <==> Utf16Length(f.password) >= 8 && HasUpper(f.password) && HasDigit(f.password)
    ensures r.confirm.None? <==> f.confirm != "" && f.confirm == f.password
    ensures r.terms.None? <==> f.agreed
  {
    Errors(
      FullNameError(f.fullName),
      EmailError(f.email),
      PhoneError(f.phone),
      PasswordError(f.password),
      ConfirmError(f.password, f.confirm),
      if f.agreed then None else Some("You must agree to the terms and conditions"))
  }

  /** The form is valid exactly when every rule holds: a name of two or more
      characters after trimming, an address of the accepted shape, ten or
      eleven digits of phone, a password of eight or more characters with an
      upper-case letter and a digit, the same password again, and the terms. */
  lemma ValidIffEveryRuleHolds(f: Fields)
    ensures Validate(f) == NoErrors <==>
              && Utf16Length(Trim(f.fullName)) >= 2
              && EmailShape(f.email)
              && PhonePattern(f.phone)
              && Utf16Length(f.password) >= 8 && HasUpper(f.password) && HasDigit(f.password)
              && f.confirm == f.password
              && f.agreed
  {
  }

  /** A single character outside the Basic Multilingual Plane is a two-unit
      name in JavaScript, so the page accepts it although it is one character. */
  lemma AstralNameIsLongEnough()
    ensures |"\U{1F600}"| == 1
    ensures FullNameError("\U{1F600}").None?
  {
    var c := '\U{1F600}';
    var s := [c];
    assert s == "\U{1F600}";
    assert !IsSpace(c);
    assert TrimStart(s) == s;
    assert TrimEnd(s) == s;
    assert Utf16Length(s) == Utf16Units(c) + Utf16Length([]) by {
      assert s[1..] == [];
    }
  }

  /** The phone input's `onChange`: only the digits of what was typed are kept,
      and the phone error is cleared while the others stay. */
  function PhoneInput(errors: Errors, typed: string): (r: (string, Errors))
    ensures AllDigits(r.0) && |r.0| <= |typed|
    ensures r.1 == errors.(phone := None)
  {
    (DigitsOnly(typed), errors.(phone := None))
  }

  /** Through the phone input the phone rule accepts exactly a typing that
      contains ten or eleven digits, wherever they are. */
  lemma PhoneInputAcceptedIffEnoughDigits(errors: Errors, typed: string)
    ensures PhoneError(PhoneInput(errors, typed).0).None? <==> 10 <= |DigitsOnly(typed)| <= 11
    ensures PhoneInput(errors, PhoneInput(errors, typed).0).0 == PhoneInput(errors, typed).0
  {
    DigitsOnlyIdempotent(typed);
  }

  /** The answer to the registration request: a body that could be read, with
      `ok`, its `message` and `data.token`; or a thrown error with its message. */
  datatype Answer =
    | Responded(ok: bool, message: string, token: Option<string>)
    | Threw(message: string)

  /** What `handleSubmit` leaves behind. `accessToken` is the entry of that
      name, which no other page reads, and `userStored` tells whether the
      `user` entry was written next to it. */
  datatype Submission = Submission(
    errors: Errors,
    requested: bool,
    error: Option<string>,
    accessToken: Option<string>,
    userStored: bool,
    redirect: Option<string>)

  const Homepage: string := "https://nguientiendat.online"

  /** `handleSubmit`: an invalid form shows its errors and sends nothing. A
      non-`ok` response reports the server's message or a fixed text; on
      success the token is kept when present and the page leaves for the home page. */
  function Submit(f: Fields, answer: Answer): (r: Submission)
    ensures r.errors == Validate(f)
    ensures r.requested <==> Validate(f) == NoErrors
    ensures !r.requested ==> r.error.None? && r.accessToken.None? && r.redirect.None?
    ensures r.redirect.Some? <==> r.requested && answer.Responded? && answer.ok
    ensures r.requested ==> (r.error.Some? <==> r.redirect.None?)
    ensures r.error.Some? ==> r.error.value != ""
    ensures r.accessToken.Some? <==> r.redirect.Some? && Truthy(answer.token)
    ensures r.accessToken.Some? ==> r.accessToken == answer.token
    ensures r.userStored <==> r.accessToken.Some?
  {
    var errors := Validate(f);
    if errors != NoErrors then Submission(errors, false, None, None, false, None)
    else match answer
      case Threw(m) =>
        Submission(errors, true, Some(if m != "" then m else "Something went wrong. Please try again."), None, false, None)
      case Responded(ok, m, token) =>
        if !ok then Submission(errors, true, Some(if m != "" then m else "Registration failed"), None, false, None)
        else Submission(errors, true, None, if Truthy(token) then token else None, Truthy(token), Some(Homepage))
  }
}
