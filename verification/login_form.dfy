/** The sign-in form: its two field rules, and what a submission stores and
    shows for each kind of answer. */
module LoginForm {
  import opened Js
  import opened Session
  import opened Validation
  import opened Admin

  datatype Errors = Errors(email: Option<string>, password: Option<string>)

  /** The password rule: present, then a `length` of at least six UTF-16 code units. */
  function PasswordError(password: string): (r: Option<string>)
    ensures r.None? <==> Utf16Length(password) >= 6
    ensures password == "" ==> r == Some("Password is required")
    ensures 0 < Utf16Length(password) < 6 ==> r == Some("Password must be at least 6 characters")
  {
    if password == "" then Some("Password is required")
    else if Utf16Length(password) < 6 then Some("Password must be at least 6 characters")
    else None
  }

  /** `validateForm`. */
  function Validate(email: string, password: string): (r: Errors)
    ensures r.email.None? <==> EmailShape(email)
    ensures r.password.None? <==> Utf16Length(password) >= 6
  {
    Errors(EmailError(email), PasswordError(password))
  }

  /** The answer to the sign-in request. `data` is `responseData.data` when it is
      truthy; an empty `message` is a missing one. */
  datatype Answer =
      /** `fetch` itself rejected: no connection. */
    | NoConnection
      /** An `ok` status whose body is a JSON object. */
    | Accepted(data: Option<AuthData>, message: string)
      /** An `ok` status whose body cannot be read as an object: it is not
          JSON, or it is JSON `null`, whose `message` cannot be read. Either
          way the page's `catch` runs. */
    | AcceptedUnreadable
      /** Any other status; `message` is the body's, empty when it has none or is not JSON. */
    | Refused(message: string)

  /** What `handleSubmit` leaves behind. `notice` is the success toast and
      `error` the failure toast. */
  datatype Submission = Submission(
    errors: Errors,
    store: Store,
    requested: bool,
    navigation: Option<string>,
    notice: Option<string>,
    error: Option<string>)

  const ConnectionMessage: string := "Could not connect to the server. Please try again later."

  /** `handleSubmit`. An invalid form sends nothing. An `ok` answer stores its
      `data` as the session when present and goes to the home page; a refusal
      shows the server's message or a fixed text; everything else, including an
      unreadable `ok` body, is reported as a connection problem. The session is
      written only on success. */
  function Submit(store: Store, email: string, password: string, answer: Answer): (r: Submission)
    ensures r.errors == Validate(email, password)
    ensures r.requested <==> EmailShape(email) && Utf16Length(password) >= 6
    ensures !r.requested ==> r.store == store && r.navigation.None? && r.error.None? && r.notice.None?
    ensures r.store != store ==> r.requested && answer.Accepted? && answer.data.Some?
    ensures r.requested && answer.Accepted? ==>
              && r.navigation == Some("/")
              && r.error.None?
              && r.store.auth == (if answer.data.Some? then Stored(answer.data.value) else store.auth)
              && r.store.cartCount == store.cartCount
    ensures r.requested && answer.Refused? ==>
              r.error == Some(if answer.message != "" then answer.message else "Invalid email or password")
    ensures r.requested && (answer.NoConnection? || answer.AcceptedUnreadable?) ==>
              r.error == Some(ConnectionMessage)
    ensures r.navigation.Some? <==> r.requested && answer.Accepted?
  {
    var errors := Validate(email, password);
    EmailPatternIff(email);
    if errors != Errors(None, None) then Submission(errors, store, false, None, None, None)
    else match answer
      case NoConnection => Submission(errors, store, true, None, None, Some(ConnectionMessage))
      case AcceptedUnreadable => Submission(errors, store, true, None, None, Some(ConnectionMessage))
      case Refused(m) =>
        Submission(errors, store, true, None, None, Some(if m != "" then m else "Invalid email or password"))
      case Accepted(data, m) =>
        var s := if data.Some? then store.(auth := Stored(data.value)) else store;
        Submission(errors, s, true, Some("/"), Some(if m != "" then m else "Welcome back! Redirecting to dashboard..."), None)
  }

  /** After signing in with session data, every page that needs a session
      reads its token, and the administrators' page admits the user exactly
      when the server called them an administrator. */
  lemma SignedInPagesReadTheSession(store: Store, email: string, password: string, d: AuthData, m: string)
    requires EmailShape(email) && Utf16Length(password) >= 6
    ensures var r := Submit(store, email, password, Accepted(Some(d), m));
            && ReadSession(r.store.auth) == Token(d.token)
            && (CheckAccess(r.store.auth).Admitted? <==> d.user.Some? && d.user.value.role == "ADMIN")
            && r.navigation == Some("/")
  {
  }
}
