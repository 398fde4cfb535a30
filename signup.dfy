/** Sign-up: the username check and the order of calls the submit handler
    makes. The name is trimmed, its length (in UTF-16 code units, as
    JavaScript counts) must lie in 3..30, and only ASCII letters, digits,
    '.', '_' and '-' may occur. Only a name that passes is looked up, and
    the sign-up and profile calls follow. */
module Signup {
  import opened Optional
  import opened Text

  const MinLength := 3
  const MaxLength := 30
  const LengthMessage := "Username must be 3-30 characters long."
  const CharsetMessage := "Username may only contain letters, numbers, dot, underscore and hyphen."
  const TakenMessage := "Username already taken. Please choose another."
  const SuccessMessage := "Signup successful. Check your email to confirm your account."
  const FallbackErrorMessage := "An error occurred during signup."

  /** The number of UTF-16 code units of `s`: characters outside the Basic
      Multilingual Plane take two. */
  function Utf16Length(s: string): (n: nat)
    ensures |s| <= n <= 2 * |s|
  {
    if s == [] then 0
    else (if s[0] as int > 0xFFFF then 2 else 1) + Utf16Length(s[1..])
  }

  /** The characters of `/^[a-zA-Z0-9._-]+$/`. */
  predicate UsernameChar(c: char) {
    ('a' <= c <= 'z') || ('A' <= c <= 'Z') || ('0' <= c <= '9') || c == '.' || c == '_' || c == '-'
  }

  predicate AllUsernameChars(s: string) {
    forall k :: 0 <= k < |s| ==> UsernameChar(s[k])
  }

  datatype Checked = Accepted(name: string) | Rejected(message: string)

  /** The username check of the submit handler. */
  function CheckUsername(username: string): (r: Checked)
    ensures r.Accepted? <==>
      MinLength <= Utf16Length(Trim(username)) <= MaxLength && AllUsernameChars(Trim(username))
    ensures r.Accepted? ==> r.name == Trim(username)
    ensures r == Rejected(LengthMessage) <==>
      !(MinLength <= Utf16Length(Trim(username)) <= MaxLength)
    ensures r.Rejected? ==> r.message == LengthMessage || r.message == CharsetMessage
  {
    var uname := Trim(username);
    if uname == "" || Utf16Length(uname) < MinLength || Utf16Length(uname) > MaxLength then
      Rejected(LengthMessage)
    else if !AllUsernameChars(uname) then
      Rejected(CharsetMessage)
    else
      Accepted(uname)
  }

  /** An accepted name is plain ASCII, so its JavaScript length is its
      number of characters, 3 to 30. */
  lemma {:induction false} AcceptedIsAscii(username: string)
    requires CheckUsername(username).Accepted?
    ensures MinLength <= |CheckUsername(username).name| <= MaxLength
  {
    var u := Trim(username);
    AsciiUtf16Length(u);
  }

  lemma {:induction false} AsciiUtf16Length(s: string)
    requires AllUsernameChars(s)
    ensures Utf16Length(s) == |s|
  {
    if s != [] {
      assert UsernameChar(s[0]);
      AsciiUtf16Length(s[1..]);
    }
  }

  /** The check looks only at the trimmed name: the accepted name is itself
      accepted unchanged. */
  lemma CheckTrimmed(username: string)
    ensures CheckUsername(Trim(username)) == CheckUsername(username)
    ensures CheckUsername(username).Accepted? ==>
      CheckUsername(CheckUsername(username).name) == CheckUsername(username)
  {
    TrimIdempotent(username);
  }

  /** Every name of 3 to 30 allowed characters is accepted as it is: the
      check accepts exactly the names it can return. */
  lemma ValidNameAccepted(u: string)
    requires MinLength <= |u| <= MaxLength && AllUsernameChars(u)
    ensures CheckUsername(u) == Accepted(u)
  {
    assert !IsJsWhitespace(u[0]) by {
      assert UsernameChar(u[0]);
    }
    assert !IsJsWhitespace(u[|u| - 1]) by {
      assert UsernameChar(u[|u| - 1]);
    }
    TrimFixedPoint(u);
    AsciiUtf16Length(u);
  }

  // ---------------------------------------------------------------------------
  // The submit handler

  /** What `supabase.auth.signUp` gives: an error object, a result whose
      user id may be missing, or a thrown error whose message may be
      missing. */
  datatype SignUpResult = SignUpError(message: string) | SignedUp(userId: Option<string>) | SignUpThrew(thrown: Option<string>)

  /** The outside world as seen by one submission: the number of existing
      rows the uniqueness lookup finds (`None` when it fails or returns no
      data), and the sign-up result. */
  datatype Services = Services(existing: Option<nat>, signUp: SignUpResult)

  /** The calls made and the message left on the form. */
  datatype Submission = Submission(
    message: string,
    lookedUp: bool,
    signUpCalled: bool,
    profileUpsert: Option<(string, string)>,
    redirected: bool)

  /** `handleSubmit` after `preventDefault`; `loading` is false again at
      every exit. */
  function Submit(username: string, services: Services): (s: Submission)
    ensures CheckUsername(username).Rejected? ==>
      s == Submission(CheckUsername(username).message, false, false, None, false)
    ensures s.signUpCalled <==>
      CheckUsername(username).Accepted? && !(services.existing.Some? && services.existing.value > 0)
    ensures s.profileUpsert.Some? ==>
      s.signUpCalled && services.signUp.SignedUp? && Truthy(services.signUp.userId) &&
      s.profileUpsert.value == (services.signUp.userId.value, Trim(username))
    ensures s.redirected <==> s.signUpCalled && services.signUp.SignedUp?
    ensures s.redirected ==> s.message == SuccessMessage
    ensures s.lookedUp <==> CheckUsername(username).Accepted?
    ensures CheckUsername(username).Accepted? && services.existing.Some? && services.existing.value > 0 ==>
      s.message == TakenMessage
    ensures s.signUpCalled && services.signUp.SignUpError? ==> s.message == services.signUp.message
    ensures s.signUpCalled && services.signUp.SignUpThrew? ==>
      s.message == OrElse(services.signUp.thrown, FallbackErrorMessage)
    ensures s.signUpCalled && services.signUp.SignedUp? && Truthy(services.signUp.userId) ==>
      s.profileUpsert == Some((services.signUp.userId.value, Trim(username)))
  {
    match CheckUsername(username)
    case Rejected(m) => Submission(m, false, false, None, false)
    case Accepted(uname) =>
      if services.existing.Some? && services.existing.value > 0 then
        Submission(TakenMessage, true, false, None, false)
      else
        match services.signUp
        case SignUpError(m) => Submission(m, true, true, None, false)
        case SignUpThrew(m) => Submission(OrElse(m, FallbackErrorMessage), true, true, None, false)
        case SignedUp(id) =>
          Submission(SuccessMessage, true, true, if Truthy(id) then Some((id.value, uname)) else None, true)
  }

  /** A successful sign-up with a user id writes the profile under the
      trimmed name. */
  lemma ProfileUsesTrimmedName(username: string, id: string)
    requires CheckUsername(username).Accepted? && id != ""
    ensures Submit(username, Services(None, SignedUp(Some(id)))).profileUpsert == Some((id, Trim(username)))
  {
  }
}
