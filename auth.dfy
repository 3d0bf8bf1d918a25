/** The authentication helpers (`services/auth.ts`): the Firebase user
    converted to the application's user, Firebase error codes turned into
    messages, and the rule that a Google sign-in must use a Colorado
    address.  The Firebase calls themselves are parameters. */
module Auth {
  import opened JsStrings

  /** The fields of a Firebase user the client reads; `null` is `None`. */
  datatype FirebaseUser = FirebaseUser(
    uid: string,
    email: Option<string>,
    displayName: Option<string>,
    photoURL: Option<string>,
    emailVerified: bool)

  datatype AppUser = AppUser(
    uid: string,
    email: Option<string>,
    displayName: Option<string>,
    photoURL: Option<string>,
    emailVerified: bool,
    username: Option<string>)

  datatype AuthError = AuthError(code: string, message: string)

  /** `firebaseUserToAppUser`: every field copied, and the username is the
      display name unless that is falsy. */
  function FirebaseUserToAppUser(u: FirebaseUser): (a: AppUser)
    ensures a.uid == u.uid && a.email == u.email && a.displayName == u.displayName
    ensures a.photoURL == u.photoURL && a.emailVerified == u.emailVerified
    ensures a.username.Some? <==> TruthyText(u.displayName)
    ensures a.username.Some? ==> a.username == u.displayName
  {
    AppUser(u.uid, u.email, u.displayName, u.photoURL, u.emailVerified,
            if TruthyText(u.displayName) then u.displayName else None)
  }

  const DefaultMessage := "An error occurred. Please try again."
  const CancelledMessage := "Sign-in was cancelled."

  /** The codes with a message of their own. */
  const KnownCodes: seq<string> := [
    "auth/user-not-found", "auth/wrong-password", "auth/email-already-in-use",
    "auth/weak-password", "auth/invalid-email", "auth/too-many-requests",
    "auth/network-request-failed", "auth/popup-closed-by-user", "auth/popup-blocked",
    "auth/cancelled-popup-request", "auth/account-exists-with-different-credential"]

  /** `getFirebaseErrorMessage`. */
  function FirebaseErrorMessage(code: string): string {
    if code == "auth/user-not-found" then "No account found with this email address."
    else if code == "auth/wrong-password" then "Incorrect password."
    else if code == "auth/email-already-in-use" then "An account with this email already exists."
    else if code == "auth/weak-password" then "Password should be at least 6 characters."
    else if code == "auth/invalid-email" then "Please enter a valid email address."
    else if code == "auth/too-many-requests" then "Too many failed attempts. Please try again later."
    else if code == "auth/network-request-failed" then "Network error. Please check your connection."
    else if code == "auth/popup-closed-by-user" then CancelledMessage
    else if code == "auth/popup-blocked" then "Pop-up was blocked by your browser. Please allow pop-ups and try again."
    else if code == "auth/cancelled-popup-request" then CancelledMessage
    else if code == "auth/account-exists-with-different-credential" then "An account already exists with this email using a different sign-in method."
    else DefaultMessage
  }

  /** The default message appears exactly for the codes without a message
      of their own; the two cancelled-popup codes share one text. */
  lemma DefaultMessageIffUnknownCode(code: string)
    ensures FirebaseErrorMessage(code) == DefaultMessage <==> code !in KnownCodes
    ensures FirebaseErrorMessage("auth/popup-closed-by-user") == FirebaseErrorMessage("auth/cancelled-popup-request")
  {
    if code in KnownCodes {
      var i :| 0 <= i < |KnownCodes| && KnownCodes[i] == code;
      KnownCodesHaveMessages(i);
    } else {
      UnlistedCodeGetsDefault(code);
    }
    PopupCodesShareMessage();
  }

  lemma UnlistedCodeGetsDefault(code: string)
    requires code !in KnownCodes
    ensures FirebaseErrorMessage(code) == DefaultMessage
  {
    assert code != KnownCodes[0] && code != KnownCodes[1] && code != KnownCodes[2] && code != KnownCodes[3];
    assert code != KnownCodes[4] && code != KnownCodes[5] && code != KnownCodes[6] && code != KnownCodes[7];
    assert code != KnownCodes[8] && code != KnownCodes[9] && code != KnownCodes[10];
  }

  lemma PopupCodesShareMessage()
    ensures FirebaseErrorMessage("auth/popup-closed-by-user") == CancelledMessage
    ensures FirebaseErrorMessage("auth/cancelled-popup-request") == CancelledMessage
  {
  }

  /** The code an error without one is given falls to the default. */
  lemma UnknownCodeMessage()
    ensures FirebaseErrorMessage("unknown") == DefaultMessage
  {
    forall c | c in KnownCodes
      ensures c != "unknown"
    {
      assert |c| > 7;
    }
    UnlistedCodeGetsDefault("unknown");
  }

  /** Every listed code has a message of its own (checked in two halves). */
  lemma KnownCodesHaveMessages(i: int)
    requires 0 <= i < |KnownCodes|
    ensures FirebaseErrorMessage(KnownCodes[i]) != DefaultMessage
  {
    if i < 6 {
      FirstCodesHaveMessages(i);
    } else {
      LastCodesHaveMessages(i);
    }
  }

  lemma FirstCodesHaveMessages(i: int)
    requires 0 <= i < 6
    ensures FirebaseErrorMessage(KnownCodes[i]) != DefaultMessage
  {
  }

  lemma LastCodesHaveMessages(i: int)
    requires 6 <= i < |KnownCodes|
    ensures FirebaseErrorMessage(KnownCodes[i]) != DefaultMessage
  {
  }

  /** `firebaseErrorToAuthError` for an error whose `code` property is
      `code`: a falsy code becomes "unknown". */
  function ToAuthError(code: Option<string>): (e: AuthError)
    ensures TruthyText(code) ==> e.code == code.value
    ensures !TruthyText(code) ==> e.code == "unknown" && e.message == DefaultMessage
    ensures e.message == FirebaseErrorMessage(e.code)
  {
    var c := if TruthyText(code) then code.value else "unknown";
    UnknownCodeMessage();
    AuthError(c, FirebaseErrorMessage(c))
  }

  /** What `signInWithPopup` produced: a user, or an error with its code
      property. */
  datatype PopupOutcome = PopupUser(user: FirebaseUser) | PopupFailed(code: Option<string>)

  datatype SignInResult = SignedIn(user: AppUser) | SignInFailed(error: AuthError)

  const ColoradoDomain := "@colorado.edu"

  /** `signInWithGoogle`: the result, and whether `signOutUser` was called.
      A user without an e-mail makes `endsWith` throw, which the catch turns
      into an error without a code. */
  function SignInWithGoogle(outcome: PopupOutcome): (SignInResult, bool) {
    match outcome
    case PopupFailed(code) => (SignInFailed(ToAuthError(code)), false)
    case PopupUser(u) =>
      var appUser := FirebaseUserToAppUser(u);
      if appUser.email.None? then (SignInFailed(ToAuthError(None)), false)
      else if !EndsWith(appUser.email.value, ColoradoDomain) then
        (SignInFailed(AuthError("auth/invalid-email", "Please use a Colorado email address.")), true)
      else (SignedIn(appUser), false)
  }

  /** A Google sign-in succeeds exactly for a user whose address ends with
      "@colorado.edu"; any other address is signed out again and refused
      with `auth/invalid-email`, and a Firebase failure keeps its code. */
  lemma GoogleSignInDomainRule(outcome: PopupOutcome)
    ensures SignInWithGoogle(outcome).0.SignedIn? <==>
      outcome.PopupUser? && outcome.user.email.Some? && EndsWith(outcome.user.email.value, ColoradoDomain)
    ensures SignInWithGoogle(outcome).0.SignedIn? ==>
      SignInWithGoogle(outcome).0.user == FirebaseUserToAppUser(outcome.user)
    ensures SignInWithGoogle(outcome).1 <==>
      outcome.PopupUser? && outcome.user.email.Some? && !EndsWith(outcome.user.email.value, ColoradoDomain)
    ensures SignInWithGoogle(outcome).1 ==>
      SignInWithGoogle(outcome).0 == SignInFailed(AuthError("auth/invalid-email", "Please use a Colorado email address."))
    ensures outcome.PopupUser? && outcome.user.email.None? ==>
      SignInWithGoogle(outcome).0 == SignInFailed(AuthError("unknown", DefaultMessage))
    ensures outcome.PopupFailed? ==>
      SignInWithGoogle(outcome) == (SignInFailed(ToAuthError(outcome.code)), false)
  {
  }

  /** The refusal message for a foreign domain is not the one Firebase's
      own `auth/invalid-email` maps to. */
  lemma DomainRefusalHasOwnMessage()
    ensures FirebaseErrorMessage("auth/invalid-email") != "Please use a Colorado email address."
  {
  }
}
