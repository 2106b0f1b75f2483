/** The sign-up screen: two local checks on the passwords, in order, then the
    account-creation call with the trimmed e-mail, and a fixed table that
    turns the call's error code into the message shown. */
module Signup {
  import opened Records
  import opened Auth

  const PasswordMismatch := "Passwords don't match"
  const PasswordTooShort := "Password must be at least 6 characters long"

  /** The error messages for the account-creation codes the screen knows. */
  const SignupErrors: map<string, string> := map[
    "auth/invalid-email" := "Invalid email address.",
    "auth/email-already-in-use" := "This email is already in use.",
    "auth/weak-password" := "Password should be at least 6 characters."
  ]

  const SignupFailed := "Failed to create account. Please try again."

  /** The checks made before any call, mismatch first: the message of the
      first check that fails, or nothing when both pass. */
  function ValidateSignup(password: string, confirmPassword: string): (r: Option<string>)
    ensures r == Some(PasswordMismatch) <==> password != confirmPassword
    ensures r == Some(PasswordTooShort) <==> password == confirmPassword && |password| < 6
    ensures r == None <==> password == confirmPassword && |password| >= 6
  {
    if password != confirmPassword then Some(PasswordMismatch)
    else if |password| < 6 then Some(PasswordTooShort)
    else None
  }

  /** `errorMessage[err.code] || 'Failed to create account. Please try again.'`:
      the table's message for a known code, the default for any other. */
  function SignupErrorMessage(code: string): (m: string)
    ensures m != ""
    ensures code in SignupErrors ==> m == SignupErrors[code]
    ensures m == SignupFailed <==> code !in SignupErrors
  {
    if code in SignupErrors then SignupErrors[code] else SignupFailed
  }

  /** Different known codes give different messages. */
  lemma SignupMessagesDistinct(c1: string, c2: string)
    requires c1 in SignupErrors && c2 in SignupErrors
    requires SignupErrorMessage(c1) == SignupErrorMessage(c2)
    ensures c1 == c2
  {
  }

  /** The sign-up screen's state. `handleSignup` suspends at the
      account-creation call; `BeginSignup` is the part before it and
      `FinishSignup` the part after it settles. */
  class SignupScreen {
    var email: string
    var password: string
    var confirmPassword: string
    var error: string
    var loading: bool

    constructor ()
      ensures email == "" && password == "" && confirmPassword == ""
      ensures error == "" && !loading
    {
      email, password, confirmPassword, error, loading := "", "", "", "", false;
    }

    /** Checks the passwords; when a check fails its message is shown and no
        call is made. Otherwise `loading` is raised, `error` cleared, and the
        credentials for the call (trimmed e-mail, password as typed) returned. */
    method BeginSignup() returns (request: Option<Credentials>)
      modifies this
      ensures email == old(email) && password == old(password) && confirmPassword == old(confirmPassword)
      ensures request.None? <==> ValidateSignup(password, confirmPassword).Some?
      ensures request.None? ==> error == ValidateSignup(password, confirmPassword).value && loading == old(loading)
      ensures request.Some? ==> request.value == Credentials(Trim(email), password) && loading && error == ""
    {
      if password != confirmPassword {
        error := PasswordMismatch;
        return None;
      }
      if |password| < 6 {
        error := PasswordTooShort;
        return None;
      }
      loading := true;
      error := "";
      request := Some(Credentials(Trim(email), password));
    }

    /** After the call settles: on success go to the log-in screen, on failure
        show the table's message; `loading` is lowered either way. */
    method FinishSignup(result: AuthResult) returns (navigateToLogin: bool)
      modifies this
      ensures email == old(email) && password == old(password) && confirmPassword == old(confirmPassword)
      ensures !loading
      ensures navigateToLogin <==> result.Succeeded?
      ensures error == if result.Succeeded? then old(error) else SignupErrorMessage(result.code)
    {
      navigateToLogin := false;
      if result.Succeeded? {
        navigateToLogin := true;
      } else {
        error := SignupErrorMessage(result.code);
      }
      loading := false;
    }

    /** The whole handler, with the account-creation service given as a
        function of the credentials it receives. */
    method HandleSignup(createUser: Credentials -> AuthResult) returns (request: Option<Credentials>, navigateToLogin: bool)
      modifies this
      ensures email == old(email) && password == old(password) && confirmPassword == old(confirmPassword)
      ensures request.None? <==> ValidateSignup(password, confirmPassword).Some?
      ensures request.None? ==>
        error == ValidateSignup(password, confirmPassword).value && loading == old(loading) && !navigateToLogin
      ensures request.Some? ==>
        && request.value == Credentials(Trim(email), password)
        && !loading
        && (navigateToLogin <==> createUser(request.value).Succeeded?)
        && error == (if createUser(request.value).Succeeded? then "" else SignupErrorMessage(createUser(request.value).code))
    {
      request := BeginSignup();
      navigateToLogin := false;
      if request.Some? {
        navigateToLogin := FinishSignup(createUser(request.value));
      }
    }
  }
}
