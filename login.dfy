/** The log-in screen: the sign-in call with the trimmed e-mail, bracketed by
    the `loading` flag, and a fixed table that turns the call's error code
    into the message shown. */
module Login {
  import opened Auth

  /** The error messages for the sign-in codes the screen knows. */
  const LoginErrors: map<string, string> := map[
    "auth/invalid-email" := "Invalid email address.",
    "auth/user-not-found" := "No user found with this email.",
    "auth/wrong-password" := "Incorrect password. Please try again."
  ]

  const LoginFailed := "Failed to log in. Please try again."

  /** `errorMessage[err.code] || 'Failed to log in. Please try again.'`:
      the table's message for a known code, the default for any other. */
  function LoginErrorMessage(code: string): (m: string)
    ensures m != ""
    ensures code in LoginErrors ==> m == LoginErrors[code]
    ensures m == LoginFailed <==> code !in LoginErrors
  {
    if code in LoginErrors then LoginErrors[code] else LoginFailed
  }

  /** Different known codes give different messages. */
  lemma LoginMessagesDistinct(c1: string, c2: string)
    requires c1 in LoginErrors && c2 in LoginErrors
    requires LoginErrorMessage(c1) == LoginErrorMessage(c2)
    ensures c1 == c2
  {
  }

  /** The log-in screen's state. `handleLogin` suspends at the sign-in call;
      `BeginLogin` is the part before it and `FinishLogin` the part after it
      settles. */
  class LoginScreen {
    var email: string
    var password: string
    var loading: bool
    var error: string

    constructor ()
      ensures email == "" && password == "" && !loading && error == ""
    {
      email, password, loading, error := "", "", false, "";
    }

    /** Raises `loading`, clears `error`, and gives the credentials for the
        call: the trimmed e-mail and the password as typed. */
    method BeginLogin() returns (request: Credentials)
      modifies this
      ensures email == old(email) && password == old(password)
      ensures loading && error == ""
      ensures request == Credentials(Trim(email), password)
    {
      loading := true;
      error := "";
      request := Credentials(Trim(email), password);
    }

    /** After the call settles: on failure show the table's message;
        `loading` is lowered either way. */
    method FinishLogin(result: AuthResult)
      modifies this
      ensures email == old(email) && password == old(password)
      ensures !loading
      ensures error == if result.Succeeded? then old(error) else LoginErrorMessage(result.code)
    {
      if result.Failed? {
        error := LoginErrorMessage(result.code);
      }
      loading := false;
    }

    /** The whole handler, with the sign-in service given as a function of
        the credentials it receives. */
    method HandleLogin(signIn: Credentials -> AuthResult) returns (request: Credentials)
      modifies this
      ensures email == old(email) && password == old(password)
      ensures request == Credentials(Trim(email), password)
      ensures !loading
      ensures error == if signIn(request).Succeeded? then "" else LoginErrorMessage(signIn(request).code)
    {
      request := BeginLogin();
      FinishLogin(signIn(request));
    }
  }
}
