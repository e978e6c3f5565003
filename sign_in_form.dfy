/** `SignInForm`: the submit handler's error and loading state around a call to `login`. */
module SignInForm {
  import opened Wrappers
  import AuthContext

  const RequiredMessage: string := "Email and password are required"
  const RejectedMessage: string := "Invalid email or password"

  /** The error left on screen after one submit: the missing-field message when either field is
      empty (login is then not attempted), the rejection message when login throws, and no
      message after a successful login. */
  function SubmitError(email: string, password: string): (e: string)
    ensures e == RequiredMessage <==> email == "" || password == ""
    ensures e == RejectedMessage <==> email != "" && password != "" && email != AuthContext.MockEmail
    ensures e == "" <==> email != "" && password != "" && email == AuthContext.MockEmail
  {
    if email == "" || password == "" then RequiredMessage
    else if email != AuthContext.MockEmail then RejectedMessage
    else ""
  }

  class Form {
    var email: string
    var password: string
    var isLoading: bool
    var error: string

    constructor ()
      ensures email == "" && password == "" && !isLoading && error == ""
    {
      email, password, isLoading, error := "", "", false, "";
    }

    method SetEmail(s: string)
      modifies this`email
      ensures email == s
    {
      email := s;
    }

    method SetPassword(s: string)
      modifies this`password
      ensures password == s
    {
      password := s;
    }

    /** `handleSubmit`: clears the error, refuses empty fields without calling `login`, and
        otherwise calls it with loading on, recording the outcome and switching loading off.
        `completed` says whether `onComplete` was called. */
    method Submit(auth: AuthContext.AuthProvider, hasOnComplete: bool) returns (attempted: bool, completed: bool)
      modifies this`error, this`isLoading, auth
      ensures error == SubmitError(email, password)
      ensures attempted <==> email != "" && password != ""
      ensures !attempted ==> isLoading == old(isLoading) && auth.user == old(auth.user) && auth.slot == old(auth.slot)
      ensures attempted ==> !isLoading
      ensures attempted && email == AuthContext.MockEmail ==> auth.user == Some(auth.mock) && auth.slot == Some(auth.mock)
      ensures attempted && email != AuthContext.MockEmail ==> auth.user == old(auth.user) && auth.slot == old(auth.slot)
      ensures completed <==> hasOnComplete && attempted && email == AuthContext.MockEmail
      ensures auth.isLoading == old(auth.isLoading)
    {
      error := "";
      completed := false;
      if email == "" || password == "" {
        error := RequiredMessage;
        attempted := false;
        return;
      }
      attempted := true;
      isLoading := true;
      var ok := auth.Login(email, password);
      if ok {
        if hasOnComplete {
          completed := true;
        }
      } else {
        error := RejectedMessage;
      }
      isLoading := false;
    }
  }
}
