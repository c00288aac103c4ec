/** The login form (src/components/LoginPage.tsx): login and sign-up modes, the loading
    and error flags, and what each submit outcome leads to. The sign-in call itself
    belongs to the authentication context, which is not part of this model: its outcome
    comes in as a parameter. */
module LoginPage {
  import opened Wrappers
  import opened Types

  const LoginFailedMessage := "Login failed. Please try again."

  /** The credentials handed to the sign-in call. */
  datatype Credentials = Credentials(email: string, password: string)

  class LoginForm {
    var isLogin: bool
    var email: string
    var password: string
    var name: string
    var isLoading: bool
    var error: string
    /** The sign-in call has been made and has not yet settled. */
    var awaitingLogin: bool

    /** The spinner shows exactly while a sign-in call is out. */
    predicate Valid()
      reads this
    {
      isLoading <==> awaitingLogin
    }

    /** The form opens in login mode, empty, idle and without an error. */
    constructor ()
      ensures isLogin && email == "" && password == "" && name == ""
      ensures !isLoading && error == "" && !awaitingLogin
      ensures Valid()
    {
      isLogin := true;
      email := "";
      password := "";
      name := "";
      isLoading := false;
      error := "";
      awaitingLogin := false;
    }

    /** The submit button is enabled. */
    predicate SubmitEnabled()
      reads this
    {
      !isLoading
    }

    /** The error banner shows. */
    predicate ShowsError()
      reads this
    {
      error != ""
    }

    method SetEmail(text: string)
      modifies this
      ensures email == text && password == old(password) && name == old(name)
      ensures isLogin == old(isLogin) && isLoading == old(isLoading)
      ensures error == old(error) && awaitingLogin == old(awaitingLogin)
    {
      email := text;
    }

    method SetPassword(text: string)
      modifies this
      ensures password == text && email == old(email) && name == old(name)
      ensures isLogin == old(isLogin) && isLoading == old(isLoading)
      ensures error == old(error) && awaitingLogin == old(awaitingLogin)
    {
      password := text;
    }

    method SetName(text: string)
      modifies this
      ensures name == text && email == old(email) && password == old(password)
      ensures isLogin == old(isLogin) && isLoading == old(isLoading)
      ensures error == old(error) && awaitingLogin == old(awaitingLogin)
    {
      name := text;
    }

    /** `handleSubmit` up to the sign-in call. The error is cleared and the spinner shown;
        in login mode the call goes out with the typed credentials, while in sign-up mode
        the form switches to login mode, keeps the error empty, stops the spinner and
        calls nothing. */
    method Submit() returns (call: Option<Credentials>)
      modifies this
      ensures call.Some? <==> old(isLogin)
      ensures old(isLogin) ==> call == Some(Credentials(old(email), old(password)))
      ensures old(isLogin) ==> isLoading && awaitingLogin
      ensures !old(isLogin) ==> !isLoading && awaitingLogin == old(awaitingLogin)
      ensures isLogin && error == ""
      ensures email == old(email) && password == old(password) && name == old(name)
      ensures old(Valid()) && !old(isLoading) ==> Valid()
    {
      error := "";
      isLoading := true;
      if isLogin {
        awaitingLogin := true;
        call := Some(Credentials(email, password));
      } else {
        isLogin := true;
        error := "";
        isLoading := false;
        call := None;
      }
    }

    /** The sign-in call settles: success leads to the profile, failure shows the error
        and leads nowhere; the spinner stops either way. */
    method FinishLogin(succeeded: bool) returns (target: Option<PageType>)
      requires awaitingLogin
      modifies this
      ensures succeeded ==> target == Some(Profile) && error == old(error)
      ensures !succeeded ==> target == None && error == LoginFailedMessage
      ensures !isLoading && !awaitingLogin
      ensures isLogin == old(isLogin)
      ensures email == old(email) && password == old(password) && name == old(name)
      ensures Valid()
    {
      if succeeded {
        target := Some(Profile);
      } else {
        error := LoginFailedMessage;
        target := None;
      }
      isLoading := false;
      awaitingLogin := false;
    }

    /** The "Sign up" / "Sign in" link flips the mode and nothing else. */
    method ToggleMode()
      modifies this
      ensures isLogin == !old(isLogin)
      ensures email == old(email) && password == old(password) && name == old(name)
      ensures isLoading == old(isLoading) && error == old(error) && awaitingLogin == old(awaitingLogin)
    {
      isLogin := !isLogin;
    }
  }

  /** The "Back to Home" button. */
  const BackToHomeTarget: PageType := Home

  /** A login-mode submit on the enabled button, followed by the call settling: success
      leads to the profile without an error, failure shows the message and stays; the
      form is idle afterwards in both cases. */
  method SubmitAndSettle(f: LoginForm, succeeded: bool) returns (target: Option<PageType>)
    requires f.Valid() && f.SubmitEnabled() && f.isLogin
    modifies f
    ensures succeeded <==> target == Some(Profile)
    ensures !succeeded ==> target == None && f.ShowsError() && f.error == LoginFailedMessage
    ensures succeeded ==> !f.ShowsError()
    ensures f.Valid() && f.SubmitEnabled() && f.isLogin
  {
    var call := f.Submit();
    target := f.FinishLogin(succeeded);
  }

  /** A sign-up-mode submit calls nothing and leaves the form idle in login mode without
      an error. */
  method SignUpSubmit(f: LoginForm) returns (call: Option<Credentials>)
    requires f.Valid() && f.SubmitEnabled() && !f.isLogin
    modifies f
    ensures call == None
    ensures f.Valid() && f.SubmitEnabled() && f.isLogin && !f.ShowsError()
  {
    call := f.Submit();
  }
}
