/**
 * The sign-in / sign-up page (src/pages/Login.jsx): a two-mode form whose
 * submit calls the session store, and whose `error` and `loading` cells frame
 * the call. The submit is split at its `await` into `BeginSubmit`, the state
 * while the call is in flight, and `FinishSubmit`, the state after the answer.
 */
module Login {
  import opened Wrappers
  import opened ToastContext
  import opened AuthContext
  import opened Navigation

  /** Where a successful sign-in leads. */
  const AFTER_SIGN_IN_PATH: string := "/projects"

  const ACCOUNT_CREATED_MESSAGE: string := "Account created! You can now log in."

  class LoginPage {
    const auth: AuthProvider
    const toasts: ToastProvider
    const router: Router
    var isLogin: bool
    var email: string
    var password: string
    var error: string
    var loading: bool
    /**
     * Whether the call in flight (or the last one) is a sign-in: the mode that
     * `handleSubmit`'s `if (isLogin)` saw before its `await`. The tabs stay
     * clickable during the call, so `isLogin` can differ from it by the time
     * the answer arrives.
     */
    var submittedSignIn: bool

    /** Sign-in mode, empty credentials, no error, not loading. */
    constructor (auth: AuthProvider, toasts: ToastProvider, router: Router)
      ensures this.auth == auth && this.toasts == toasts && this.router == router
      ensures isLogin && email == "" && password == "" && error == "" && !loading
    {
      this.auth, this.toasts, this.router := auth, toasts, router;
      isLogin, email, password, error, loading := true, "", "", "", false;
      submittedSignIn := true;
    }

    /** The Sign In tab: switch to sign-in mode and nothing else. */
    method SelectSignIn()
      modifies this`isLogin
      ensures isLogin
    {
      isLogin := true;
    }

    /** The Sign Up tab: switch to sign-up mode and nothing else. */
    method SelectSignUp()
      modifies this`isLogin
      ensures !isLogin
    {
      isLogin := false;
    }

    /** The email field's `onChange`. */
    method SetEmail(value: string)
      modifies this`email
      ensures email == value
    {
      email := value;
    }

    /** The password field's `onChange`. */
    method SetPassword(value: string)
      modifies this`password
      ensures password == value
    {
      password := value;
    }

    /**
     * `handleSubmit` up to its `await`: the error is cleared, loading starts, and
     * the mode picks which store call is made. Nothing else changes.
     */
    method BeginSubmit()
      modifies this`error, this`loading, this`submittedSignIn
      ensures error == "" && loading
      ensures submittedSignIn == isLogin
    {
      error := "";
      loading := true;
      submittedSignIn := isLogin;
    }

    /**
     * `handleSubmit` from the store's answer on, with the status `BeginSubmit` left.
     * By the mode the call was made in (not the current tab) and by the answer: a sign-in that succeeds navigates to the projects
     * page without a toast; a sign-up that succeeds shows one success toast and
     * switches to sign-in mode, without navigating; a failure of either shows its
     * message as the error, with no toast and no navigation. Only a successful sign-up
     * changes the tab. Loading
     * has ended afterwards in every case, and the credentials are kept.
     */
    method FinishSubmit(response: Outcome<()>, toastId: string)
      requires toasts.Valid() && loading && error == ""
      modifies this`error, this`loading, this`isLogin, toasts, router
      ensures toasts.Valid() && !loading
      ensures var answer := SignInAnswer(auth.configured, response);
        && (answer.Ok? && old(submittedSignIn) ==>
              && router.history == old(router.history) + [AFTER_SIGN_IN_PATH]
              && unchanged(toasts) && isLogin == old(isLogin) && error == "")
        && (answer.Ok? && !old(submittedSignIn) ==>
              && router.history == old(router.history)
              && ToastAdded(toasts, Toast(toastId, ACCOUNT_CREATED_MESSAGE, "success"))
              && isLogin && error == "")
        && (answer.Err? ==>
              && router.history == old(router.history)
              && unchanged(toasts) && isLogin == old(isLogin) && error == answer.message)
    {
      var answer;
      if submittedSignIn {
        answer := auth.SignIn(email, password, response);
        if answer.Ok? {
          router.Navigate(AFTER_SIGN_IN_PATH);
        }
      } else {
        answer := auth.SignUp(email, password, response);
        if answer.Ok? {
          toasts.AddToast(toastId, ACCOUNT_CREATED_MESSAGE, Some("success"));
          isLogin := true;
        }
      }
      if answer.Err? {
        error := answer.message;
      }
      loading := false;
    }
  }

  /**
   * Switching to the Sign Up tab while a sign-in is in flight does not change what
   * its answer does: a successful sign-in still navigates to the projects page and
   * shows no toast, and the tab stays on Sign Up.
   */
  method SignInSurvivesTabSwitch(auth: AuthProvider, toasts: ToastProvider, router: Router)
    returns (page: LoginPage)
    requires auth.configured && toasts.Valid()
    modifies toasts, router
    ensures router.history == old(router.history) + [AFTER_SIGN_IN_PATH]
    ensures unchanged(toasts)
    ensures !page.isLogin && !page.loading && page.error == ""
  {
    page := new LoginPage(auth, toasts, router);
    page.BeginSubmit();
    page.SelectSignUp();
    page.FinishSubmit(Ok(()), "t");
  }
}
