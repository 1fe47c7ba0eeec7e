// The admin login page: the credentials schema and what a submission does
// with the answer of next-auth's `signIn`.
module LoginPage {
  import opened Wrappers
  import opened JsString
  import opened Ui
  import Middleware

  datatype Credentials = Credentials(username: string, password: string)

  /** `formSchema`: `.min(1)` on both fields, counting UTF-16 code units. */
  predicate Accepts(v: Credentials) {
    Utf16Length(v.username) >= 1 && Utf16Length(v.password) >= 1
  }

  /** The schema asks for nothing more than two non-empty fields. */
  lemma {:induction false} AcceptsNonEmpty(v: Credentials)
    ensures Accepts(v) <==> v.username != [] && v.password != []
  {
  }

  /** What `await signIn(...)` does: it resolves to `undefined` or to a response whose `error` may be set, or it rejects. */
  datatype SignInAnswer =
    | ResolvedUndefined
    | Resolved(error: Option<string>)
    | Rejected

  /** `result?.error` is truthy: a response carrying a non-empty error string. */
  predicate HasError(a: SignInAnswer) {
    a.Resolved? && a.error.Some? && a.error.value != ""
  }

  const AuthFailedToast := Toast("Authentication failed", "Please check your credentials and try again.", true)
  const ErrorToast := Toast("Something went wrong.", "Please try again later.", true)

  /** The steps `onSubmit` takes after the sign-in request, by the answer it got. */
  function AfterSignIn(a: SignInAnswer): (tail: seq<Step>)
    ensures Navigated(Middleware.AdminPrefix) in tail <==> !a.Rejected? && !HasError(a)
    ensures Toasted(AuthFailedToast) in tail <==> HasError(a)
    ensures Toasted(ErrorToast) in tail <==> a.Rejected?
  {
    if a.Rejected? then [Toasted(ErrorToast)]
    else if HasError(a) then [Toasted(AuthFailedToast)]
    else [Navigated(Middleware.AdminPrefix), Refreshed]
  }

  /** An empty error string is falsy: the page treats it as a successful sign-in and goes to the dashboard. */
  lemma EmptyErrorNavigates()
    ensures Navigated(Middleware.AdminPrefix) in AfterSignIn(Resolved(Some("")))
  {
  }

  /**
   * Navigating to the dashboard does not by itself open it: the middleware
   * sends a request without a session token back to the login page, and lets
   * one with a token through.
   */
  lemma DashboardStillGuarded(token: Option<Middleware.Jwt>)
    ensures Middleware.Run(Middleware.AdminPrefix, token).response
         == if token.None? then Middleware.Redirect(Middleware.LoginPath) else Middleware.Next
  {
    assert Middleware.AdminPrefix[..|Middleware.AdminPrefix|] == Middleware.AdminPrefix;
    assert Middleware.AdminPrefix != Middleware.LoginPath by {
      assert |Middleware.AdminPrefix| != |Middleware.LoginPath|;
    }
  }

  /** `LoginPage`'s state: the loading flag and its steps. */
  class LoginPageView {
    var isLoading: bool
    var steps: seq<Step>

    constructor()
      ensures !isLoading && steps == []
    {
      isLoading := false;
      steps := [];
    }

    /** `onSubmit(values)` with `answer` standing for what `signIn` did. */
    method OnSubmit(v: Credentials, answer: SignInAnswer)
      modifies this
      ensures !isLoading
      ensures steps == old(steps) + [LoadingSet(true), SignInRequested("credentials", v.username, v.password, false)]
                      + AfterSignIn(answer) + [LoadingSet(false)]
    {
      isLoading := true;
      var request := SignInRequested("credentials", v.username, v.password, false);
      if answer.Rejected? {
        steps := steps + [LoadingSet(true), request, Toasted(ErrorToast)];
      } else if answer.Resolved? && answer.error.Some? && answer.error.value != "" {
        steps := steps + [LoadingSet(true), request, Toasted(AuthFailedToast)];
      } else {
        steps := steps + [LoadingSet(true), request, Navigated("/admin"), Refreshed];
      }
      isLoading := false;
      steps := steps + [LoadingSet(false)];
    }
  }
}
