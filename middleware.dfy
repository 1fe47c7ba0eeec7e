// The admin route guard: which requests pass through, which are sent to the
// login page, and which requests the guard is installed on at all.
module Middleware {
  import opened Wrappers
  import opened JsString

  const AdminPrefix: string := "/admin"
  const LoginPath: string := "/admin/login"

  /** A decoded session token; what it carries is left abstract. */
  datatype Jwt = Jwt(subject: string)

  /** `NextResponse.next()` or `NextResponse.redirect(target)`. */
  datatype Response = Next | Redirect(target: string)

  /** The response together with whether the session token had to be read to produce it. */
  datatype Outcome = Outcome(response: Response, tokenRead: bool)

  /** Paths that return before the token is read: outside the admin prefix, or exactly the login page. */
  predicate IsExempt(path: string) {
    !StartsWith(path, AdminPrefix) || path == LoginPath
  }

  /** `middleware(request)` for a request to `path`, where `token` is what `getToken` would return. */
  function Run(path: string, token: Option<Jwt>): (o: Outcome)
    ensures o.tokenRead <==> !IsExempt(path)
    ensures o.response.Redirect? <==> !IsExempt(path) && token.None?
    ensures o.response.Redirect? ==> o.response.target == LoginPath
  {
    if !StartsWith(path, AdminPrefix) || path == LoginPath then
      Outcome(Next, false)
    else if token.None? && StartsWith(path, AdminPrefix) then
      Outcome(Redirect(LoginPath), true)
    else
      Outcome(Next, true)
  }

  /** Any path outside the admin prefix passes through, session or not, without reading the token. */
  lemma NonAdminPassesThrough(path: string, token: Option<Jwt>)
    requires !StartsWith(path, AdminPrefix)
    ensures Run(path, token) == Outcome(Next, false)
  {
  }

  /** The login page is reachable with or without a session. */
  lemma LoginAlwaysReachable(token: Option<Jwt>)
    ensures Run(LoginPath, token) == Outcome(Next, false)
  {
  }

  /** A guarded path without a session is redirected to the login page. */
  lemma GuardedWithoutSessionRedirects(path: string)
    requires StartsWith(path, AdminPrefix) && path != LoginPath
    ensures Run(path, None).response == Redirect(LoginPath)
  {
  }

  /** With a session no path is redirected. */
  lemma SessionNeverRedirected(path: string, jwt: Jwt)
    ensures Run(path, Some(jwt)).response == Next
  {
  }

  /** A redirect never leads to a second redirect, whatever the session is on the next request. */
  lemma NoRedirectLoop(path: string, token: Option<Jwt>, next: Option<Jwt>)
    requires Run(path, token).response.Redirect?
    ensures Run(Run(path, token).response.target, next).response == Next
  {
  }

  /** The exemption is an exact match: paths that merely extend the login path or the prefix are guarded. */
  lemma ExemptionIsExact()
    ensures Run("/admin/login/about", None).response == Redirect(LoginPath)
    ensures Run("/administrator", None).response == Redirect(LoginPath)
    ensures Run("/admin", None).response == Redirect(LoginPath)
  {
    assert "/admin/login/about"[..6] == AdminPrefix;
    assert "/administrator"[..6] == AdminPrefix;
  }

  /** `config.matcher` `"/admin/:path*"`: `/admin` itself or anything below `/admin/`. */
  function MatcherSelects(path: string): (selected: bool)
    ensures selected ==> StartsWith(path, AdminPrefix)
    ensures selected ==> path != "/"
  {
    path == AdminPrefix || StartsWith(path, AdminPrefix + "/")
  }

  /** What the site answers: the middleware only runs on paths the matcher selects. */
  function HandleRequest(path: string, token: Option<Jwt>): (r: Response)
    ensures r.Redirect? <==> MatcherSelects(path) && path != LoginPath && token.None?
    ensures r.Redirect? ==> r.target == LoginPath
  {
    if MatcherSelects(path) then
      assert StartsWith(path, AdminPrefix);
      Run(path, token).response
    else
      Next
  }

  /** "/administrator" begins with the admin prefix, so the middleware would redirect it, but the matcher never sends it there. */
  lemma MatcherNarrowsGuard()
    ensures Run("/administrator", None).response.Redirect?
    ensures HandleRequest("/administrator", None) == Next
  {
    assert "/administrator"[..6] == AdminPrefix;
    assert "/administrator"[6] == 'i' && (AdminPrefix + "/")[6] == '/';
  }
}
