/** The request guard that runs before every page: signed-out visitors are sent to the
    login page, signed-in users are kept away from the login and register pages, and
    a failure to reach the auth service lets the request through. The cookie plumbing
    and the path matcher are not modelled; the user lookup is an input. */
module RouteGuard {
  import opened Wrappers
  import opened Text

  /** The request URL: its path, and everything else (origin, query, hash) as one opaque part. */
  datatype Url = Url(pathname: string, rest: string)

  /** What the user lookup gave: it threw (the client could not be built or the call failed),
      or it returned the signed-in user, if any. */
  datatype Lookup = Threw | Returned(user: Option<string>)

  /** The guard's answer: a redirect to a URL, or the request passes through unchanged. */
  datatype Decision = Redirect(to: Url) | PassThrough

  const LoginPath := "/login"
  const RegisterPath := "/register"
  const DashboardPath := "/dashboard"

  /** `isPublicRoute`: a prefix test, so any path beginning with either word is public. */
  predicate IsPublicRoute(path: string)
  {
    StartsWith(path, LoginPath) || StartsWith(path, RegisterPath)
  }

  /** `middleware`: the decision for one request. A redirect happens exactly when the
      lookup returned and being signed in disagrees with the route being private; it
      goes to the login page for a visitor and to the dashboard for a user, and keeps
      every part of the URL except the path. */
  function Guard(url: Url, lookup: Lookup): (d: Decision)
    ensures d.Redirect? <==> lookup.Returned? && (lookup.user.Some? == IsPublicRoute(url.pathname))
    ensures d.Redirect? ==> d.to.rest == url.rest
    ensures d.Redirect? ==> d.to.pathname == (if lookup.user.None? then LoginPath else DashboardPath)
  {
    match lookup
    case Threw => PassThrough
    case Returned(user) =>
      var isPublic := IsPublicRoute(url.pathname);
      if user.None? && !isPublic then Redirect(url.(pathname := LoginPath))
      else if user.Some? && isPublic then Redirect(url.(pathname := DashboardPath))
      else PassThrough
  }

  /** The prefix test accepts any continuation of the two public words, such as "/login-x",
      and does not accept the dashboard. */
  lemma {:induction false} PublicByPrefix(suffix: string)
    ensures IsPublicRoute(LoginPath + suffix) && IsPublicRoute(RegisterPath + suffix)
    ensures IsPublicRoute("/login-x")
    ensures !IsPublicRoute(DashboardPath + suffix)
  {
    assert (LoginPath + suffix)[..|LoginPath|] == LoginPath;
    assert (RegisterPath + suffix)[..|RegisterPath|] == RegisterPath;
    assert "/login-x"[..|LoginPath|] == LoginPath;
    var p := DashboardPath + suffix;
    assert p[1] == 'd';
    assert p[..|LoginPath|] != LoginPath by { assert LoginPath[1] == 'l'; }
    assert p[..|RegisterPath|] != RegisterPath by { assert RegisterPath[1] == 'r'; }
  }

  /** No redirect loop: following a redirect with the same user state passes through. */
  lemma {:induction false} NoRedirectLoop(url: Url, lookup: Lookup)
    ensures Guard(url, lookup).Redirect? ==> Guard(Guard(url, lookup).to, lookup) == PassThrough
  {
    PublicByPrefix("");
    assert LoginPath + "" == LoginPath;
    assert DashboardPath + "" == DashboardPath;
  }

  /** A signed-out visitor can always reach the login and register pages, and a signed-in
      user can always reach the dashboard. */
  lemma {:induction false} LandingPagesReachable(rest: string, user: string)
    ensures Guard(Url(LoginPath, rest), Returned(None)) == PassThrough
    ensures Guard(Url(RegisterPath, rest), Returned(None)) == PassThrough
    ensures Guard(Url(DashboardPath, rest), Returned(Some(user))) == PassThrough
  {
    PublicByPrefix("");
    assert LoginPath + "" == LoginPath;
    assert RegisterPath + "" == RegisterPath;
    assert DashboardPath + "" == DashboardPath;
  }
}
