/** The route guard of middleware.ts: a decision over the request path, the
    presence of a session and the `redirectedFrom` query parameter. The
    session lookup and the cookie adapters are calls into the identity
    provider; here the lookup's answer is the input `hasSession`. */
module Middleware {
  import opened Common
  import opened Text

  const PublicPaths: seq<string> := [
    "/", "/auth/login", "/auth/register", "/auth/forgot-password", "/auth/reset-password",
    "/auth/confirm", "/auth/verify", "/_next", "/favicon.ico", "/placeholder.svg", "/api",
    "/manifest.json", "/sitemap.xml", "/robots.txt"]

  const AuthPaths: seq<string> := ["/auth/login", "/auth/register", "/auth/forgot-password"]

  const LogoutPath: string := "/auth/logout"

  /** What the guard answers: let the request through, redirect to a target,
      or redirect to the login page remembering where the request was going. */
  datatype Response = Next | Redirect(target: string) | RedirectToLogin(redirectedFrom: string)

  /** `prefixes.some(p => pathname.startsWith(p))`. */
  predicate StartsWithSome(pathname: string, prefixes: seq<string>) {
    exists i :: 0 <= i < |prefixes| && StartsWith(pathname, prefixes[i])
  }

  predicate IsPublic(pathname: string) {
    StartsWithSome(pathname, PublicPaths)
  }

  predicate IsAuth(pathname: string) {
    StartsWithSome(pathname, AuthPaths)
  }

  /** `searchParams.get('redirectedFrom') || '/'`: an absent or empty value falls back to the home page. */
  function RedirectTarget(redirectedFrom: Option<string>): (target: string)
    ensures target != ""
    ensures redirectedFrom.Some? && redirectedFrom.value != "" ==> target == redirectedFrom.value
  {
    if redirectedFrom.Some? && redirectedFrom.value != "" then redirectedFrom.value else "/"
  }

  /** The guard as written. */
  function Decide(pathname: string, hasSession: bool, redirectedFrom: Option<string>): (r: Response)
    ensures r.RedirectToLogin? ==> !hasSession && !IsPublic(pathname) && r.redirectedFrom == pathname
    ensures r.Redirect? ==> hasSession && IsAuth(pathname) && r.target != ""
    ensures !hasSession ==> !r.Redirect?
  {
    if IsPublic(pathname) then
      if IsAuth(pathname) && hasSession then Redirect(RedirectTarget(redirectedFrom)) else Next
    else if pathname == LogoutPath then Next
    else if !hasSession then RedirectToLogin(pathname)
    else Next
  }

  /** Because '/' is a public prefix, a path is public exactly when it starts with '/'. */
  lemma PublicIffRooted(pathname: string)
    ensures IsPublic(pathname) <==> |pathname| > 0 && pathname[0] == '/'
  {
    if |pathname| > 0 && pathname[0] == '/' {
      assert StartsWith(pathname, PublicPaths[0]);
    }
    if IsPublic(pathname) {
      var i :| 0 <= i < |PublicPaths| && StartsWith(pathname, PublicPaths[i]);
      assert PublicPaths[i][0] == '/';
      assert pathname[0] == PublicPaths[i][0];
    }
  }

  /** For every path starting with '/' (which every URL path does) the login
      redirect is never the answer; without a session the request always
      passes through. */
  lemma LoginRedirectUnreachable(pathname: string, hasSession: bool, redirectedFrom: Option<string>)
    requires |pathname| > 0 && pathname[0] == '/'
    ensures !Decide(pathname, hasSession, redirectedFrom).RedirectToLogin?
    ensures !hasSession ==> Decide(pathname, hasSession, redirectedFrom) == Next
  {
    PublicIffRooted(pathname);
  }

  /** Every auth path is listed as public, so any path with an auth prefix is
      public and the auth check only runs inside the public branch. */
  lemma AuthPathsArePublic(pathname: string)
    ensures forall i :: 0 <= i < |AuthPaths| ==> AuthPaths[i] in PublicPaths
    ensures IsAuth(pathname) ==> IsPublic(pathname)
  {
    assert AuthPaths[0] == PublicPaths[1];
    assert AuthPaths[1] == PublicPaths[2];
    assert AuthPaths[2] == PublicPaths[3];
    if IsAuth(pathname) {
      var i :| 0 <= i < |AuthPaths| && StartsWith(pathname, AuthPaths[i]);
      assert StartsWith(pathname, PublicPaths[i + 1]);
    }
  }

  /** An auth page visited with a session redirects to `redirectedFrom`, or to
      '/' when it is absent or empty. */
  lemma AuthPageWithSession(pathname: string, redirectedFrom: Option<string>)
    requires IsAuth(pathname)
    ensures Decide(pathname, true, redirectedFrom) ==
      Redirect(if redirectedFrom.Some? && redirectedFrom.value != "" then redirectedFrom.value else "/")
  {
    AuthPathsArePublic(pathname);
  }

  /** A public path that is not an auth page, or an auth page without a
      session, passes through. */
  lemma PublicPassesThrough(pathname: string, hasSession: bool, redirectedFrom: Option<string>)
    requires IsPublic(pathname)
    requires !IsAuth(pathname) || !hasSession
    ensures Decide(pathname, hasSession, redirectedFrom) == Next
  {
  }

  /** A path outside the public list: the logout path passes, a sessionless
      request goes to the login page carrying the path, and a request with a
      session passes. */
  lemma NonPublicPaths(pathname: string, hasSession: bool, redirectedFrom: Option<string>)
    requires !IsPublic(pathname)
    ensures pathname == LogoutPath ==> Decide(pathname, hasSession, redirectedFrom) == Next
    ensures pathname != LogoutPath && !hasSession ==>
      Decide(pathname, hasSession, redirectedFrom) == RedirectToLogin(pathname)
    ensures hasSession ==> Decide(pathname, hasSession, redirectedFrom) == Next
  {
  }

  /** Classification is by prefix: '/auth/login-x' counts as the login page,
      so a signed-in visitor is sent away from it. */
  lemma PrefixClassification(redirectedFrom: Option<string>)
    ensures IsAuth("/auth/login-x")
    ensures Decide("/auth/login-x", true, None) == Redirect("/")
  {
    assert StartsWith("/auth/login-x", AuthPaths[0]);
    AuthPathsArePublic("/auth/login-x");
  }

  /** As written, a signed-out visitor reaches the dashboard. */
  lemma DashboardUnguarded()
    ensures Decide("/dashboard", false, None) == Next
  {
    LoginRedirectUnreachable("/dashboard", false, None);
  }

  /** The evidently intended public test: the home page by exact match, the
      other entries by prefix. */
  predicate IsPublicIntended(pathname: string) {
    pathname == "/" || StartsWithSome(pathname, PublicPaths[1..])
  }

  /** The guard with the intended public test. */
  function DecideIntended(pathname: string, hasSession: bool, redirectedFrom: Option<string>): Response {
    if IsPublicIntended(pathname) then
      if IsAuth(pathname) && hasSession then Redirect(RedirectTarget(redirectedFrom)) else Next
    else if pathname == LogoutPath then Next
    else if !hasSession then RedirectToLogin(pathname)
    else Next
  }

  /** With the intended test, a signed-out visitor of the dashboard is sent to
      the login page, while the home page and the auth pages stay open. */
  lemma IntendedGuardsDashboard(redirectedFrom: Option<string>)
    ensures DecideIntended("/dashboard", false, redirectedFrom) == RedirectToLogin("/dashboard")
    ensures DecideIntended("/", false, redirectedFrom) == Next
    ensures forall i :: 0 <= i < |AuthPaths| ==> DecideIntended(AuthPaths[i], false, redirectedFrom) == Next
  {
    var rest := PublicPaths[1..];
    forall i | 0 <= i < |rest|
      ensures !StartsWith("/dashboard", rest[i])
    {
      assert |rest[i]| >= 2 && rest[i][1] != 'd';
      assert "/dashboard"[1] == 'd';
    }
    assert StartsWith(AuthPaths[0], rest[0]);
    assert StartsWith(AuthPaths[1], rest[1]);
    assert StartsWith(AuthPaths[2], rest[2]);
  }

  /** The correction only changes what happens without a session: with one,
      both guards answer alike on every path; and without one, the intended
      guard sends every path outside its public list (other than logout) to
      the login page. */
  lemma IntendedDiffersOnlyWithoutSession(pathname: string, hasSession: bool, redirectedFrom: Option<string>)
    requires |pathname| > 0 && pathname[0] == '/'
    ensures hasSession ==> DecideIntended(pathname, hasSession, redirectedFrom) == Decide(pathname, hasSession, redirectedFrom)
    ensures !hasSession && !IsPublicIntended(pathname) && pathname != LogoutPath ==>
      DecideIntended(pathname, hasSession, redirectedFrom) == RedirectToLogin(pathname)
  {
    PublicIffRooted(pathname);
    if IsAuth(pathname) {
      var i :| 0 <= i < |AuthPaths| && StartsWith(pathname, AuthPaths[i]);
      assert StartsWith(pathname, PublicPaths[1..][i]);
    }
  }
}
