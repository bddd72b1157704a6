/**
 * The request middleware of `proxy.ts`: which paths need a signed-in
 * administrator, and what happens to a request for one of them without a
 * valid id token (a redirect to the locale's admin login page).
 */
module Proxy {
  import opened Common
  import opened JsText

  const ProtectedRoutes: seq<string> := ["/dashboard", "/admin"]
  const PublicRoutes: seq<string> := ["/", "/login", "/admin/login"]
  const AuthCookies: seq<string> := ["idToken", "accessToken", "refreshToken"]

  /** `protectedRoutes.some(route => pathname.includes(route))`. */
  predicate IsProtectedRoute(pathname: string) {
    exists i | 0 <= i < |ProtectedRoutes| :: Contains(pathname, ProtectedRoutes[i])
  }

  /** `publicRoutes.some(route => pathname === route || pathname.endsWith(route))`. */
  predicate IsPublicRoute(pathname: string) {
    exists i | 0 <= i < |PublicRoutes| :: pathname == PublicRoutes[i] || EndsWith(pathname, PublicRoutes[i])
  }

  /** A path is protected exactly when it mentions "/dashboard" or "/admin" anywhere. */
  lemma ProtectedRouteIff(pathname: string)
    ensures IsProtectedRoute(pathname) <==> Contains(pathname, "/dashboard") || Contains(pathname, "/admin")
  {
    assert ProtectedRoutes[0] == "/dashboard" && ProtectedRoutes[1] == "/admin";
  }

  /** A path is public exactly when it ends in "/", "/login" or "/admin/login" (equality is a special case). */
  lemma PublicRouteIff(pathname: string)
    ensures IsPublicRoute(pathname) <==>
              EndsWith(pathname, "/") || EndsWith(pathname, "/login") || EndsWith(pathname, "/admin/login")
  {
    assert PublicRoutes[0] == "/" && PublicRoutes[1] == "/login" && PublicRoutes[2] == "/admin/login";
    assert pathname == "/" ==> EndsWith(pathname, "/");
    assert pathname == "/login" ==> EndsWith(pathname, "/login");
    assert pathname == "/admin/login" ==> EndsWith(pathname, "/admin/login");
  }

  /** Every path ending in '/' is public, so a trailing slash is never gated. */
  lemma TrailingSlashIsPublic(pathname: string)
    requires pathname != [] && pathname[|pathname| - 1] == '/'
    ensures IsPublicRoute(pathname)
  {
    assert pathname[|pathname| - 1..] == "/";
    PublicRouteIff(pathname);
  }

  /** `pathname.split("/")[1]`, which reads as "undefined" for a path without '/'. */
  function LocaleSegment(pathname: string): string {
    var parts := Split(pathname, '/');
    if |parts| >= 2 then parts[1] else "undefined"
  }

  /** The admin login page of a locale. */
  function LoginPath(locale: string): string {
    "/" + locale + "/admin/login"
  }

  /** The locale segment of "/<seg>" or "/<seg>/…" is `seg`. */
  lemma {:induction false} LocaleSegmentOf(seg: string, rest: string)
    requires '/' !in seg
    requires rest == [] || rest[0] == '/'
    ensures LocaleSegment("/" + seg + rest) == seg
  {
    var p := "/" + seg + rest;
    assert p == ['/'] + (seg + rest);
    SplitLeadingSep(seg + rest, '/');
    assert (seg + rest)[..|seg|] == seg;
    SplitFirst(seg + rest, '/', |seg|);
    assert Split(p, '/')[1] == Split(seg + rest, '/')[0];
  }

  datatype Decision =
    | ToIntl
    | RedirectToLogin(location: string, redirectParam: Option<string>, deletedCookies: seq<string>)

  /**
   * The middleware's decision. `idToken` is the request's id-token cookie
   * and `verify` stands for `verifyIdToken` (false for a throw). A path
   * that is protected and not public needs a truthy token that verifies;
   * without one the request goes to the locale's login page, with
   * `redirect` set to the path when the token was missing, and with the
   * three auth cookies deleted when it failed to verify.
   */
  function Decide(pathname: string, idToken: Option<string>, verify: string -> bool): (d: Decision)
    ensures d == ToIntl <==>
              !(IsProtectedRoute(pathname) && !IsPublicRoute(pathname)) || (idToken.Some? && idToken.value != "" && verify(idToken.value))
    ensures d.RedirectToLogin? ==> d.location == LoginPath(LocaleSegment(pathname))
    ensures d.RedirectToLogin? && (idToken.None? || idToken.value == "") ==>
              d.redirectParam == Some(pathname) && d.deletedCookies == []
    ensures d.RedirectToLogin? && idToken.Some? && idToken.value != "" ==>
              d.redirectParam == None && d.deletedCookies == AuthCookies
  {
    if IsProtectedRoute(pathname) && !IsPublicRoute(pathname) then
      if idToken.None? || idToken.value == "" then
        RedirectToLogin(LoginPath(LocaleSegment(pathname)), Some(pathname), [])
      else if !verify(idToken.value) then
        RedirectToLogin(LoginPath(LocaleSegment(pathname)), None, AuthCookies)
      else
        ToIntl
    else
      ToIntl
  }

  /** The login page a redirect points to is itself public, so a redirect never leads to another redirect. */
  lemma LoginPageNeverRedirects(locale: string, idToken: Option<string>, verify: string -> bool)
    ensures Decide(LoginPath(locale), idToken, verify) == ToIntl
  {
    var p := LoginPath(locale);
    assert p[|p| - |"/admin/login"|..] == "/admin/login";
    PublicRouteIff(p);
  }

  /** An unauthenticated visit to a locale's dashboard is sent to that locale's login, remembering the page. */
  lemma DashboardWithoutToken(locale: string, verify: string -> bool)
    requires '/' !in locale
    ensures var p := "/" + locale + "/dashboard";
            Decide(p, None, verify) == RedirectToLogin(LoginPath(locale), Some(p), [])
  {
    var p := "/" + locale + "/dashboard";
    LocaleSegmentOf(locale, "/dashboard");
    var tail := p[|p| - 10..];
    assert tail == "/dashboard";
    assert OccursAt(p, "/dashboard", |p| - 10);
    assert !EndsWith(p, "/") && !EndsWith(p, "/login") && !EndsWith(p, "/admin/login") by {
      assert p[|p| - 1..] == tail[9..];
      assert p[|p| - 6..] == tail[4..];
      if |p| >= 12 {
        assert p[|p| - 12..][2..] == tail;
      }
    }
    ProtectedRouteIff(p);
    PublicRouteIff(p);
  }
}
