/**
 * The request guard (`middleware`): from the request path and the stored session it
 * either redirects or lets the request through, adding an `Authorization: Bearer`
 * header (section 2.1 of RFC 6750) when the session is signed in.
 *
 * Reading the cookie (URI-decoding and `JSON.parse`) is foreign code; its outcome is
 * the input `AuthCookie`. Request headers are a map from lower-case header name to
 * value, as the platform's `Headers` object stores them.
 */
module RouteGuard {
  import opened Wrappers
  import Text

  /**
   * The `auth-storage` cookie as the guard finds it: missing or empty, present but not
   * parseable, or the stored session's three fields (a field that is not there is None).
   */
  datatype AuthCookie =
    | NoCookie
    | Malformed
    | Stored(isAuthenticated: bool, role: Option<string>, token: Option<string>)

  /** The guard's three local variables once the cookie has been read. */
  datatype Credentials = Credentials(isAuthenticated: bool, role: Option<string>, token: Option<string>)

  /** `value || null` for a string that may be missing: the empty string counts as missing. */
  function OrNull(value: Option<string>): (r: Option<string>)
    ensures r.Some? <==> value.Some? && value.value != ""
    ensures r.Some? ==> r == value
  {
    if value.Some? && value.value != "" then value else None
  }

  /** Reading the cookie; a missing or unreadable cookie leaves the defaults. */
  function ReadCredentials(cookie: AuthCookie): (c: Credentials)
    ensures !cookie.Stored? ==> c == Credentials(false, None, None)
    ensures cookie.Stored? ==> c.isAuthenticated == cookie.isAuthenticated
    ensures cookie.Stored? ==> c.role == OrNull(cookie.role) && c.token == OrNull(cookie.token)
  {
    match cookie
    case NoCookie => Credentials(false, None, None)
    case Malformed => Credentials(false, None, None)
    case Stored(isAuthenticated, role, token) => Credentials(isAuthenticated, OrNull(role), OrNull(token))
  }

  /** `isAuthenticated && token`. */
  predicate SignedIn(c: Credentials)
  {
    c.isAuthenticated && c.token.Some?
  }

  predicate HasRole(c: Credentials, role: string)
  {
    c.role == Some(role)
  }

  datatype Response = Redirect(target: string) | Next(headers: map<string, string>)

  const AuthorizationKey: string := "authorization"

  /** The request headers with the session's bearer token set, replacing any earlier one. */
  function WithBearer(headers: map<string, string>, token: string): map<string, string>
  {
    headers[AuthorizationKey := "Bearer " + token]
  }

  /** The guard, its early returns in source order. */
  function Guard(pathname: string, cookie: AuthCookie, headers: map<string, string>): (r: Response)
    ensures var c := ReadCredentials(cookie);
      && (pathname == "/login" && SignedIn(c) ==> r == Redirect(if HasRole(c, "admin") then "/admin" else "/pos"))
      && (pathname == "/login" && !SignedIn(c) ==> r == Next(headers))
      && (pathname != "/login" && Text.StartsWith(pathname, "/admin") && !(SignedIn(c) && HasRole(c, "admin")) ==>
            r == Redirect("/login"))
      && (pathname != "/login" && Text.StartsWith(pathname, "/pos") && !(SignedIn(c) && HasRole(c, "pos")) ==>
            r == Redirect("/login"))
      && (pathname != "/login" && r.Next? ==>
            r.headers == if SignedIn(c) then WithBearer(headers, c.token.value) else headers)
  {
    var c := ReadCredentials(cookie);
    if SignedIn(c) && pathname == "/login" then
      Redirect(if HasRole(c, "admin") then "/admin" else "/pos")
    else if pathname == "/login" then
      Next(headers)
    else if Text.StartsWith(pathname, "/admin") && !SignedIn(c) then
      Redirect("/login")
    else if Text.StartsWith(pathname, "/admin") && !HasRole(c, "admin") then
      Redirect("/login")
    else if Text.StartsWith(pathname, "/pos") && !SignedIn(c) then
      Redirect("/login")
    else if Text.StartsWith(pathname, "/pos") && !HasRole(c, "pos") then
      Redirect("/login")
    else
      Next(if SignedIn(c) then WithBearer(headers, c.token.value) else headers)
  }

  // ---------------------------------------------------------------------------
  // What the guard guarantees

  /** Exactly when a request gets through. */
  lemma GuardAdmitsIff(pathname: string, cookie: AuthCookie, headers: map<string, string>)
    ensures var c := ReadCredentials(cookie);
      Guard(pathname, cookie, headers).Next? <==>
        (if pathname == "/login" then !SignedIn(c)
         else
           && (Text.StartsWith(pathname, "/admin") ==> SignedIn(c) && HasRole(c, "admin"))
           && (Text.StartsWith(pathname, "/pos") ==> SignedIn(c) && HasRole(c, "pos")))
  {
  }

  /** A request that reaches an admin or POS page carries the session's bearer token. */
  lemma ProtectedPagesCarryToken(pathname: string, cookie: AuthCookie, headers: map<string, string>)
    requires Text.StartsWith(pathname, "/admin") || Text.StartsWith(pathname, "/pos")
    requires Guard(pathname, cookie, headers).Next?
    ensures var c := ReadCredentials(cookie);
      && SignedIn(c)
      && AuthorizationKey in Guard(pathname, cookie, headers).headers
      && Guard(pathname, cookie, headers).headers[AuthorizationKey] == "Bearer " + c.token.value
      && c.token.value != ""
  {
    assert pathname[1] != 'l' by {
      if Text.StartsWith(pathname, "/admin") {
        assert pathname[1] == pathname[..6][1] == 'a';
      } else {
        assert pathname[1] == pathname[..4][1] == 'p';
      }
    }
    assert pathname != "/login";
  }

  /** Every redirect goes to the sign-in page or to one of the two dashboards. */
  lemma RedirectTargets(pathname: string, cookie: AuthCookie, headers: map<string, string>)
    ensures var r := Guard(pathname, cookie, headers);
      r.Redirect? ==> r.target == "/login" || r.target == "/admin" || r.target == "/pos"
  {
  }

  /** A missing or unreadable cookie is treated as signed out everywhere. */
  lemma UnreadableCookieIsSignedOut(pathname: string, headers: map<string, string>)
    ensures Guard(pathname, Malformed, headers) == Guard(pathname, NoCookie, headers)
    ensures Guard(pathname, NoCookie, headers) == Guard(pathname, Stored(false, None, None), headers)
  {
  }

  /**
   * A signed-in session whose role is "admin" or "pos" is sent from the sign-in page to
   * its dashboard, and the dashboard lets it in.
   */
  lemma SignInPageLeadsHome(cookie: AuthCookie, headers: map<string, string>)
    requires SignedIn(ReadCredentials(cookie))
    requires HasRole(ReadCredentials(cookie), "admin") || HasRole(ReadCredentials(cookie), "pos")
    ensures Guard("/login", cookie, headers).Redirect?
    ensures Guard(Guard("/login", cookie, headers).target, cookie, headers).Next?
  {
    var target := Guard("/login", cookie, headers).target;
    assert Text.StartsWith(target, target);
    if HasRole(ReadCredentials(cookie), "admin") {
      assert "/admin"[..4][1] == 'a';
    } else {
      assert |"/pos"| < |"/admin"|;
    }
  }

  /**
   * A signed-in session with no role (or any other role) bounces between the sign-in
   * page and the POS dashboard.
   */
  lemma RolelessSessionBounces(token: string, headers: map<string, string>)
    requires token != ""
    ensures var cookie := Stored(true, None, Some(token));
      && Guard("/login", cookie, headers) == Redirect("/pos")
      && Guard("/pos", cookie, headers) == Redirect("/login")
  {
    assert Text.StartsWith("/pos", "/pos");
  }
}
