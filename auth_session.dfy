/**
 * The session store seen through the request guard: the store's state is what the
 * `auth-storage` cookie carries, and these lemmas follow a login or a logout through
 * to the guard's decision.
 */
module AuthSession {
  import opened Wrappers
  import opened AuthStore
  import opened RouteGuard
  import Text

  /** The cookie the guard reads for a stored session state. */
  function Persisted(s: AuthState): AuthCookie
  {
    Stored(s.isAuthenticated, if s.user.Some? then Some(RoleName(s.user.value.role)) else None, s.token)
  }

  /** After an admin login with a non-empty token, admin pages open with the bearer header. */
  lemma AdminLoginOpensAdmin(s: AuthState, token: string, pathname: string, headers: map<string, string>)
    requires token != "" && Text.StartsWith(pathname, "/admin")
    ensures Guard(pathname, Persisted(AfterLogin(s, token, Admin)), headers) == Next(WithBearer(headers, token))
  {
    assert pathname != "/login" by {
      assert pathname[1] == pathname[..6][1] == 'a';
    }
    assert !Text.StartsWith(pathname, "/pos") by {
      assert pathname[1] == pathname[..6][1] == 'a';
    }
  }

  /** After a POS login, admin pages send the request back to sign-in. */
  lemma PosLoginCannotOpenAdmin(s: AuthState, token: string, pathname: string, headers: map<string, string>)
    requires Text.StartsWith(pathname, "/admin")
    ensures Guard(pathname, Persisted(AfterLogin(s, token, Pos)), headers) == Redirect("/login")
  {
    assert pathname != "/login" by {
      assert pathname[1] == pathname[..6][1] == 'a';
    }
  }

  /** After a logout no admin or POS page opens. */
  lemma LogoutClosesProtectedPages(s: AuthState, pathname: string, headers: map<string, string>)
    requires Text.StartsWith(pathname, "/admin") || Text.StartsWith(pathname, "/pos")
    ensures Guard(pathname, Persisted(AfterLogout(s)), headers) == Redirect("/login")
  {
    assert pathname[1] != 'l' by {
      if Text.StartsWith(pathname, "/admin") {
        assert pathname[1] == pathname[..6][1] == 'a';
      } else {
        assert pathname[1] == pathname[..4][1] == 'p';
      }
    }
    assert pathname != "/login";
  }

  /** A login with an empty token is not a sign-in as far as the guard is concerned. */
  lemma EmptyTokenIsSignedOut(s: AuthState, role: Role)
    ensures !SignedIn(ReadCredentials(Persisted(AfterLogin(s, "", role))))
  {
  }

  /** After a login with a non-empty token, the sign-in page sends the user to their dashboard. */
  lemma LoginLandsOnDashboard(s: AuthState, token: string, role: Role, headers: map<string, string>)
    requires token != ""
    ensures Guard("/login", Persisted(AfterLogin(s, token, role)), headers) == Redirect("/" + RoleName(role))
    ensures Guard("/" + RoleName(role), Persisted(AfterLogin(s, token, role)), headers).Next?
  {
    SignInPageLeadsHome(Persisted(AfterLogin(s, token, role)), headers);
  }
}
