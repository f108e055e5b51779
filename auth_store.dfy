/**
 * The session store (`useAuthStore`): the signed-in user, the access token and the
 * signed-in flag, with `login` and `logout`. Writing the state to the `auth-storage`
 * cookie is not part of this model; `auth_session.dfy` relates the state to the cookie
 * the request guard reads.
 */
module AuthStore {
  import opened Wrappers

  datatype Role = Admin | Pos

  /** The role as stored: "admin" or "pos". */
  function RoleName(role: Role): string
  {
    match role
    case Admin => "admin"
    case Pos => "pos"
  }

  datatype User = User(id: string, email: string, role: Role, name: string)

  datatype AuthState = AuthState(user: Option<User>, token: Option<string>, isAuthenticated: bool)

  /** No user, no token, signed out. */
  function Initial(): AuthState
  {
    AuthState(None, None, false)
  }

  /** `login`: the token and role replace whatever was there; the other user fields are placeholders. */
  function AfterLogin(s: AuthState, token: string, role: Role): (r: AuthState)
    ensures r.token == Some(token) && r.isAuthenticated
    ensures r.user.Some? && r.user.value.role == role
  {
    AuthState(Some(User("placeholder", "placeholder", role, "placeholder")), Some(token), true)
  }

  /** `logout`: back to the signed-out state. */
  function AfterLogout(s: AuthState): (r: AuthState)
    ensures r == Initial()
  {
    AuthState(None, None, false)
  }

  /** The state after login does not depend on the state before it. */
  lemma LoginOverwrites(s: AuthState, t: AuthState, token: string, role: Role)
    ensures AfterLogin(s, token, role) == AfterLogin(t, token, role)
  {
  }

  /** Logging out twice is logging out once. */
  lemma LogoutIdempotent(s: AuthState)
    ensures AfterLogout(AfterLogout(s)) == AfterLogout(s)
  {
  }

  /** A login followed by a logout leaves exactly the initial state. */
  lemma LoginThenLogout(s: AuthState, token: string, role: Role)
    ensures AfterLogout(AfterLogin(s, token, role)) == Initial()
  {
  }

  /** The two stored roles are told apart by their names. */
  lemma RoleNamesDistinct(a: Role, b: Role)
    ensures RoleName(a) == RoleName(b) <==> a == b
  {
  }

  class Session {
    var user: Option<User>
    var token: Option<string>
    var isAuthenticated: bool

    function State(): AuthState
      reads this
    {
      AuthState(user, token, isAuthenticated)
    }

    constructor ()
      ensures State() == Initial()
    {
      user, token, isAuthenticated := None, None, false;
    }

    method Login(newToken: string, role: Role)
      modifies this
      ensures State() == AfterLogin(old(State()), newToken, role)
    {
      token := Some(newToken);
      isAuthenticated := true;
      user := Some(User("placeholder", "placeholder", role, "placeholder"));
    }

    method Logout()
      modifies this
      ensures State() == AfterLogout(old(State()))
    {
      user, token, isAuthenticated := None, None, false;
    }
  }
}
