/**
 * `useAuth`: the persisted record of who is logged in.
 */
module Auth {
  import opened Wrappers

  datatype User = User(id: string, name: string, email: string, role: string)

  datatype AuthState = AuthState(user: Option<User>, isAuthenticated: bool)

  /** The two fields agree: authenticated exactly when a user is stored. */
  predicate Consistent(s: AuthState)
  {
    s.isAuthenticated <==> s.user.Some?
  }

  /** No user and not authenticated. */
  function Initial(): (s: AuthState)
    ensures s.user.None? && !s.isAuthenticated
  {
    AuthState(None, false)
  }

  /** `login(u)`: `u` becomes the user, authenticated, whoever was logged in before. */
  function Login(s: AuthState, u: User): (r: AuthState)
    ensures r.user == Some(u) && r.isAuthenticated
  {
    AuthState(Some(u), true)
  }

  /** `logout`: no user and not authenticated, from any state. */
  function Logout(s: AuthState): (r: AuthState)
    ensures r.user.None? && !r.isAuthenticated
  {
    AuthState(None, false)
  }

  /** Logging out twice is logging out once, and brings back the initial state. */
  lemma LogoutIdempotent(s: AuthState)
    ensures Logout(Logout(s)) == Logout(s) == Initial()
  {
  }

  datatype AuthEvent = LoggedIn(u: User) | LoggedOut

  function Apply(s: AuthState, e: AuthEvent): AuthState
  {
    match e
    case LoggedIn(u) => Login(s, u)
    case LoggedOut => Logout(s)
  }

  function ApplyAll(s: AuthState, es: seq<AuthEvent>): AuthState
    decreases |es|
  {
    if es == [] then s else ApplyAll(Apply(s, es[0]), es[1..])
  }

  /**
   * The store stays consistent through any sequence of logins and logouts
   * from the initial state, and the user is the one of the last login
   * unless a logout came after it.
   */
  lemma {:induction false} ApplyAllConsistent(s: AuthState, es: seq<AuthEvent>)
    requires Consistent(s)
    ensures Consistent(ApplyAll(s, es))
    ensures es != [] && es[|es| - 1].LoggedIn? ==> ApplyAll(s, es).user == Some(es[|es| - 1].u)
    ensures es != [] && es[|es| - 1].LoggedOut? ==> ApplyAll(s, es) == Initial()
    decreases |es|
  {
    if es != [] {
      ApplyAllConsistent(Apply(s, es[0]), es[1..]);
      if |es| > 1 {
        assert es[1..][|es[1..]| - 1] == es[|es| - 1];
      }
    }
  }

  /** Every state reached from the start is consistent. */
  lemma Reachable(es: seq<AuthEvent>)
    ensures Consistent(ApplyAll(Initial(), es))
  {
    ApplyAllConsistent(Initial(), es);
  }
}
