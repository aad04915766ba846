/**
 * The authentication state of the web client and its reducer
 * (frontend/finance/src/context/AuthContext.jsx). `V` stands for any JSON value a payload
 * carries; `null` is `None`. The provider's flows dispatch REQUEST and then, depending on the
 * outcome of a fetch, one more action; the fetch outcome is a parameter here.
 */
module AuthContext {
  import opened Common

  /** The reducer state. */
  datatype AuthState<V> = AuthState(user: Option<V>, loading: bool, error: Option<V>)

  /** An action type string the reducer has no case for. */
  type UnhandledKind = kind: string
    | kind != "REQUEST" && kind != "SUCCESS" && kind != "ERROR" && kind != "LOGOUT"
    witness ""

  /** The dispatched actions; `Other` carries any type string other than the four handled ones. */
  datatype AuthAction<V> =
    | Request
    | Success(user: V)
    | Error(error: V)
    | Logout
    | Other(kind: UnhandledKind)

  /** What a provider flow's fetch produced: the response data, or an error message. */
  datatype Outcome<V> = Responded(data: V) | Failed(message: V)

  /** The state the provider starts from: no user, not loading, no error. */
  function InitialState<V>(): (s: AuthState<V>)
    ensures s.user.None? && !s.loading && s.error.None?
  {
    AuthState(None, false, None)
  }

  /** authReducer: REQUEST, SUCCESS, ERROR and LOGOUT each set some fields and keep the rest; other types leave the state alone. */
  function Reduce<V>(s: AuthState<V>, a: AuthAction<V>): (r: AuthState<V>)
    ensures a.Request? ==> r.loading && r.error.None? && r.user == s.user
    ensures a.Success? ==> r.user == Some(a.user) && !r.loading && r.error == s.error
    ensures a.Error? ==> r.error == Some(a.error) && !r.loading && r.user == s.user
    ensures a.Logout? ==> r.user.None? && r.loading == s.loading && r.error == s.error
    ensures a.Other? ==> r == s
  {
    match a
    case Request => s.(loading := true, error := None)
    case Success(u) => s.(loading := false, user := Some(u))
    case Error(e) => s.(loading := false, error := Some(e))
    case Logout => s.(user := None)
    case Other(_) => s
  }

  /**
   * signup, login, getProfile and updateUserProfile: REQUEST, then SUCCESS with the data or
   * ERROR with the message. The flow always ends not loading; success clears the error
   * (through REQUEST), failure keeps the user.
   */
  function RequestFlow<V>(s: AuthState<V>, outcome: Outcome<V>): (r: AuthState<V>)
    ensures !r.loading
    ensures outcome.Responded? ==> r.user == Some(outcome.data) && r.error.None?
    ensures outcome.Failed? ==> r.error == Some(outcome.message) && r.user == s.user
  {
    var pending := Reduce(s, Request);
    match outcome
    case Responded(data) => Reduce(pending, Success(data))
    case Failed(message) => Reduce(pending, Error(message))
  }

  /**
   * logout: REQUEST, then LOGOUT when the server answers ok, else ERROR. LOGOUT does not reset
   * `loading`, so a successful logout ends still loading.
   */
  function LogoutFlow<V>(s: AuthState<V>, outcome: Outcome<V>): (r: AuthState<V>)
    ensures outcome.Responded? ==> r.user.None? && r.loading && r.error.None?
    ensures outcome.Failed? ==> r.error == Some(outcome.message) && !r.loading && r.user == s.user
  {
    var pending := Reduce(s, Request);
    match outcome
    case Responded(_) => Reduce(pending, Logout)
    case Failed(message) => Reduce(pending, Error(message))
  }

  /** Logging in and then logging out successfully leaves no user but a state that is still loading. */
  lemma LoginThenLogoutStaysLoading<V>(s: AuthState<V>, profile: V, ok: V)
    ensures LogoutFlow(RequestFlow(s, Responded(profile)), Responded(ok)) == AuthState(None, true, None)
  {
  }
}
