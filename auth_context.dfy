/** The authentication context (frontend/src/contexts/AuthContext.tsx): the
    `authReducer` state machine, the login/register dispatch sequence, logout
    and the start-up choice from stored credentials. */
module AuthContext {
  import opened Common
  import opened ClientTypes

  datatype AuthState = AuthState(
    user: Option<User>,
    token: Option<string>,
    isAuthenticated: bool,
    isLoading: bool,
    error: Option<string>)

  const InitialState := AuthState(None, None, false, true, None)

  datatype AuthAction =
    | AuthStart
    | AuthSuccess(payload: AuthResponse)
    | AuthFailure(message: string)
    | Logout

  /** `authReducer`. */
  function Reduce(state: AuthState, action: AuthAction): AuthState {
    match action
    case AuthStart => state.(isLoading := true, error := None)
    case AuthSuccess(payload) =>
      state.(user := Some(payload.user), token := Some(payload.token), isAuthenticated := true,
             isLoading := false, error := None)
    case AuthFailure(message) =>
      state.(user := None, token := None, isAuthenticated := false, isLoading := false, error := Some(message))
    case Logout => InitialState.(isLoading := false)
  }

  /** The authentication flag holds exactly when a token is held. */
  predicate Consistent(state: AuthState) {
    state.isAuthenticated <==> state.token.Some?
  }

  /** Each action's effect: AUTH_START only raises loading and clears the error;
      AUTH_SUCCESS takes user and token from the payload; AUTH_FAILURE drops them
      and records the message; LOGOUT returns to the initial state, not loading. */
  lemma ReduceEffects(state: AuthState, payload: AuthResponse, message: string)
    ensures var s := Reduce(state, AuthStart);
      s.user == state.user && s.token == state.token && s.isAuthenticated == state.isAuthenticated
      && s.isLoading && s.error.None?
    ensures var s := Reduce(state, AuthSuccess(payload));
      s.user == Some(payload.user) && s.token == Some(payload.token) && s.isAuthenticated
      && !s.isLoading && s.error.None?
    ensures Reduce(state, AuthFailure(message)) == AuthState(None, None, false, false, Some(message))
    ensures Reduce(state, Logout) == AuthState(None, None, false, false, None)
  {
  }

  /** Every action preserves the invariant. */
  lemma ReducePreservesConsistent(state: AuthState, action: AuthAction)
    requires Consistent(state)
    ensures Consistent(Reduce(state, action))
  {
  }

  /** Applies the actions in order. */
  function Run(state: AuthState, actions: seq<AuthAction>): AuthState
    decreases |actions|
  {
    if actions == [] then state else Run(Reduce(state, actions[0]), actions[1..])
  }

  /** Every state reachable from the initial state satisfies the invariant. */
  lemma {:induction false} RunPreservesConsistent(state: AuthState, actions: seq<AuthAction>)
    requires Consistent(state)
    ensures Consistent(Run(state, actions))
    decreases |actions|
  {
    if actions != [] {
      ReducePreservesConsistent(state, actions[0]);
      RunPreservesConsistent(Reduce(state, actions[0]), actions[1..]);
    }
  }

  lemma ReachableConsistent(actions: seq<AuthAction>)
    ensures Consistent(Run(InitialState, actions))
  {
    RunPreservesConsistent(InitialState, actions);
  }

  /** The start-up effect's choice: both a (non-empty) stored token and a stored
      user lead to AUTH_SUCCESS, anything else to AUTH_FAILURE 'No token found'. */
  function StartupAction(storedToken: Option<string>, storedUser: Option<User>): (a: AuthAction)
    ensures a.AuthSuccess? <==> storedToken.Some? && storedToken.value != "" && storedUser.Some?
    ensures a.AuthSuccess? ==> a.payload == AuthResponse(storedUser.value, storedToken.value)
    ensures !a.AuthSuccess? ==> a == AuthFailure("No token found")
  {
    if storedToken.Some? && storedToken.value != "" && storedUser.Some? then
      AuthSuccess(AuthResponse(storedUser.value, storedToken.value))
    else
      AuthFailure("No token found")
  }

  /** The provider: reducer state, the actions dispatched so far, and the two
      stored entries ('token' and 'user', the user kept as its parsed value). */
  class Provider {
    var state: AuthState
    var dispatched: seq<AuthAction>
    var storedToken: Option<string>
    var storedUser: Option<User>

    ghost predicate Valid()
      reads this
    {
      Consistent(state)
    }

    constructor (token: Option<string>, user: Option<User>)
      ensures Valid() && state == InitialState && dispatched == []
      ensures storedToken == token && storedUser == user
    {
      state := InitialState;
      dispatched := [];
      storedToken, storedUser := token, user;
    }

    method Dispatch(action: AuthAction)
      requires Valid()
      modifies this`state, this`dispatched
      ensures Valid()
      ensures state == Reduce(old(state), action) && dispatched == old(dispatched) + [action]
    {
      ReducePreservesConsistent(state, action);
      state := Reduce(state, action);
      dispatched := dispatched + [action];
    }

    /** The mount effect: chooses success or failure from the stored entries. */
    method Startup()
      requires Valid()
      modifies this
      ensures Valid()
      ensures dispatched == old(dispatched) + [StartupAction(storedToken, storedUser)]
      ensures state == Reduce(old(state), StartupAction(storedToken, storedUser))
      ensures storedToken == old(storedToken) && storedUser == old(storedUser)
    {
      if storedToken.Some? && storedToken.value != "" && storedUser.Some? {
        Dispatch(AuthSuccess(AuthResponse(storedUser.value, storedToken.value)));
      } else {
        Dispatch(AuthFailure("No token found"));
      }
    }

    /** Shared body of `login` and `register`: AUTH_START, then on success store
        the credentials and AUTH_SUCCESS, on failure AUTH_FAILURE and a throw. */
    method Authenticate(response: Result<AuthResponse, HttpError>, fallback: string)
      returns (outcome: Result<(), string>)
      requires Valid()
      modifies this
      ensures Valid()
      ensures response.Ok? ==>
        && outcome == Ok(())
        && dispatched == old(dispatched) + [AuthStart, AuthSuccess(response.value)]
        && storedToken == Some(response.value.token) && storedUser == Some(response.value.user)
        && state == Reduce(Reduce(old(state), AuthStart), AuthSuccess(response.value))
        && state.isAuthenticated && state.token == Some(response.value.token)
      ensures response.Err? ==>
        var message := MessageOr(response.error.message, fallback);
        && outcome == Err(message)
        && dispatched == old(dispatched) + [AuthStart, AuthFailure(message)]
        && storedToken == old(storedToken) && storedUser == old(storedUser)
        && state == Reduce(Reduce(old(state), AuthStart), AuthFailure(message))
        && !state.isAuthenticated && state.error == Some(message)
    {
      Dispatch(AuthStart);
      if response.Ok? {
        storedToken := Some(response.value.token);
        storedUser := Some(response.value.user);
        Dispatch(AuthSuccess(response.value));
        outcome := Ok(());
      } else {
        var message := MessageOr(response.error.message, fallback);
        Dispatch(AuthFailure(message));
        outcome := Err(message);
      }
    }

    method Login(response: Result<AuthResponse, HttpError>) returns (outcome: Result<(), string>)
      requires Valid()
      modifies this
      ensures Valid()
      ensures response.Ok? ==>
        && outcome == Ok(())
        && dispatched == old(dispatched) + [AuthStart, AuthSuccess(response.value)]
        && storedToken == Some(response.value.token) && storedUser == Some(response.value.user)
        && state == Reduce(Reduce(old(state), AuthStart), AuthSuccess(response.value))
      ensures response.Err? ==>
        var message := MessageOr(response.error.message, "Login failed");
        && outcome == Err(message)
        && dispatched == old(dispatched) + [AuthStart, AuthFailure(message)]
        && storedToken == old(storedToken) && storedUser == old(storedUser)
        && state == Reduce(Reduce(old(state), AuthStart), AuthFailure(message))
    {
      outcome := Authenticate(response, "Login failed");
    }

    method Register(response: Result<AuthResponse, HttpError>) returns (outcome: Result<(), string>)
      requires Valid()
      modifies this
      ensures Valid()
      ensures response.Ok? ==>
        && outcome == Ok(())
        && dispatched == old(dispatched) + [AuthStart, AuthSuccess(response.value)]
        && storedToken == Some(response.value.token) && storedUser == Some(response.value.user)
        && state == Reduce(Reduce(old(state), AuthStart), AuthSuccess(response.value))
      ensures response.Err? ==>
        var message := MessageOr(response.error.message, "Registration failed");
        && outcome == Err(message)
        && dispatched == old(dispatched) + [AuthStart, AuthFailure(message)]
        && storedToken == old(storedToken) && storedUser == old(storedUser)
        && state == Reduce(Reduce(old(state), AuthStart), AuthFailure(message))
    {
      outcome := Authenticate(response, "Registration failed");
    }

    /** `logout`: clears both stored entries and dispatches LOGOUT. */
    method LogOut()
      requires Valid()
      modifies this
      ensures Valid()
      ensures storedToken.None? && storedUser.None?
      ensures dispatched == old(dispatched) + [Logout]
      ensures state == AuthState(None, None, false, false, None)
    {
      storedToken, storedUser := None, None;
      Dispatch(Logout);
    }
  }
}
