/** The authentication store: the signed-in user, their token and the
    progress and error flags of a sign-in, changed by the auth slice's reducers. */
module AuthSlice {
  import opened Wrappers
  import opened Types

  /** The `{ user, token }` payload of `setCredentials` and `hydrateAuth`. */
  datatype Credentials = Credentials(user: User, token: string)

  datatype AuthAction =
    | SetCredentials(credentials: Credentials)
    | SetLoading(loading: bool)
    | SetError(message: string)
    | Logout
    | HydrateAuth(payload: Option<Credentials>)

  class AuthStore {
    var user: Option<User>
    var token: Option<string>
    var isAuthenticated: bool
    var isLoading: bool
    var error: Option<string>

    /** The state is authenticated exactly when both a user and a token are held. */
    predicate Valid()
      reads this
    {
      isAuthenticated <==> user.Some? && token.Some?
    }

    /** `initialState`: nobody signed in, nothing loading, no error. */
    predicate IsInitial()
      reads this
    {
      user == None && token == None && !isAuthenticated && !isLoading && error == None
    }

    constructor ()
      ensures IsInitial() && Valid()
    {
      user := None;
      token := None;
      isAuthenticated := false;
      isLoading := false;
      error := None;
    }

    method SetCredentials(credentials: Credentials)
      modifies this
      ensures user == Some(credentials.user) && token == Some(credentials.token)
      ensures isAuthenticated && !isLoading && error == None
      ensures Valid()
    {
      user := Some(credentials.user);
      token := Some(credentials.token);
      isAuthenticated := true;
      isLoading := false;
      error := None;
    }

    method SetLoading(loading: bool)
      modifies this
      ensures isLoading == loading
      ensures user == old(user) && token == old(token) && isAuthenticated == old(isAuthenticated)
      ensures error == old(error)
      ensures old(Valid()) ==> Valid()
    {
      isLoading := loading;
    }

    /** Records a failure and ends loading; whoever was signed in stays signed in. */
    method SetError(message: string)
      modifies this
      ensures error == Some(message) && !isLoading
      ensures user == old(user) && token == old(token) && isAuthenticated == old(isAuthenticated)
      ensures old(Valid()) ==> Valid()
    {
      error := Some(message);
      isLoading := false;
    }

    /** Returns to the initial state from any state. */
    method Logout()
      modifies this
      ensures IsInitial() && Valid()
    {
      user := None;
      token := None;
      isAuthenticated := false;
      isLoading := false;
      error := None;
    }

    /** Restores saved credentials when there are any; always ends loading and
        never touches the error. */
    method HydrateAuth(payload: Option<Credentials>)
      modifies this
      ensures payload.Some? ==>
                user == Some(payload.value.user) && token == Some(payload.value.token) && isAuthenticated
      ensures payload.None? ==>
                user == old(user) && token == old(token) && isAuthenticated == old(isAuthenticated)
      ensures !isLoading && error == old(error)
      ensures old(Valid()) ==> Valid()
    {
      if payload.Some? {
        user := Some(payload.value.user);
        token := Some(payload.value.token);
        isAuthenticated := true;
      }
      isLoading := false;
    }

    /** The slice's reducer; every action keeps `Valid`. */
    method Dispatch(action: AuthAction)
      modifies this
      ensures old(Valid()) ==> Valid()
      ensures match action
        case SetCredentials(c) => user == Some(c.user) && token == Some(c.token) && isAuthenticated && !isLoading && error == None
        case SetLoading(b) => isLoading == b && user == old(user) && token == old(token) &&
                              isAuthenticated == old(isAuthenticated) && error == old(error)
        case SetError(m) => error == Some(m) && !isLoading && user == old(user) && token == old(token) &&
                            isAuthenticated == old(isAuthenticated)
        case Logout => IsInitial()
        case HydrateAuth(p) => !isLoading && error == old(error) &&
                               (p.Some? ==> user == Some(p.value.user) && token == Some(p.value.token) && isAuthenticated) &&
                               (p.None? ==> user == old(user) && token == old(token) && isAuthenticated == old(isAuthenticated))
    {
      match action
      case SetCredentials(c) => SetCredentials(c);
      case SetLoading(b) => SetLoading(b);
      case SetError(m) => SetError(m);
      case Logout => Logout();
      case HydrateAuth(p) => HydrateAuth(p);
    }
  }
}
