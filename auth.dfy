/**
 * The login state machine (frontend/src/redux/slices/authSlice.js). The
 * initial user is whatever browser storage held; writing to and removing
 * from that storage is not modelled.
 */
module AuthSlice {
  import opened Common

  datatype User = User(id: string, name: string, email: string, isAdmin: bool, token: string)

  class AuthState {
    var user: Option<User>
    var isAuthenticated: bool
    var loading: bool
    var error: Option<string>

    /** Signed in exactly when there is a user. */
    predicate Consistent()
      reads this
    {
      isAuthenticated <==> user.Some?
    }

    /** The initial state, from the stored user (`!!userFromStorage`). */
    constructor (stored: Option<User>)
      ensures user == stored && isAuthenticated == stored.Some?
      ensures !loading && error.None?
      ensures Consistent()
    {
      user := stored;
      isAuthenticated := stored.Some?;
      loading := false;
      error := None;
    }

    method LoginStart()
      modifies this
      ensures loading && error.None?
      ensures user == old(user) && isAuthenticated == old(isAuthenticated)
      ensures old(Consistent()) ==> Consistent()
    {
      loading := true;
      error := None;
    }

    /** `payload` is the response body; None stands for a null payload. */
    method LoginSuccess(payload: Option<User>)
      modifies this
      ensures !loading && isAuthenticated && user == payload
      ensures error == old(error)
      ensures payload.Some? ==> Consistent()
    {
      loading := false;
      isAuthenticated := true;
      user := payload;
    }

    method LoginFailure(payload: Option<string>)
      modifies this
      ensures !loading && error == payload
      ensures user == old(user) && isAuthenticated == old(isAuthenticated)
      ensures old(Consistent()) ==> Consistent()
    {
      loading := false;
      error := payload;
    }

    method Logout()
      modifies this
      ensures user.None? && !isAuthenticated
      ensures loading == old(loading) && error == old(error)
      ensures Consistent()
    {
      user := None;
      isAuthenticated := false;
    }
  }

  /** A null `loginSuccess` payload is the one way to break the invariant. */
  method NullLoginBreaksInvariant() returns (s: AuthState)
    ensures s.isAuthenticated && s.user.None? && !s.Consistent()
  {
    s := new AuthState(None);
    s.LoginSuccess(None);
  }
}
