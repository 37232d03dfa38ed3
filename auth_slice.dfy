/**
 * The authentication store: the signed-in user and the two tokens, mirrored
 * to browser storage so that a reload restores the session.
 */
module AuthSlice {
  import opened Wrappers
  import opened Domain
  import opened UserCodec

  /** Browser storage: text values under text keys. */
  type Storage = map<string, string>

  /** `localStorage.getItem(key)`. */
  function GetItem(storage: Storage, key: string): Option<string>
  {
    if key in storage then Some(storage[key]) else None
  }

  datatype AuthState = AuthState(
    user: Option<User>,
    accessToken: Option<string>,
    refreshToken: Option<string>,
    isAuthenticated: bool)

  const LoggedOut := AuthState(None, None, None, false)

  /** What `setCredentials` receives. */
  datatype Credentials = Credentials(user: Option<User>, accessToken: string, refreshToken: string)

  /**
   * The state the store starts in, read from storage. A stored user that is
   * missing or empty means no user; one that does not parse makes the start-up
   * throw, which is `None` here.
   */
  function InitialState(storage: Storage): (r: Option<AuthState>)
    ensures r.None? <==> "user" in storage && storage["user"] != "" && DecodeStoredUser(storage["user"]).None?
    ensures r.Some? ==> (r.value.isAuthenticated <==> "accessToken" in storage && storage["accessToken"] != "")
    ensures r.Some? ==> r.value.accessToken == GetItem(storage, "accessToken")
    ensures r.Some? ==> r.value.refreshToken == GetItem(storage, "refreshToken")
    ensures r.Some? && ("user" !in storage || storage["user"] == "") ==> r.value.user == None
    ensures r.Some? && "user" in storage && storage["user"] != "" ==>
      r.value.user == DecodeStoredUser(storage["user"]).value
  {
    var at := GetItem(storage, "accessToken");
    var tokens := (at, GetItem(storage, "refreshToken"), at.Some? && at.value != "");
    match GetItem(storage, "user")
    case None => Some(AuthState(None, tokens.0, tokens.1, tokens.2))
    case Some(text) =>
      if text == "" then Some(AuthState(None, tokens.0, tokens.1, tokens.2))
      else
        match DecodeStoredUser(text)
        case None => None
        case Some(u) => Some(AuthState(u, tokens.0, tokens.1, tokens.2))
  }

  /** The storage after `setCredentials`: the three keys are written, all others kept. */
  function StoreCredentials(storage: Storage, c: Credentials): (r: Storage)
    ensures r.Keys == storage.Keys + {"user", "accessToken", "refreshToken"}
    ensures r["user"] == EncodeStoredUser(c.user)
    ensures r["accessToken"] == c.accessToken && r["refreshToken"] == c.refreshToken
    ensures forall k :: k in storage && k !in {"user", "accessToken", "refreshToken"} ==> r[k] == storage[k]
  {
    storage["user" := EncodeStoredUser(c.user)]["accessToken" := c.accessToken]["refreshToken" := c.refreshToken]
  }

  class AuthStore {
    var user: Option<User>
    var accessToken: Option<string>
    var refreshToken: Option<string>
    var isAuthenticated: bool
    var storage: Storage

    function State(): AuthState
      reads this
    {
      AuthState(user, accessToken, refreshToken, isAuthenticated)
    }

    /** The store as the application starts it from what storage holds. */
    constructor (stored: Storage)
      requires InitialState(stored).Some?
      ensures State() == InitialState(stored).value
      ensures storage == stored
    {
      var s := InitialState(stored).value;
      user := s.user;
      accessToken := s.accessToken;
      refreshToken := s.refreshToken;
      isAuthenticated := s.isAuthenticated;
      storage := stored;
    }

    /** Sets the user and both tokens, marks the session authenticated and persists all three. */
    method SetCredentials(c: Credentials)
      modifies this
      ensures State() == AuthState(c.user, Some(c.accessToken), Some(c.refreshToken), true)
      ensures storage == StoreCredentials(old(storage), c)
    {
      user := c.user;
      accessToken := Some(c.accessToken);
      refreshToken := Some(c.refreshToken);
      isAuthenticated := true;
      storage := StoreCredentials(storage, c);
    }

    /** Clears the session and empties the whole of storage. */
    method Logout()
      modifies this
      ensures State() == LoggedOut
      ensures storage == map[]
    {
      isAuthenticated := false;
      user := None;
      accessToken := None;
      refreshToken := None;
      storage := map[];
    }
  }

  /**
   * A reload after `setCredentials` restores the same user and tokens; it counts
   * as authenticated exactly when the access token is non-empty.
   */
  lemma ReloadAfterSetCredentials(storage: Storage, c: Credentials)
    ensures InitialState(StoreCredentials(storage, c))
         == Some(AuthState(c.user, Some(c.accessToken), Some(c.refreshToken), c.accessToken != ""))
  {
    DecodeEncodeStoredUser(c.user);
    assert EncodeStoredUser(c.user) != "";
  }

  /** A reload after `logout` starts signed out. */
  lemma ReloadAfterLogout()
    ensures InitialState(map[]) == Some(LoggedOut)
  {
  }
}
