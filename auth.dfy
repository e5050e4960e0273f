/**
 * The session store of src/utils/auth.ts: three localStorage keys (the two
 * tokens and the user) written and removed together, the getters and the
 * isAuthenticated / isAdmin predicates over them, and the places that clear
 * the store (logout, logoutAll, the 401 response interceptor) or fill it
 * (the two login helpers). Server answers reach this logic as inputs.
 */
module Auth {
  import opened Wrappers
  import opened JsText

  datatype User = User(id: int, username: string, role: string, posyandu_name: string)

  /** A localStorage value: a plain string, or the JSON.stringify text of a user. */
  datatype Stored = Str(s: string) | UserJson(user: User)

  type Storage = map<string, Stored>

  const AccessTokenKey := "accessToken"
  const RefreshTokenKey := "refreshToken"
  const UserKey := "user"

  /** The three keys the session owns. */
  predicate IsAuthKey(k: string) {
    k == AccessTokenKey || k == RefreshTokenKey || k == UserKey
  }

  /** The tokens are stored as plain strings and the user as its JSON text. */
  predicate WellFormed(st: Storage) {
    (AccessTokenKey in st ==> st[AccessTokenKey].Str?)
    && (RefreshTokenKey in st ==> st[RefreshTokenKey].Str?)
    && (UserKey in st ==> st[UserKey].UserJson?)
  }

  /** Every key other than the three session keys has the same value, or is absent, in both stores. */
  ghost predicate SameOtherKeys(st: Storage, st': Storage) {
    forall k :: !IsAuthKey(k) ==> (k in st <==> k in st') && (k in st ==> st[k] == st'[k])
  }

  /** localStorage.getItem on a token key. */
  function TokenIn(st: Storage, key: string): Option<string> {
    if key in st && st[key].Str? then Some(st[key].s) else None
  }

  /** getItem('user') and JSON.parse: the stored user, if any. */
  function UserIn(st: Storage): Option<User> {
    if UserKey in st && st[UserKey].UserJson? then Some(st[UserKey].user) else None
  }

  /** !!accessToken && !!user: an empty token string is falsy. */
  predicate AuthenticatedIn(st: Storage) {
    var token := TokenIn(st, AccessTokenKey);
    token.Some? && token.value != [] && UserIn(st).Some?
  }

  predicate AdminIn(st: Storage) {
    UserIn(st).Some? && UserIn(st).value.role == "admin"
  }

  lemma AuthKeysDistinct()
    ensures AccessTokenKey != RefreshTokenKey && AccessTokenKey != UserKey && RefreshTokenKey != UserKey
  {
    assert AccessTokenKey[0] != RefreshTokenKey[0] && AccessTokenKey[0] != UserKey[0];
    assert RefreshTokenKey[0] != UserKey[0];
  }

  /** setAuthData on the store: the three keys written, every other key untouched. */
  function WithAuthData(st: Storage, accessToken: string, refreshToken: string, user: User): (st': Storage)
    ensures TokenIn(st', AccessTokenKey) == Some(accessToken)
    ensures TokenIn(st', RefreshTokenKey) == Some(refreshToken)
    ensures UserIn(st') == Some(user)
    ensures WellFormed(st') && SameOtherKeys(st, st')
  {
    AuthKeysDistinct();
    st[AccessTokenKey := Str(accessToken)][RefreshTokenKey := Str(refreshToken)][UserKey := UserJson(user)]
  }

  /** clearAuthData on the store: the three keys removed, every other key untouched. */
  function WithoutAuthData(st: Storage): (st': Storage)
    ensures forall k :: IsAuthKey(k) ==> k !in st'
    ensures TokenIn(st', AccessTokenKey) == None && TokenIn(st', RefreshTokenKey) == None && UserIn(st') == None
    ensures !AuthenticatedIn(st') && !AdminIn(st')
    ensures WellFormed(st') && SameOtherKeys(st, st')
  {
    st - {AccessTokenKey, RefreshTokenKey, UserKey}
  }

  /** Logging in and then out leaves the store as logging out alone would. */
  lemma ClearUndoesSet(st: Storage, accessToken: string, refreshToken: string, user: User)
    ensures WithoutAuthData(WithAuthData(st, accessToken, refreshToken, user)) == WithoutAuthData(st)
  {
    var a := WithoutAuthData(WithAuthData(st, accessToken, refreshToken, user));
    var b := WithoutAuthData(st);
    assert forall k :: k in a <==> k in b;
    assert forall k :: k in a ==> a[k] == b[k];
  }

  /** Clearing twice is clearing once. */
  lemma ClearIdempotent(st: Storage)
    ensures WithoutAuthData(WithoutAuthData(st)) == WithoutAuthData(st)
  {
    var a := WithoutAuthData(WithoutAuthData(st));
    assert forall k :: k in a <==> k in WithoutAuthData(st);
  }

  /** After setAuthData the session is authenticated exactly when the access token is non-empty, and admin exactly when the role is 'admin'. */
  lemma SetThenPredicates(st: Storage, accessToken: string, refreshToken: string, user: User)
    ensures AuthenticatedIn(WithAuthData(st, accessToken, refreshToken, user)) <==> accessToken != []
    ensures AdminIn(WithAuthData(st, accessToken, refreshToken, user)) <==> user.role == "admin"
  {
  }

  /** The localStorage of a browser page, or none when the code runs without a window. */
  class SessionStore {
    const hasWindow: bool
    var storage: Storage

    predicate Valid()
      reads this
    {
      WellFormed(storage)
    }

    constructor(hasWindow: bool, initial: Storage)
      requires WellFormed(initial)
      ensures Valid() && this.hasWindow == hasWindow && storage == initial
    {
      this.hasWindow := hasWindow;
      storage := initial;
    }

    /** getAccessToken: null without a window. */
    function GetAccessToken(): (token: Option<string>)
      reads this
      ensures !hasWindow ==> token == None
    {
      if hasWindow then TokenIn(storage, AccessTokenKey) else None
    }

    /** getRefreshToken: null without a window. */
    function GetRefreshToken(): (token: Option<string>)
      reads this
      ensures !hasWindow ==> token == None
    {
      if hasWindow then TokenIn(storage, RefreshTokenKey) else None
    }

    /** getUser: null without a window or without a stored user. */
    function GetUser(): (user: Option<User>)
      reads this
      ensures !hasWindow ==> user == None
    {
      if hasWindow then UserIn(storage) else None
    }

    /** isAuthenticated: a non-empty access token and a stored user. */
    function IsAuthenticated(): (b: bool)
      reads this
      ensures b <==> hasWindow && AuthenticatedIn(storage)
    {
      var token := GetAccessToken();
      token.Some? && token.value != [] && GetUser().Some?
    }

    /** isAdmin: a stored user whose role is 'admin'. */
    function IsAdmin(): (b: bool)
      reads this
      ensures b <==> hasWindow && AdminIn(storage)
    {
      var user := GetUser();
      user.Some? && user.value.role == "admin"
    }

    /** The request interceptor: the Authorization header sent when a non-empty token is stored. */
    function AuthorizationHeader(): (header: Option<string>)
      reads this
      ensures header.Some? <==> GetAccessToken().Some? && GetAccessToken().value != []
      ensures header.Some? ==> header.value == "Bearer " + GetAccessToken().value
    {
      var token := GetAccessToken();
      if token.Some? && token.value != [] then Some("Bearer " + token.value) else None
    }

    /** setAuthData: a no-op without a window, otherwise the three keys are written. */
    method SetAuthData(accessToken: string, refreshToken: string, user: User)
      requires Valid()
      modifies this
      ensures Valid()
      ensures storage == if hasWindow then WithAuthData(old(storage), accessToken, refreshToken, user) else old(storage)
      ensures hasWindow ==>
        GetAccessToken() == Some(accessToken) && GetRefreshToken() == Some(refreshToken) && GetUser() == Some(user)
    {
      if hasWindow {
        storage := WithAuthData(storage, accessToken, refreshToken, user);
      }
    }

    /** clearAuthData: a no-op without a window, otherwise the three keys are removed. */
    method ClearAuthData()
      requires Valid()
      modifies this
      ensures Valid()
      ensures storage == if hasWindow then WithoutAuthData(old(storage)) else old(storage)
      ensures GetAccessToken() == None && GetRefreshToken() == None && GetUser() == None
      ensures !IsAuthenticated() && !IsAdmin()
    {
      if hasWindow {
        storage := WithoutAuthData(storage);
      }
    }

    /** logout: serverFails says whether the server call failed (the error is logged and swallowed); the store is cleared either way. */
    method Logout(serverFails: bool)
      requires Valid()
      modifies this
      ensures Valid() && storage == if hasWindow then WithoutAuthData(old(storage)) else old(storage)
      ensures !IsAuthenticated() && GetUser() == None
    {
      ClearAuthData();
    }

    /** logoutAll: the same clear-on-exit as logout, after the all-devices call, whether or not that call failed (serverFails). */
    method LogoutAll(serverFails: bool)
      requires Valid()
      modifies this
      ensures Valid() && storage == if hasWindow then WithoutAuthData(old(storage)) else old(storage)
      ensures !IsAuthenticated() && GetUser() == None
    {
      ClearAuthData();
    }

    /**
     * The response interceptor on an error: a 401 clears the store and, away
     * from the login page, sends the browser to '/login'; other errors
     * change nothing.
     */
    method OnResponseError(status: Option<int>, pathname: string) returns (redirect: Option<string>)
      requires Valid()
      modifies this
      ensures Valid()
      ensures status == Some(401) ==> storage == if hasWindow then WithoutAuthData(old(storage)) else old(storage)
      ensures status != Some(401) ==> storage == old(storage)
      ensures redirect.Some? <==> status == Some(401) && hasWindow && !Contains(pathname, "/login")
      ensures redirect.Some? ==> redirect.value == "/login"
    {
      redirect := None;
      if status == Some(401) {
        ClearAuthData();
        if hasWindow && !Contains(pathname, "/login") {
          redirect := Some("/login");
        }
      }
    }

    /** loginWithCredentials / loginWithPin: the tokens and user are stored only on success. */
    method StoreLoginResponse(success: bool, accessToken: string, refreshToken: string, user: User)
      requires Valid()
      modifies this
      ensures Valid()
      ensures storage == if success && hasWindow then WithAuthData(old(storage), accessToken, refreshToken, user)
                         else old(storage)
    {
      if success {
        SetAuthData(accessToken, refreshToken, user);
      }
    }
  }
}
