/**
 * The session held by the frontend auth provider
 * (`apps/frontend/src/lib/auth/auth-context.tsx`): the current user and
 * token, the developer-mode flag and the loading flag, kept in step with
 * three browser storage keys. The route guard is a pure decision on
 * (loading, token, path).
 */
module AuthContext {
  import opened Wrappers
  import opened FrontendTypes
  import opened BrowserStorage
  import MockData

  const TokenKey := "petshop_auth_token"
  const UserKey := "petshop_auth_user"
  const MockModeKey := "petshop_mock_mode"
  const PublicRoutes: seq<string> := ["/login", "/register", "/forgot-password"]

  /** The `exp` claim as read from a token's payload, or the failure to read it. */
  datatype ExpClaim = Undecodable | NoExp | Exp(seconds: int)

  /** `payload.exp * 1000 < Date.now()`; a missing claim gives NaN, which is never less. */
  predicate Expired(claim: ExpClaim, now: int)
    requires !claim.Undecodable?
    ensures Expired(claim, now) ==> claim.Exp?
    ensures claim.Exp? ==> (Expired(claim, now) <==> claim.seconds * 1000 < now)
  {
    claim.Exp? && claim.seconds * 1000 < now
  }

  predicate TokenTruthy(t: Option<string>)
  {
    t.Some? && t.value != ""
  }

  predicate IsPrefix(p: string, s: string)
  {
    |p| <= |s| && s[..|p|] == p
  }

  predicate IsPublicRoute(path: string)
  {
    exists i :: 0 <= i < |PublicRoutes| && IsPrefix(PublicRoutes[i], path)
  }

  /** The route-protection effect: where it sends the router, if anywhere. */
  function GuardRedirect(isLoading: bool, token: Option<string>, path: string): (r: Option<string>)
    ensures isLoading ==> r.None?
    ensures r in {None, Some("/login"), Some("/dashboard")}
    ensures r == Some("/login") ==> !TokenTruthy(token) && !IsPublicRoute(path) && path != "/"
    ensures r == Some("/dashboard") ==> TokenTruthy(token) && (IsPublicRoute(path) || path == "/")
  {
    if isLoading then None
    else
      var open := IsPublicRoute(path) || path == "/";
      if !TokenTruthy(token) && !open then Some("/login")
      else if TokenTruthy(token) && open then Some("/dashboard")
      else None
  }

  /** While loading, the guard never redirects. */
  lemma GuardWaitsWhileLoading(token: Option<string>, path: string)
    ensures GuardRedirect(true, token, path) == None
  {
  }

  /**
   * Once loaded: without a token a protected path goes to /login, with a
   * token an open path goes to /dashboard, and nothing else redirects.
   */
  lemma GuardDecision(token: Option<string>, path: string)
    ensures GuardRedirect(false, token, path) == Some("/login") <==>
      !TokenTruthy(token) && !IsPublicRoute(path) && path != "/"
    ensures GuardRedirect(false, token, path) == Some("/dashboard") <==>
      TokenTruthy(token) && (IsPublicRoute(path) || path == "/")
    ensures GuardRedirect(false, token, path) in {None, Some("/login"), Some("/dashboard")}
  {
  }

  /** Every path below /login, /register or /forgot-password is public. */
  lemma PublicPrefixes(suffix: string)
    ensures IsPublicRoute("/login" + suffix)
    ensures IsPublicRoute("/register" + suffix)
    ensures IsPublicRoute("/forgot-password" + suffix)
  {
    assert IsPrefix(PublicRoutes[0], "/login" + suffix);
    assert IsPrefix(PublicRoutes[1], "/register" + suffix);
    assert IsPrefix(PublicRoutes[2], "/forgot-password" + suffix);
  }

  /** A logged-out visit to the dashboard goes to /login; a logged-in visit to /login goes to the dashboard. */
  lemma GuardExamples(t: string)
    requires t != ""
    ensures GuardRedirect(false, None, "/dashboard") == Some("/login")
    ensures GuardRedirect(false, Some(t), "/login") == Some("/dashboard")
    ensures GuardRedirect(false, Some(t), "/dashboard") == None
  {
    PublicPrefixes("");
    assert "/login" + "" == "/login";
    var d := "/dashboard";
    forall i | 0 <= i < |PublicRoutes|
      ensures !IsPrefix(PublicRoutes[i], d)
    {
      assert PublicRoutes[i][1] != d[1] || PublicRoutes[i][2] != d[2];
    }
  }

  class AuthProvider {
    var user: Option<User>
    var token: Option<string>
    var isMockMode: bool
    var isLoading: bool
    /** The last `router.replace` target. */
    var redirect: Option<string>
    const storage: LocalStorage
    /** The time `mock-data.ts` was loaded, the developer user's `createdAt`. */
    const loadedAt: string

    constructor (storage: LocalStorage, loadedAt: string)
      ensures this.storage == storage && this.loadedAt == loadedAt
      ensures user.None? && token.None? && !isMockMode && isLoading && redirect.None?
    {
      this.storage := storage;
      this.loadedAt := loadedAt;
      user := None;
      token := None;
      isMockMode := false;
      isLoading := true;
      redirect := None;
    }

    /** `!!token && !!user`: an empty token string does not count. */
    predicate IsAuthenticated()
      reads this
      ensures IsAuthenticated() <==> token.Some? && token.value != "" && user.Some?
    {
      TokenTruthy(token) && user.Some?
    }

    /**
     * `initAuth`, run once when the provider mounts. `now` is `Date.now()`;
     * `decode` reads the `exp` claim of a token.
     */
    method InitAuth(now: int, decode: string -> ExpClaim)
      modifies this, storage
      ensures !isLoading && redirect == old(redirect)
      ensures old(storage.GetItem(MockModeKey)) == Some(Text("true")) ==>
        isMockMode && token == Some(MockData.MockToken) && user == Some(MockData.MockUser(loadedAt))
        && storage.items == old(storage.items)
      ensures old(storage.GetItem(MockModeKey)) != Some(Text("true")) ==> isMockMode == old(isMockMode)
      ensures (old(storage.GetItem(MockModeKey)) != Some(Text("true"))
               && !(Truthy(old(storage.GetItem(TokenKey))) && Truthy(old(storage.GetItem(UserKey))))) ==>
        user == old(user) && token == old(token) && storage.items == old(storage.items)
      ensures (old(storage.GetItem(MockModeKey)) != Some(Text("true"))
               && Truthy(old(storage.GetItem(TokenKey))) && Truthy(old(storage.GetItem(UserKey)))) ==>
        var t := old(storage.items[TokenKey]);
        var u := old(storage.items[UserKey]);
        var claim := if t.Text? then decode(t.text) else Undecodable;
        if claim.Undecodable? || Expired(claim, now) then
          user == old(user) && token == old(token) && storage.items == old(storage.items) - {TokenKey, UserKey}
        else if u.UserJson? then
          user == Some(u.user) && token == Some(t.text) && storage.items == old(storage.items)
        else
          user == old(user) && token == Some(t.text) && storage.items == old(storage.items) - {TokenKey, UserKey}
      // a readable token with a readable user stays stored exactly when it has not expired
      ensures (old(storage.GetItem(MockModeKey)) != Some(Text("true"))
               && Truthy(old(storage.GetItem(TokenKey))) && Truthy(old(storage.GetItem(UserKey)))
               && old(storage.items[TokenKey]).Text? && !decode(old(storage.items[TokenKey]).text).Undecodable?
               && old(storage.items[UserKey]).UserJson?) ==>
        (TokenKey in storage.items <==> !Expired(decode(old(storage.items[TokenKey]).text), now))
        && (UserKey in storage.items <==> !Expired(decode(old(storage.items[TokenKey]).text), now))
    {
      if storage.GetItem(MockModeKey) == Some(Text("true")) {
        isMockMode := true;
        token := Some(MockData.MockToken);
        user := Some(MockData.MockUser(loadedAt));
        isLoading := false;
        return;
      }
      var storedToken := storage.GetItem(TokenKey);
      var storedUser := storage.GetItem(UserKey);
      if Truthy(storedToken) && Truthy(storedUser) {
        var t := storedToken.value;
        var claim := if t.Text? then decode(t.text) else Undecodable;
        if claim.Undecodable? {
          // the decode throws: the catch clears both keys
          storage.RemoveItem(TokenKey);
          storage.RemoveItem(UserKey);
        } else if !Expired(claim, now) {
          token := Some(t.text);
          var u := storedUser.value;
          if u.UserJson? {
            user := Some(u.user);
          } else {
            // the user fails to parse after the token was set: the catch clears both keys
            storage.RemoveItem(TokenKey);
            storage.RemoveItem(UserKey);
          }
        } else {
          storage.RemoveItem(TokenKey);
          storage.RemoveItem(UserKey);
        }
      }
      isLoading := false;
    }

    /**
     * What `login` and `register` do with the request's outcome: on an answer,
     * the session and the two storage keys take its user and token and the
     * router goes to /dashboard; when the request throws, nothing changes and
     * the error propagates.
     */
    twostate predicate SignInOutcome(response: Result<AuthResponse, string>, new r: Result<(), string>)
      reads this, storage
    {
      && (response.Failure? ==>
            r == Failure(response.error) && user == old(user) && token == old(token)
            && redirect == old(redirect) && storage.items == old(storage.items))
      && (response.Success? ==>
            r.Success? && user == Some(response.value.user) && token == Some(response.value.token)
            && storage.items == old(storage.items)[TokenKey := Text(response.value.token)]
                                                  [UserKey := UserJson(response.value.user)]
            && redirect == Some("/dashboard"))
      && isMockMode == old(isMockMode) && isLoading == old(isLoading)
    }

    /** The common part of `login` and `register`, after the request: `response` is its answer, `Failure` when it throws. */
    method SignIn(response: Result<AuthResponse, string>) returns (r: Result<(), string>)
      modifies this, storage
      ensures SignInOutcome(response, r)
    {
      if response.Failure? {
        return Failure(response.error);
      }
      var res := response.value;
      user := Some(res.user);
      token := Some(res.token);
      storage.SetItem(TokenKey, Text(res.token));
      storage.SetItem(UserKey, UserJson(res.user));
      redirect := Some("/dashboard");
      return Success(());
    }

    /** `login`, after `authApi.login`. */
    method Login(response: Result<AuthResponse, string>) returns (r: Result<(), string>)
      modifies this, storage
      ensures SignInOutcome(response, r)
    {
      r := SignIn(response);
    }

    /** `register`, after `authApi.register`. */
    method Register(response: Result<AuthResponse, string>) returns (r: Result<(), string>)
      modifies this, storage
      ensures SignInOutcome(response, r)
    {
      r := SignIn(response);
    }

    method LoginAsDeveloper()
      modifies this, storage
      ensures isMockMode && user == Some(MockData.MockUser(loadedAt)) && token == Some(MockData.MockToken)
      ensures storage.items == old(storage.items)[MockData.MockStorageKey := AnimalsJson(MockData.InitialAnimals())]
                                                 [MockData.MockUserKey := UserJson(MockData.MockUser(loadedAt))]
                                                 [MockModeKey := Text("true")]
      ensures redirect == Some("/dashboard") && isLoading == old(isLoading)
      ensures IsAuthenticated()
    {
      MockData.InitMockData(storage, loadedAt);
      isMockMode := true;
      user := Some(MockData.MockUser(loadedAt));
      token := Some(MockData.MockToken);
      storage.SetItem(MockModeKey, Text("true"));
      redirect := Some("/dashboard");
    }

    method Logout()
      modifies this, storage
      ensures user.None? && token.None? && !isMockMode && !IsAuthenticated()
      ensures old(isMockMode) ==>
        storage.items == old(storage.items) - {MockData.MockStorageKey, MockData.MockUserKey, MockModeKey, TokenKey, UserKey}
      ensures !old(isMockMode) ==> storage.items == old(storage.items) - {TokenKey, UserKey}
      ensures redirect == Some("/login") && isLoading == old(isLoading)
    {
      if isMockMode {
        MockData.ClearMockData(storage);
        storage.RemoveItem(MockModeKey);
        isMockMode := false;
      }
      user := None;
      token := None;
      storage.RemoveItem(TokenKey);
      storage.RemoveItem(UserKey);
      redirect := Some("/login");
    }

    method UpdateUser(u: User)
      modifies this, storage
      ensures user == Some(u) && token == old(token) && isMockMode == old(isMockMode)
      ensures isLoading == old(isLoading) && redirect == old(redirect)
      ensures storage.items == old(storage.items)[UserKey := UserJson(u)]
    {
      user := Some(u);
      storage.SetItem(UserKey, UserJson(u));
    }
  }
}
