/** The default route middleware of middleware/auth.ts: pages behind it need a signed-in user,
    and everyone else is sent to the login page with the page they asked for. */
module AuthMiddleware {
  import opened Js
  import opened AuthStore

  const REDIRECT_QUERY := "?redirect="

  /** What one run of the guard did: whether it yielded once for store hydration, whether it
      refreshed the profile, and where it sent the browser. */
  datatype GuardRun = GuardRun(waited: bool, refreshedProfile: bool, navigation: Navigation)

  /** `localStorage.getItem('auth_token') && localStorage.getItem('user_data')`. */
  predicate HydrationPending(storage: Storage) {
    && LEGACY_TOKEN_KEY in storage && storage[LEGACY_TOKEN_KEY] != ""
    && USER_KEY in storage && storage[USER_KEY] != ""
  }

  /** `/login?redirect=${encodeURIComponent(fullPath || '/')}`. */
  function LoginRedirect(fullPath: string, encode: string -> string): string {
    LOGIN_PATH + REDIRECT_QUERY + encode(if fullPath == "" then "/" else fullPath)
  }

  /** The store the second check reads: after the yield when the guard waited. */
  function Checked(before: SessionState, afterYield: SessionState): SessionState {
    if !IsAuthenticated(before.token, before.user) && HydrationPending(before.storage) then afterYield else before
  }

  /** One run of the guard. `before` is the store when the guard starts, `afterYield` the store
      after the zero-delay timeout, `encode` is `encodeURIComponent`, and `profile` how
      `getProfile` would complete. */
  function Guard(server: bool, before: SessionState, afterYield: SessionState, fullPath: string,
                 encode: string -> string, profile: Outcome<Value>): (run: GuardRun)
    ensures server ==> run == GuardRun(false, false, Continue)
    ensures !server ==>
      (run.waited <==> !IsAuthenticated(before.token, before.user) && HydrationPending(before.storage))
    ensures run.navigation.Redirect? ==> run.navigation.to == LoginRedirect(fullPath, encode)
  {
    if server then GuardRun(false, false, Continue)
    else
      var waited := !IsAuthenticated(before.token, before.user) && HydrationPending(before.storage);
      var now := if waited then afterYield else before;
      if !IsAuthenticated(now.token, now.user) then
        GuardRun(waited, false, Redirect(LoginRedirect(fullPath, encode)))
      else if Truthy(now.token) && !Truthy(now.user) then
        GuardRun(waited, true, if profile.Threw? then Redirect(LoginRedirect(fullPath, encode)) else Continue)
      else
        GuardRun(waited, false, Continue)
  }

  /** On the client the guard lets the visitor through exactly when the store it checks is
      authenticated. The profile refresh is never reached: passing the authentication check
      already requires a user. */
  lemma GuardDecision(before: SessionState, afterYield: SessionState, fullPath: string,
                      encode: string -> string, profile: Outcome<Value>)
    ensures var run := Guard(false, before, afterYield, fullPath, encode, profile);
      && !run.refreshedProfile
      && (run.navigation == Continue <==> IsAuthenticated(Checked(before, afterYield).token, Checked(before, afterYield).user))
  {
  }

  /** An authenticated visitor passes at once: no yield and no redirect. */
  lemma AuthenticatedPassesAtOnce(before: SessionState, afterYield: SessionState, fullPath: string,
                                  encode: string -> string, profile: Outcome<Value>)
    requires IsAuthenticated(before.token, before.user)
    ensures Guard(false, before, afterYield, fullPath, encode, profile) == GuardRun(false, false, Continue)
  {
  }

  /** The guard yields for hydration exactly when initializeAuth would find a session to read. */
  lemma WaitsOnlyForStoredSession(storage: Storage, json: Json)
    ensures HydrationPending(storage) <==> !ReadSession(storage, json).NotStored?
  {
  }

  /** On first load after a setAuth, a fresh store that hydrates during the yield lets the
      visitor through. */
  lemma PersistedSessionPassesAfterHydration(storage: Storage, t: string, user: Value, json: Json,
                                              fullPath: string, encode: string -> string, profile: Outcome<Value>)
    requires Faithful(json) && t != "" && !IsNullish(user)
    ensures var cold := SessionState(Null, Null, PersistSession(storage, Str(t), user, json).storage);
      var run := Guard(false, cold, Initialized(cold, json), fullPath, encode, profile);
      run.waited && run.navigation == Continue
  {
    var persisted := PersistSession(storage, Str(t), user, json).storage;
    InitializeRestoresPersisted(storage, t, user, json);
    ReadAfterPersist(storage, t, user, json);
    assert HydrationPending(persisted);
  }
}
