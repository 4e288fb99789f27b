/** The session store (stores/auth.ts): `token`, `user` and `isLoading`, mirrored into
    localStorage under 'auth-token', 'auth_token' and 'user_data'. Each network call is taken
    as the response record the client produced for it. */
module AuthStore {
  import opened Js
  import ApiClient

  const TOKEN_KEY := "auth-token"
  const LEGACY_TOKEN_KEY := "auth_token"
  const USER_KEY := "user_data"
  const USER_FIELDS: seq<string> := ["id", "username", "email", "is_admin", "last_login"]
  const LOGIN_FAILED := "Login failed"
  const PROFILE_FAILED := "Failed to get profile"
  const LOGIN_PATH := "/login"

  /** localStorage: string keys to string values. */
  type Storage = map<string, string>

  /** Where a navigation guard or action sends the browser. */
  datatype Navigation = Continue | Redirect(to: string)

  /** `isAuthenticated`: `!!token && !!user`. Neither may be null or undefined, and a string
      token must be non-empty. */
  predicate IsAuthenticated(token: Value, user: Value)
    ensures IsAuthenticated(token, user) ==> !IsNullish(token) && !IsNullish(user)
    ensures token.Str? ==> (IsAuthenticated(token, user) <==> token.s != "" && Truthy(user))
  {
    Truthy(token) && Truthy(user)
  }

  /** `isAdmin`: `user?.is_admin || false`. */
  function IsAdmin(user: Value): (r: Value)
    ensures Truthy(r) <==> Truthy(OptionalProp(user, "is_admin"))
    ensures Truthy(r) ==> r == OptionalProp(user, "is_admin")
    ensures !Truthy(r) ==> r == Bool(false)
    ensures IsNullish(user) ==> r == Bool(false)
  {
    Or(OptionalProp(user, "is_admin"), Bool(false))
  }

  /** The record setAuth serializes under 'user_data': the five user fields and nothing else. */
  function CleanUser(user: Value): Value {
    Obj(map[
      "id" := OptionalProp(user, "id"),
      "username" := OptionalProp(user, "username"),
      "email" := OptionalProp(user, "email"),
      "is_admin" := OptionalProp(user, "is_admin"),
      "last_login" := OptionalProp(user, "last_login")])
  }

  /** Every key other than the three session keys keeps its presence and its value. */
  ghost predicate OnlySessionKeysChanged(before: Storage, after: Storage) {
    forall k :: k != TOKEN_KEY && k != LEGACY_TOKEN_KEY && k != USER_KEY ==>
      (k in after <==> k in before) && (k in before ==> after[k] == before[k])
  }

  datatype Persisted = Persisted(storage: Storage, failure: Option<Exception>)

  /** The localStorage writes of setAuth on the client. Both token keys get `String(token)`;
      for a null or undefined user the read of `userData.id` throws (in the record and again
      in the fallback record) before 'user_data' is written. */
  function PersistSession(storage: Storage, token: Value, user: Value, json: Json): (p: Persisted)
    ensures TOKEN_KEY in p.storage && LEGACY_TOKEN_KEY in p.storage
    ensures p.storage[TOKEN_KEY] == ToJsString(token) && p.storage[LEGACY_TOKEN_KEY] == ToJsString(token)
    ensures p.failure.Some? <==> IsNullish(user)
    ensures p.failure.Some? ==> p.failure.value == ReadError(user, "id")
    ensures p.failure.Some? ==>
      (USER_KEY in p.storage <==> USER_KEY in storage) && (USER_KEY in storage ==> p.storage[USER_KEY] == storage[USER_KEY])
    ensures p.failure.None? ==> USER_KEY in p.storage && p.storage[USER_KEY] == json.stringify(CleanUser(user))
    ensures OnlySessionKeysChanged(storage, p.storage)
  {
    var withToken := storage[TOKEN_KEY := ToJsString(token)][LEGACY_TOKEN_KEY := ToJsString(token)];
    if IsNullish(user) then Persisted(withToken, Some(ReadError(user, "id")))
    else Persisted(withToken[USER_KEY := json.stringify(CleanUser(user))], None)
  }

  /** The localStorage removals of clearAuth: exactly the three session keys go. */
  function ClearSession(storage: Storage): (s: Storage)
    ensures TOKEN_KEY !in s && LEGACY_TOKEN_KEY !in s && USER_KEY !in s
    ensures OnlySessionKeysChanged(storage, s)
  {
    storage - {TOKEN_KEY, LEGACY_TOKEN_KEY, USER_KEY}
  }

  /** What initializeAuth finds: both 'auth_token' and 'user_data' must be non-empty. */
  datatype StoredSession = NotStored | Unparsable | Stored(token: string, user: Value)

  function ReadSession(storage: Storage, json: Json): StoredSession {
    if LEGACY_TOKEN_KEY in storage && storage[LEGACY_TOKEN_KEY] != "" && USER_KEY in storage && storage[USER_KEY] != "" then
      match json.parse(storage[USER_KEY])
      case None => Unparsable
      case Some(u) => Stored(storage[LEGACY_TOKEN_KEY], u)
    else NotStored
  }

  datatype SessionState = SessionState(token: Value, user: Value, storage: Storage)

  /** initializeAuth on the client: nothing changes unless both keys are present; a parse
      failure, or a stored user that setAuth cannot read, clears the session; otherwise the
      stored token and user are set again through setAuth. */
  function Initialized(s: SessionState, json: Json): (r: SessionState)
    ensures ReadSession(s.storage, json).NotStored? ==> r == s
    ensures ReadSession(s.storage, json).Unparsable? ==> r == SessionState(Null, Null, ClearSession(s.storage))
    ensures ReadSession(s.storage, json).Stored? ==>
      var stored := ReadSession(s.storage, json);
      if IsNullish(stored.user) then r == SessionState(Null, Null, ClearSession(s.storage))
      else r == SessionState(Str(stored.token), stored.user, PersistSession(s.storage, Str(stored.token), stored.user, json).storage)
  {
    match ReadSession(s.storage, json)
    case NotStored => s
    case Unparsable => SessionState(Null, Null, ClearSession(s.storage))
    case Stored(t, u) =>
      var p := PersistSession(s.storage, Str(t), u, json);
      if p.failure.Some? then
        ClearAfterPersist(s.storage, Str(t), u, json);
        SessionState(Null, Null, ClearSession(p.storage))
      else SessionState(Str(t), u, p.storage)
  }

  /** `response.success && response.data`. */
  predicate Carries(response: ApiClient.ApiResponse) {
    response.success && Truthy(response.data)
  }

  /** The client's token getter (composables/useApi.ts): 'auth-token' on the client, null on
      the server. */
  function ClientToken(client: bool, storage: Storage): (t: Option<string>)
    ensures t.Some? <==> client && TOKEN_KEY in storage
    ensures t.Some? ==> t.value == storage[TOKEN_KEY]
  {
    if client && TOKEN_KEY in storage then Some(storage[TOKEN_KEY]) else None
  }

  // Properties of the storage mirror

  /** Clearing after a (possibly failed) setAuth leaves what clearing alone leaves. */
  lemma ClearAfterPersist(storage: Storage, token: Value, user: Value, json: Json)
    ensures ClearSession(PersistSession(storage, token, user, json).storage) == ClearSession(storage)
  {
    var a := ClearSession(PersistSession(storage, token, user, json).storage);
    var b := ClearSession(storage);
    assert forall k :: k in a <==> k in b;
  }

  /** Clearing twice is clearing once, so a second logout finds nothing left to remove. */
  lemma ClearSessionIdempotent(storage: Storage)
    ensures ClearSession(ClearSession(storage)) == ClearSession(storage)
  {
  }

  /** What setAuth stores, initializeAuth reads back: the same token and the JSON image of
      the five-field user record. */
  lemma ReadAfterPersist(storage: Storage, t: string, user: Value, json: Json)
    requires Faithful(json) && t != "" && !IsNullish(user)
    ensures ReadSession(PersistSession(storage, Str(t), user, json).storage, json) == Stored(t, JsonNormal(CleanUser(user)))
  {
    var clean := CleanUser(user);
    assert json.stringify(clean) != "" && json.parse(json.stringify(clean)) == Some(JsonNormal(clean));
  }

  /** The restored user holds the five stored fields as they were (after the JSON round trip)
      and no other field. */
  lemma RestoredUserFields(user: Value, key: string)
    requires !IsNullish(user)
    ensures key in USER_FIELDS ==> OptionalProp(JsonNormal(CleanUser(user)), key) == JsonNormal(OptionalProp(user, key))
    ensures key !in USER_FIELDS ==> OptionalProp(JsonNormal(CleanUser(user)), key) == Undefined
  {
  }

  /** setAuth followed by initializeAuth on a fresh store restores the token and the stored
      user, and the restored store is authenticated. */
  lemma InitializeRestoresPersisted(storage: Storage, t: string, user: Value, json: Json)
    requires Faithful(json) && t != "" && !IsNullish(user)
    ensures var persisted := PersistSession(storage, Str(t), user, json).storage;
      var restored := Initialized(SessionState(Null, Null, persisted), json);
      && restored.token == Str(t)
      && restored.user == JsonNormal(CleanUser(user))
      && IsAuthenticated(restored.token, restored.user)
  {
    ReadAfterPersist(storage, t, user, json);
  }

  /** Stored data that is missing or cannot be used never leaves a half-restored session:
      initializeAuth either changes nothing, or ends with an authenticated-shaped token and
      user, or clears token, user and the three keys. */
  lemma InitializeAllOrNothing(s: SessionState, json: Json)
    ensures var r := Initialized(s, json);
      || r == s
      || (r.token == Null && r.user == Null && r.storage == ClearSession(s.storage))
      || (Truthy(r.token) && !IsNullish(r.user))
  {
    match ReadSession(s.storage, json)
    case NotStored =>
    case Unparsable =>
    case Stored(t, u) =>
      ClearAfterPersist(s.storage, Str(t), u, json);
  }

  /** After setAuth with a non-empty token, every JSON request carries `Token <t>`. */
  lemma AuthorizationAfterSetAuth(storage: Storage, t: string, user: Value, json: Json, callerHeaders: map<string, string>)
    requires t != ""
    ensures var h := ApiClient.JsonHeaders(ClientToken(true, PersistSession(storage, Str(t), user, json).storage), callerHeaders);
      ApiClient.AUTHORIZATION in h && h[ApiClient.AUTHORIZATION] == "Token " + t
  {
  }

  /** After clearAuth, uploads carry no Authorization header. */
  lemma NoAuthorizationAfterClear(client: bool, storage: Storage)
    ensures ApiClient.AUTHORIZATION !in ApiClient.UploadHeaders(ClientToken(client, ClearSession(storage)))
  {
  }

  /** The Pinia store. */
  class Store {
    const client: bool
    const json: Json
    var token: Value
    var user: Value
    var isLoading: bool
    var storage: Storage

    function Session(): SessionState
      reads this
    {
      SessionState(token, user, storage)
    }

    /** The store as it is first created: empty state, then initializeAuth on the client. */
    constructor(client: bool, json: Json, storage: Storage)
      ensures this.client == client && this.json == json && !isLoading
      ensures Session() == if client then Initialized(SessionState(Null, Null, storage), json)
                           else SessionState(Null, Null, storage)
    {
      this.client := client;
      this.json := json;
      token := Null;
      user := Null;
      isLoading := false;
      this.storage := storage;
      new;
      if client {
        InitializeAuth();
      }
    }

    method SetAuth(authToken: Value, userData: Value) returns (outcome: Outcome<()>)
      modifies this
      ensures token == authToken && user == userData && isLoading == old(isLoading)
      ensures storage == if client then PersistSession(old(storage), authToken, userData, json).storage else old(storage)
      ensures outcome.Threw? <==> client && IsNullish(userData)
      ensures outcome.Threw? ==> outcome.exc == ReadError(userData, "id")
    {
      token := authToken;
      user := userData;
      outcome := Returned(());
      if client {
        storage := storage[TOKEN_KEY := ToJsString(authToken)];
        storage := storage[LEGACY_TOKEN_KEY := ToJsString(authToken)];
        if IsNullish(userData) {
          outcome := Threw(ReadError(userData, "id"));
        } else {
          storage := storage[USER_KEY := json.stringify(CleanUser(userData))];
        }
      }
    }

    method ClearAuth()
      modifies this
      ensures token == Null && user == Null && isLoading == old(isLoading)
      ensures storage == if client then ClearSession(old(storage)) else old(storage)
    {
      token := Null;
      user := Null;
      if client {
        storage := storage - {TOKEN_KEY};
        storage := storage - {LEGACY_TOKEN_KEY};
        storage := storage - {USER_KEY};
      }
    }

    /** login, given the response to POST /api/auth/login/. */
    method Login(response: ApiClient.ApiResponse) returns (result: Outcome<Value>)
      modifies this
      ensures !isLoading
      ensures result.Returned? <==> Carries(response) && !(client && IsNullish(OptionalProp(response.data, "user")))
      ensures result.Returned? ==>
        && result.value == response.data
        && token == OptionalProp(response.data, "token") && user == OptionalProp(response.data, "user")
        && storage == if client then PersistSession(old(storage), token, user, json).storage else old(storage)
      ensures result.Threw? ==>
        token == Null && user == Null && storage == if client then ClearSession(old(storage)) else old(storage)
      ensures !Carries(response) ==> result == Threw(ApiClient.FailureError(response, LOGIN_FAILED))
      ensures Carries(response) && result.Threw? ==>
        result.exc == ReadError(OptionalProp(response.data, "user"), "id")
    {
      isLoading := true;
      if Carries(response) {
        var data := response.data;
        var saved := SetAuth(OptionalProp(data, "token"), OptionalProp(data, "user"));
        if saved.Threw? {
          ClearAuth();
          ClearAfterPersist(old(storage), OptionalProp(data, "token"), OptionalProp(data, "user"), json);
          result := Threw(saved.exc);
        } else {
          result := Returned(data);
        }
      } else {
        ClearAuth();
        result := Threw(ApiClient.FailureError(response, LOGIN_FAILED));
      }
      isLoading := false;
    }

    /** logout: POST /api/auth/logout/ only while a token is held (its result is ignored),
        then clear, then go to the login page on the client. */
    method Logout() returns (contactedServer: bool, navigation: Navigation)
      modifies this
      ensures contactedServer == Truthy(old(token))
      ensures token == Null && user == Null && !isLoading
      ensures storage == if client then ClearSession(old(storage)) else old(storage)
      ensures navigation == if client then Redirect(LOGIN_PATH) else Continue
    {
      isLoading := true;
      contactedServer := Truthy(token);
      ClearAuth();
      isLoading := false;
      navigation := if client then Redirect(LOGIN_PATH) else Continue;
    }

    /** getProfile, given the response to GET /api/auth/me/. */
    method GetProfile(response: ApiClient.ApiResponse) returns (result: Outcome<Value>)
      modifies this
      ensures !Truthy(old(token)) ==>
        result == Returned(Null) && Session() == old(Session()) && isLoading == old(isLoading)
      ensures Truthy(old(token)) ==> !isLoading
      ensures Truthy(old(token)) && Carries(response) ==>
        && result == Returned(OptionalProp(response.data, "user"))
        && token == old(token) && user == OptionalProp(response.data, "user") && storage == old(storage)
      ensures Truthy(old(token)) && !Carries(response) ==>
        && result == Threw(ApiClient.FailureError(response, PROFILE_FAILED))
        && token == Null && user == Null && storage == if client then ClearSession(old(storage)) else old(storage)
    {
      if !Truthy(token) {
        return Returned(Null);
      }
      isLoading := true;
      if Carries(response) {
        user := OptionalProp(response.data, "user");
        result := Returned(user);
      } else {
        ClearAuth();
        result := Threw(ApiClient.FailureError(response, PROFILE_FAILED));
      }
      isLoading := false;
    }

    method InitializeAuth()
      modifies this
      ensures isLoading == old(isLoading)
      ensures Session() == if client then Initialized(old(Session()), json) else old(Session())
    {
      if client {
        var stored := ReadSession(storage, json);
        match stored
        case NotStored =>
        case Unparsable =>
          ClearAuth();
        case Stored(t, u) =>
          var saved := SetAuth(Str(t), u);
          if saved.Threw? {
            ClearAuth();
          }
      }
    }
  }
}
