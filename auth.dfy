/**
 * AuthProvider: the session state (`token`, `initializing`) together with
 * the persistent store it writes. Every operation that touches the store
 * takes the outcome of that storage call as a parameter (None: it
 * succeeded; Some(e): it threw `e`), and every network call takes the reply
 * fetch settled with and what JSON.parse gives for the body.
 */
module Auth {
  import opened Wrappers
  import opened JsValues
  import opened Storage
  import opened Api

  const SignInPath: string := "/auth/signin"
  const SignUpPath: string := "/auth/signup"
  const NoTokenMessage: string := "No token returned from server"

  /** The options signIn and signUp pass: a POST of the serialised credentials, no headers. */
  function PostJson(body: string): Options {
    Options(Some("POST"), Some(body), None)
  }

  /**
   * The in-memory token agrees with the stored one: a truthy token is
   * stored as its string form, and without one the store holds nothing
   * truthy.
   */
  predicate Synced(token: Json, store: Store) {
    if Truthy(token) then GetTokenFromStorage(store) == Some(JsString(token))
    else !Truthy(AsJson(GetTokenFromStorage(store)))
  }

  /**
   * While the two agree, authFetch attaches a bearer token exactly when the
   * session is signed in, and that bearer is the in-memory token.
   */
  lemma SyncedBearerMatchesSignedIn(token: Json, store: Store, baseUrl: string, path: string,
                                    options: Options, reply: Result<Response>, parsed: Option<Json>)
    requires Synced(token, store) && (Truthy(token) ==> JsString(token) != "")
    requires Authorization !in options.headers.GetOr(map[])
    ensures var h := AuthFetch(store, None, baseUrl, path, options, reply, parsed).sent.value.headers;
      (Authorization in h <==> Truthy(token)) &&
      (Truthy(token) ==> h[Authorization] == "Bearer " + JsString(token))
  {
  }

  /**
   * A truthy array token (say `data.token = []`) is stored as its empty
   * string form: the session counts as signed in, the store agrees with it,
   * and yet authFetch sends no bearer.
   */
  lemma ArrayTokenSignedInWithoutBearer(baseUrl: string, path: string, reply: Result<Response>, parsed: Option<Json>)
    ensures var token, store := JArr([]), SetTokenInStorage(map[], JArr([]));
      var h := AuthFetch(store, None, baseUrl, path, Options(None, None, None), reply, parsed).sent.value.headers;
      Truthy(token) && Synced(token, store) && Authorization !in h
  {
    assert JsString(JArr([])) == "";
  }

  class AuthProvider {
    var token: Json
    var initializing: bool
    var store: Store

    /** A fresh provider: no token yet, still initializing, over whatever the store holds from earlier runs. */
    constructor (persisted: Store)
      ensures token == JNull && initializing && store == persisted
    {
      token := JNull;
      initializing := true;
      store := persisted;
    }

    /** `isSignedIn: !!token`. */
    function IsSignedIn(): (b: bool)
      reads this
      ensures b <==> !(token == JNull || token == JStr("") || token == JBool(false) || token == JNum(0))
    {
      Truthy(token)
    }

    /**
     * The mount effect: read the stored token and adopt it; whether the
     * read succeeds or throws, `initializing` ends false. A failed read
     * leaves the token as it was and rejects with the storage error.
     */
    method Load(readFault: Option<string>) returns (r: Result<()>)
      modifies this
      ensures !initializing && store == old(store)
      ensures readFault.None? ==> r == Success(()) && token == AsJson(GetTokenFromStorage(store))
      ensures readFault.None? ==> Synced(token, store)
      ensures readFault.Some? ==> r == Failure(readFault.value) && token == old(token)
    {
      if readFault.None? {
        var saved := GetTokenFromStorage(store);
        token := AsJson(saved);
        r := Success(());
      } else {
        r := Failure(readFault.value);
      }
      initializing := false;
    }

    /**
     * signIn: POST the credentials; fail without any change when the
     * request fails, when the payload has no truthy `token`, or when
     * writing it to the store throws; otherwise write the store first, then
     * adopt `data.token`, and resolve with the whole payload.
     */
    method SignIn(baseUrl: string, credentials: string, reply: Result<Response>, parsed: Option<Json>,
                  writeFault: Option<string>)
      returns (sent: FetchRequest, r: Result<Json>)
      modifies this
      ensures sent == BuildRequest(baseUrl, SignInPath, PostJson(credentials))
      ensures initializing == old(initializing)
      ensures var call := RequestJson(baseUrl, SignInPath, PostJson(credentials), reply, parsed).result;
        && (call.Failure? ==> r == call)
        && (call.Success? && !Present(Field(call.value, "token")) ==> r == Failure(NoTokenMessage))
        && (call.Success? && Present(Field(call.value, "token")) && writeFault.Some? ==> r == Failure(writeFault.value))
        && (call.Success? && Present(Field(call.value, "token")) && writeFault.None? ==> r == call)
      ensures r.Failure? ==> token == old(token) && store == old(store)
      ensures r.Success? ==> token == Field(r.value, "token").value && Truthy(token)
      ensures r.Success? ==> store == SetTokenInStorage(old(store), token) && Synced(token, store)
      ensures old(Synced(token, store)) ==> Synced(token, store)
    {
      var call := RequestJson(baseUrl, SignInPath, PostJson(credentials), reply, parsed);
      sent := call.sent.value;
      if call.result.Failure? {
        return sent, call.result;
      }
      var data := call.result.value;
      var received := Field(data, "token");
      if !Present(received) {
        return sent, Failure(NoTokenMessage);
      }
      if writeFault.Some? {
        return sent, Failure(writeFault.value);
      }
      store := SetTokenInStorage(store, received.value);
      token := received.value;
      r := Success(data);
    }

    /**
     * signUp: POST the registration and settle as the request does; the
     * session state and the store are never touched.
     */
    method SignUp(baseUrl: string, registration: string, reply: Result<Response>, parsed: Option<Json>)
      returns (sent: FetchRequest, r: Result<()>)
      ensures sent == BuildRequest(baseUrl, SignUpPath, PostJson(registration))
      ensures var call := RequestJson(baseUrl, SignUpPath, PostJson(registration), reply, parsed).result;
        (r.Success? <==> call.Success?) && (call.Failure? ==> r.error == call.error)
    {
      var call := RequestJson(baseUrl, SignUpPath, PostJson(registration), reply, parsed);
      sent := call.sent.value;
      if call.result.Failure? {
        r := Failure(call.result.error);
      } else {
        r := Success(());
      }
    }

    /**
     * signOut: delete the stored token, then clear the in-memory one. A
     * delete that throws rejects before the token is cleared, so the
     * session stays as it was.
     */
    method SignOut(deleteFault: Option<string>) returns (r: Result<()>)
      modifies this
      ensures initializing == old(initializing)
      ensures deleteFault.Some? ==> r == Failure(deleteFault.value) && token == old(token) && store == old(store)
      ensures deleteFault.None? ==> r == Success(()) && token == JNull && !IsSignedIn()
      ensures deleteFault.None? ==> store == SetTokenInStorage(old(store), JNull) && TokenKey !in store
      ensures old(Synced(token, store)) ==> Synced(token, store)
    {
      if deleteFault.Some? {
        return Failure(deleteFault.value);
      }
      store := SetTokenInStorage(store, JNull);
      token := JNull;
      r := Success(());
    }
  }

  /** A start with nothing stored, a sign-in that returns a token, then a sign-out. */
  method SessionScenario(baseUrl: string, credentials: string)
  {
    var provider := new AuthProvider(map[]);
    assert !provider.IsSignedIn();
    var loaded := provider.Load(None);
    assert !provider.initializing && provider.token == JNull;

    var payload := JObj(map["token" := JStr("abc123")]);
    var sent, r := provider.SignIn(baseUrl, credentials, Success(Response(200, "{\"token\":\"abc123\"}")), Some(payload), None);
    assert sent.url == baseUrl + SignInPath;
    assert r == Success(payload);
    assert provider.token == JStr("abc123") && provider.IsSignedIn();
    assert provider.store[TokenKey] == "abc123";

    var out := provider.SignOut(None);
    assert provider.token == JNull && GetTokenFromStorage(provider.store) == None;
  }

  /**
   * A load whose read throws while the store holds a token leaves the two
   * out of step: the session is signed out, yet authFetch sends the stored
   * bearer.
   */
  method FailedLoadScenario(baseUrl: string, path: string, reply: Result<Response>, parsed: Option<Json>)
  {
    var provider := new AuthProvider(map[TokenKey := "t"]);
    var loaded := provider.Load(Some("read failed"));
    assert !provider.initializing && !provider.IsSignedIn();
    var h := AuthFetch(provider.store, None, baseUrl, path, Options(None, None, None), reply, parsed).sent.value.headers;
    assert h[Authorization] == "Bearer t";
  }

  /** A rejected sign-in leaves a signed-out session signed out and reports the server's message. */
  method RejectedSignInScenario(baseUrl: string, credentials: string)
  {
    var provider := new AuthProvider(map[]);
    var loaded := provider.Load(Some("storage unavailable"));
    assert !provider.initializing && !provider.IsSignedIn();

    var body := JObj(map["message" := JStr("Invalid email or password")]);
    var sent, r := provider.SignIn(baseUrl, credentials,
      Success(Response(401, "{\"message\":\"Invalid email or password\"}")), Some(body), None);
    assert r == Failure("Invalid email or password");
    assert provider.token == JNull && provider.store == map[];
  }
}
