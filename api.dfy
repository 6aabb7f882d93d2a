/**
 * The request layer: `requestJson` builds the fetch request, then turns the
 * response into either its parsed payload or an error message; `authFetch`
 * adds the stored bearer token first. The network, `res.text()` and
 * `JSON.parse` are inputs: `reply` is what fetch settled with and `parsed`
 * is what `JSON.parse` returns for the body text (None when it throws).
 */
module Api {
  import opened Wrappers
  import opened JsValues
  import opened Storage

  type Headers = map<string, string>

  const ContentType: string := "Content-Type"
  const ApplicationJson: string := "application/json"
  const Authorization: string := "Authorization"
  const DefaultBaseUrl: string := "http://localhost:9000"

  /** The `options` argument: only the keys the callers of this layer pass. */
  datatype Options = Options(httpMethod: Option<string>, body: Option<string>, headers: Option<Headers>)

  /** What is handed to fetch: the URL and the init object. */
  datatype FetchRequest = FetchRequest(url: string, httpMethod: Option<string>, body: Option<string>, headers: Headers)

  /** The part of a fetch Response that is read: its status and its body text. */
  datatype Response = Response(status: nat, text: string)

  /** One call of the layer: the request sent (None when none was) and how the returned promise settles. */
  datatype Call = Call(sent: Option<FetchRequest>, result: Result<Json>)

  /** getApiBaseUrl: the configured value when it is non-empty, else the local development host. */
  function ApiBaseUrl(configured: Option<string>): (url: string)
    ensures url != ""
    ensures configured.Some? && configured.value != "" ==> url == configured.value
    ensures (configured.None? || configured.value == "") ==> url == DefaultBaseUrl
  {
    if configured.Some? && configured.value != "" then configured.value else DefaultBaseUrl
  }

  /** `res.ok` of the Fetch standard: a status in the range 200 to 299. */
  predicate IsOk(status: nat) {
    200 <= status <= 299
  }

  /**
   * The headers of the init object `{ headers: { 'Content-Type': ..., ...(options.headers || {}) }, ...options }`:
   * the trailing spread of `options` replaces the merged object whenever
   * the caller supplied a `headers` key.
   */
  function FetchHeaders(supplied: Option<Headers>): (h: Headers)
    ensures supplied.Some? ==> h == supplied.value
    ensures supplied.None? ==> h == map[ContentType := ApplicationJson]
    ensures ContentType in h <==> supplied.None? || ContentType in supplied.value
  {
    var merged := map[ContentType := ApplicationJson] + supplied.GetOr(map[]);
    if supplied.Some? then supplied.value else merged
  }

  /** The request requestJson hands to fetch. */
  function BuildRequest(baseUrl: string, path: string, options: Options): (r: FetchRequest)
    ensures |r.url| == |baseUrl| + |path| && r.url[..|baseUrl|] == baseUrl && r.url[|baseUrl|..] == path
    ensures r.httpMethod == options.httpMethod && r.body == options.body
    ensures r.headers == FetchHeaders(options.headers)
  {
    FetchRequest(baseUrl + path, options.httpMethod, options.body, FetchHeaders(options.headers))
  }

  /** `maybeJson`: an empty body, or one JSON.parse rejects, gives null instead of an error. */
  function ParseBody(text: string, parsed: Option<Json>): (v: Json)
    ensures text == "" || parsed.None? ==> v == JNull
    ensures text != "" && parsed.Some? ==> v == parsed.value
  {
    if text != "" then parsed.GetOr(JNull) else JNull
  }

  function GenericFailure(status: nat): string {
    "Request failed (" + NatToString(status) + ")"
  }

  /** The generic message names the status exactly: different statuses give different messages. */
  lemma GenericFailureNamesStatus(a: nat, b: nat)
    requires GenericFailure(a) == GenericFailure(b)
    ensures a == b
  {
    var prefix := "Request failed (";
    var sa, sb := GenericFailure(a), GenericFailure(b);
    assert sa[|prefix|..|sa| - 1] == NatToString(a);
    assert sb[|prefix|..|sb| - 1] == NatToString(b);
    NatToStringInjective(a, b);
  }

  /**
   * The message of the error thrown for a non-ok response:
   * `(maybeJson && (maybeJson.message || maybeJson.error)) || text || generic`,
   * converted to a string by `new Error`.
   */
  function ErrorMessage(status: nat, text: string, parsed: Option<Json>): (m: string)
    ensures var body := ParseBody(text, parsed);
      Present(Field(body, "message")) ==> m == JsString(Field(body, "message").value)
    ensures var body := ParseBody(text, parsed);
      !Present(Field(body, "message")) && Present(Field(body, "error")) ==> m == JsString(Field(body, "error").value)
    ensures var body := ParseBody(text, parsed);
      !Present(Field(body, "message")) && !Present(Field(body, "error")) && text != "" ==> m == text
    ensures text == "" ==> m == GenericFailure(status)
  {
    var maybeJson := ParseBody(text, parsed);
    var fromBody := if Truthy(maybeJson) then Or(Field(maybeJson, "message"), Field(maybeJson, "error")) else Some(maybeJson);
    var chosen := Or(Or(fromBody, Some(JStr(text))), Some(JStr(GenericFailure(status))));
    JsString(chosen.value)
  }

  /** The message is never empty unless the body's chosen field is an array that prints as empty. */
  lemma ErrorMessageNonEmpty(status: nat, text: string, parsed: Option<Json>)
    requires var body := ParseBody(text, parsed);
      (Present(Field(body, "message")) ==> !Field(body, "message").value.JArr?) &&
      (!Present(Field(body, "message")) && Present(Field(body, "error")) ==> !Field(body, "error").value.JArr?)
    ensures ErrorMessage(status, text, parsed) != ""
  {
  }

  /** requestJson: the request it sends, and the payload it resolves with or the message it rejects with. */
  function RequestJson(baseUrl: string, path: string, options: Options, reply: Result<Response>, parsed: Option<Json>): (c: Call)
    ensures c.sent == Some(BuildRequest(baseUrl, path, options))
    ensures reply.Failure? ==> c.result == Failure(reply.error)
    ensures reply.Success? && IsOk(reply.value.status) ==> c.result == Success(ParseBody(reply.value.text, parsed))
    ensures reply.Success? && !IsOk(reply.value.status) ==>
      c.result == Failure(ErrorMessage(reply.value.status, reply.value.text, parsed))
  {
    var request := BuildRequest(baseUrl, path, options);
    match reply
    case Failure(e) => Call(Some(request), Failure(e))
    case Success(res) =>
      if !IsOk(res.status) then Call(Some(request), Failure(ErrorMessage(res.status, res.text, parsed)))
      else Call(Some(request), Success(ParseBody(res.text, parsed)))
  }

  /**
   * The headers authFetch passes: `{ ...(options.headers || {}), ...(token ? { Authorization: `Bearer ${token}` } : {}) }`.
   * A truthy stored token adds or overrides Authorization; every other caller header is kept.
   */
  function BearerHeaders(caller: Headers, stored: Option<string>): (h: Headers)
    ensures Truthy(AsJson(stored)) ==> Authorization in h && h[Authorization] == "Bearer " + stored.value
    ensures !Truthy(AsJson(stored)) ==> h == caller
    ensures forall k :: k != Authorization ==> (k in h <==> k in caller)
    ensures forall k :: k in caller && k != Authorization ==> h[k] == caller[k]
  {
    var bearer := if Truthy(AsJson(stored)) then map[Authorization := "Bearer " + stored.value] else map[];
    caller + bearer
  }

  /** The options authFetch hands to requestJson: the caller's, with the bearer-merged headers. */
  function AuthOptions(options: Options, stored: Option<string>): Options {
    options.(headers := Some(BearerHeaders(options.headers.GetOr(map[]), stored)))
  }

  /**
   * authFetch: reads the token from the store (rejecting with `readFault`
   * when the read throws), then calls requestJson. Because a `headers` key
   * is always passed, the sent headers are exactly the bearer-merged caller
   * headers, without the Content-Type default.
   */
  function AuthFetch(store: Store, readFault: Option<string>, baseUrl: string, path: string, options: Options,
                     reply: Result<Response>, parsed: Option<Json>): (c: Call)
    ensures readFault.Some? ==> c == Call(None, Failure(readFault.value))
    ensures readFault.None? ==> c.sent == Some(FetchRequest(baseUrl + path, options.httpMethod, options.body,
      BearerHeaders(options.headers.GetOr(map[]), GetTokenFromStorage(store))))
    ensures readFault.None? ==> c.result == RequestJson(baseUrl, path, options, reply, parsed).result
  {
    match readFault
    case Some(e) => Call(None, Failure(e))
    case None => RequestJson(baseUrl, path, AuthOptions(options, GetTokenFromStorage(store)), reply, parsed)
  }

  /**
   * Bearer attachment: the sent request carries Authorization exactly when
   * the stored token is truthy or the caller set one, and with a truthy
   * token its value is `Bearer <token>` whatever the caller set.
   */
  lemma BearerAttachedIffToken(store: Store, baseUrl: string, path: string, options: Options,
                               reply: Result<Response>, parsed: Option<Json>)
    ensures var c := AuthFetch(store, None, baseUrl, path, options, reply, parsed);
      var token := GetTokenFromStorage(store);
      var h := c.sent.value.headers;
      && (Authorization in h <==> Truthy(AsJson(token)) || Authorization in options.headers.GetOr(map[]))
      && (Truthy(AsJson(token)) ==> h[Authorization] == "Bearer " + token.value)
  {
  }

  /** authFetch never supplies the JSON Content-Type itself: it is sent only when the caller set it. */
  lemma AuthFetchContentTypeOnlyFromCaller(store: Store, baseUrl: string, path: string, options: Options,
                                           reply: Result<Response>, parsed: Option<Json>)
    ensures var h := AuthFetch(store, None, baseUrl, path, options, reply, parsed).sent.value.headers;
      var caller := options.headers.GetOr(map[]);
      (ContentType in h <==> ContentType in caller) &&
      (ContentType in caller ==> h[ContentType] == caller[ContentType])
  {
  }

  /** Error-message priority on concrete responses. */
  lemma ErrorMessageExamples()
    ensures ErrorMessage(401, "{\"message\":\"bad creds\"}", Some(JObj(map["message" := JStr("bad creds")]))) == "bad creds"
    ensures ErrorMessage(400, "{\"error\":\"x\"}", Some(JObj(map["error" := JStr("x")]))) == "x"
    ensures ErrorMessage(400, "{\"message\":\"\",\"error\":\"x\"}",
                         Some(JObj(map["message" := JStr(""), "error" := JStr("x")]))) == "x"
    ensures ErrorMessage(500, "oops", None) == "oops"
    ensures ErrorMessage(500, "", None) == "Request failed (500)"
  {
    assert NatToString(500) == "500" by {
      assert NatToString(5) == "5";
      assert NatToString(50) == "50";
    }
  }
}
