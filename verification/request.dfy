/** One authenticated call to the Function App: the URL, the bearer header, the
    request handed to the HTTP transport, and what comes back to the caller.
    The transport is an oracle from a request to a response or a raised
    transport error; every call returns the requests it handed to the
    transport, so "never sent" is the empty log.
 */
module Request {
  import opened Wrappers
  import opened Config
  import opened TokenCache

  const AuthorizationKey := "Authorization"
  const ContentTypeKey := "Content-Type"
  const JsonContentType := "application/json"
  const BearerPrefix := "Bearer "

  /** The default request timeout, in seconds. */
  const DefaultTimeoutSeconds := 30

  type Headers = map<string, string>
  type Params = map<string, string>

  /** A JSON document, as handed to the transport for serialisation. */
  datatype JsonValue =
    | JNull
    | JBool(b: bool)
    | JNumber(n: int)
    | JString(s: string)
    | JArray(items: seq<JsonValue>)
    | JObject(members: map<string, JsonValue>)

  datatype HttpRequest = HttpRequest(httpMethod: string, url: string, headers: Headers,
                                     params: Params, json: Option<JsonValue>, timeout: int)

  datatype Response = Response(status: int, text: string)

  /** The transport's own exception kinds, as the HTTP library raises them. */
  datatype TransportError =
    | Timeout(message: string)
    | ConnectionError(message: string)
    | OtherRequestError(message: string)

  datatype TransportOutcome = Delivered(response: Response) | Raised(error: TransportError)

  type Transport = HttpRequest -> TransportOutcome

  /** What a request can raise to its caller: the credential source's error (before
      anything is sent), the transport's error, or the error-status response itself. */
  datatype RequestFailure =
    | AuthFailure(credentialError: CredentialError)
    | TransportFailure(transportError: TransportError)
    | HttpStatusFailure(response: Response)

  /** The client object: its immutable configuration and its token slot. */
  datatype Client = Client(config: ClientConfig, cache: Option<AccessToken>)

  /** The client's constructor: the derived configuration and an empty token slot. */
  function NewClient(env: Option<string>, localBase: Option<string>, azureBase: Option<string>,
                     clientId: Option<string>): (c: Client)
    ensures c.cache == None
    ensures c.config == Configure(env, localBase, azureBase, clientId)
  {
    Client(Configure(env, localBase, azureBase, clientId), None)
  }

  // ---------------------------------------------------------------- URL

  /** The absolute URL: base, one slash, endpoint, with no normalisation, so a
      base ending in '/' or an endpoint starting with '/' yields "//" at the seam. */
  function JoinUrl(base: Option<string>, endpoint: string): (url: string)
    ensures EndpointOf(base, url) == Some(endpoint)
    ensures |url| == |Interpolate(base)| + 1 + |endpoint|
    ensures url[|Interpolate(base)|] == '/'
    ensures EndsWithSlash(Interpolate(base)) ==> url[|Interpolate(base)| - 1] == '/'
    ensures |endpoint| > 0 && endpoint[0] == '/' ==> url[|Interpolate(base)| + 1] == '/'
  {
    var b := Interpolate(base);
    var u := b + "/" + endpoint;
    assert u[..|b| + 1] == b + "/";
    assert u[|b| + 1..] == endpoint;
    u
  }

  predicate EndsWithSlash(s: string)
  {
    |s| > 0 && s[|s| - 1] == '/'
  }

  /** Reads the endpoint back out of a URL built on the given base. */
  function EndpointOf(base: Option<string>, url: string): (endpoint: Option<string>)
    ensures endpoint.Some? ==> url == Interpolate(base) + "/" + endpoint.value
  {
    var b := Interpolate(base);
    if |b| + 1 <= |url| && url[..|b| + 1] == b + "/" then
      assert url == url[..|b| + 1] + url[|b| + 1..];
      Some(url[|b| + 1..])
    else None
  }

  /** Query parameters default to the empty mapping when none are given. */
  function ParamsOrEmpty(params: Option<Params>): Params
  {
    match params
    case Some(p) => p
    case None => map[]
  }

  // ---------------------------------------------------------------- headers

  /** The header set sent with every request for a given bearer token. */
  function AuthHeaders(token: string): (h: Headers)
    ensures h.Keys == {AuthorizationKey, ContentTypeKey}
    ensures h[ContentTypeKey] == JsonContentType
    ensures BearerTokenOf(h) == Some(token)
  {
    var auth := BearerPrefix + token;
    assert auth[..|BearerPrefix|] == BearerPrefix;
    assert auth[|BearerPrefix|..] == token;
    map[AuthorizationKey := auth, ContentTypeKey := JsonContentType]
  }

  /** Reads the bearer token back out of an Authorization header. */
  function BearerTokenOf(h: Headers): (token: Option<string>)
    ensures token.Some? ==> AuthorizationKey in h && h[AuthorizationKey] == BearerPrefix + token.value
  {
    if AuthorizationKey in h && |BearerPrefix| <= |h[AuthorizationKey]|
       && h[AuthorizationKey][..|BearerPrefix|] == BearerPrefix
    then
      var v := h[AuthorizationKey];
      assert v == v[..|BearerPrefix|] + v[|BearerPrefix|..];
      Some(v[|BearerPrefix|..])
    else None
  }

  /** A header set is the client's exactly when it has the two keys, the JSON
      content type, and a bearer token. */
  lemma AuthHeadersCharacterised(h: Headers, token: string)
    ensures h == AuthHeaders(token) <==>
            (h.Keys == {AuthorizationKey, ContentTypeKey}
             && h[ContentTypeKey] == JsonContentType
             && BearerTokenOf(h) == Some(token))
  {
  }

  /** Outcome of building the auth header: headers (or the credential error),
      the token slot afterwards, and the scopes passed to the credential source. */
  datatype HeaderStep = HeaderStep(headers: Result<Headers, CredentialError>,
                                   cache: Option<AccessToken>,
                                   calls: seq<string>)

  /** Builds the auth header from the cached-or-refreshed token; building it may
      update the token slot, and a credential error aborts it. */
  function GetAuthHeader(client: Client, now: int, credential: CredentialSource): (r: HeaderStep)
    ensures var t := GetAccessToken(client.cache, now, client.config.scope, credential);
            && r.cache == t.cache && r.calls == t.calls
            && (r.headers.Success? <==> t.token.Success?)
            && (t.token.Failure? ==> r.headers == Failure(t.token.error))
    ensures r.headers.Success? ==>
              r.headers.value.Keys == {AuthorizationKey, ContentTypeKey}
              && r.headers.value[ContentTypeKey] == JsonContentType
              && r.cache.Some?
              && BearerTokenOf(r.headers.value) == Some(r.cache.value.token)
  {
    var t := GetAccessToken(client.cache, now, client.config.scope, credential);
    match t.token
    case Success(token) => HeaderStep(Success(AuthHeaders(token)), t.cache, t.calls)
    case Failure(e) => HeaderStep(Failure(e), t.cache, t.calls)
  }

  // ---------------------------------------------------------------- outcome

  /** The statuses for which the HTTP library's raise_for_status raises. */
  predicate IsErrorStatus(status: int)
  {
    400 <= status < 600
  }

  /** Everything one request leaves behind: the caller's outcome, the client
      afterwards, the credential calls made, and the requests sent. */
  datatype Exchange = Exchange(outcome: Result<Response, RequestFailure>,
                               client: Client,
                               credentialCalls: seq<string>,
                               sent: seq<HttpRequest>)

  /** The request the client sends for a method, endpoint, parameters, body and timeout. */
  predicate IsRequestFor(req: HttpRequest, client: Client, httpMethod: string, endpoint: string,
                         params: Option<Params>, json: Option<JsonValue>, timeout: int)
  {
    && req.httpMethod == httpMethod
    && req.url == Interpolate(client.config.urlBase) + "/" + endpoint
    && req.params == ParamsOrEmpty(params)
    && req.json == json
    && req.timeout == timeout
  }

  /** Sends one authenticated request. Only the token slot of the client can
      change; at most one request goes out, and only once a token is in hand;
      the transport's answer reaches the caller unchanged, as a success when its
      status is not an error status and as a failure carrying it otherwise. */
  function MakeRequest(client: Client, now: int, credential: CredentialSource, transport: Transport,
                       httpMethod: string, endpoint: string, params: Option<Params>,
                       json: Option<JsonValue>, timeout: int): (r: Exchange)
    ensures r.client.config == client.config
    ensures r.client.cache == GetAccessToken(client.cache, now, client.config.scope, credential).cache
    ensures r.credentialCalls == GetAccessToken(client.cache, now, client.config.scope, credential).calls
    ensures |r.sent| <= 1
    // a request goes out exactly when the token step produced a token, and it
    // carries that token; a credential error aborts before anything is sent
    ensures var t := GetAccessToken(client.cache, now, client.config.scope, credential);
            && (r.sent != [] <==> t.token.Success?)
            && (r.sent != [] ==> r.sent[0].headers == AuthHeaders(t.token.value))
    ensures r.sent == [] <==> r.outcome.Failure? && r.outcome.error.AuthFailure?
    ensures r.sent == [] ==>
              var t := GetAccessToken(client.cache, now, client.config.scope, credential);
              t.token.Failure? && r.outcome == Failure(AuthFailure(t.token.error))
    // the request that goes out: its shape and the bearer token of the slot
    ensures r.sent != [] ==>
              IsRequestFor(r.sent[0], client, httpMethod, endpoint, params, json, timeout)
              && r.client.cache.Some?
              && r.sent[0].headers == AuthHeaders(r.client.cache.value.token)
    // the outcome is the transport's answer, classified only by status
    ensures r.sent != [] ==>
              match transport(r.sent[0])
              case Delivered(resp) =>
                if IsErrorStatus(resp.status) then r.outcome == Failure(HttpStatusFailure(resp))
                else r.outcome == Success(resp)
              case Raised(e) => r.outcome == Failure(TransportFailure(e))
  {
    var url := JoinUrl(client.config.urlBase, endpoint);
    var h := GetAuthHeader(client, now, credential);
    var after := Client(client.config, h.cache);
    match h.headers
    case Failure(e) => Exchange(Failure(AuthFailure(e)), after, h.calls, [])
    case Success(headers) =>
      var req := HttpRequest(httpMethod, url, headers, ParamsOrEmpty(params), json, timeout);
      var outcome :=
        match transport(req)
        case Delivered(resp) =>
          if IsErrorStatus(resp.status) then Failure(HttpStatusFailure(resp)) else Success(resp)
        case Raised(e) => Failure(TransportFailure(e));
      Exchange(outcome, after, h.calls, [req])
  }

  /** A success is exactly a delivered response with a non-error status, and a
      failed status keeps the peer's own status and body: nothing is invented,
      and a transport error never turns into a success. */
  lemma OutcomeIsPeerAnswer(client: Client, now: int, credential: CredentialSource,
                             transport: Transport, httpMethod: string, endpoint: string,
                             params: Option<Params>, json: Option<JsonValue>, timeout: int)
    ensures var r := MakeRequest(client, now, credential, transport, httpMethod, endpoint, params, json, timeout);
            && (r.outcome.Success? <==>
                  r.sent != [] && transport(r.sent[0]).Delivered?
                  && !IsErrorStatus(transport(r.sent[0]).response.status))
            && (r.outcome.Success? ==> r.outcome.value == transport(r.sent[0]).response)
            && (r.outcome.Failure? && r.outcome.error.HttpStatusFailure? ==>
                  r.outcome.error.response == transport(r.sent[0]).response
                  && IsErrorStatus(r.outcome.error.response.status))
            && (r.sent != [] && transport(r.sent[0]).Raised? ==>
                  r.outcome == Failure(TransportFailure(transport(r.sent[0]).error)))
  {
  }

  /** The first request of a new client asks the credential source exactly once, for
      the configured scope; if that fails, nothing is sent and the slot stays empty. */
  lemma NewClientFirstRequestAcquires(env: Option<string>, localBase: Option<string>,
                                      azureBase: Option<string>, clientId: Option<string>,
                                      now: int, credential: CredentialSource, transport: Transport,
                                      httpMethod: string, endpoint: string, params: Option<Params>,
                                      json: Option<JsonValue>, timeout: int)
    ensures var c := NewClient(env, localBase, azureBase, clientId);
            var r := MakeRequest(c, now, credential, transport, httpMethod, endpoint, params, json, timeout);
            && r.credentialCalls == [c.config.scope]
            && (credential(c.config.scope).Failure? ==> r.sent == [] && r.client.cache == None)
            && (credential(c.config.scope).Success? ==>
                  r.client.cache == Some(credential(c.config.scope).value) && |r.sent| == 1)
  {
  }
}
