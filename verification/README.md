# Function App client — Dafny model

This project models the authenticated-request core of `FunctionAppClient` in
`main.py`. The client calls an Azure Function App with bearer tokens from an
Azure credential. It keeps one cached access token and refreshes it when fewer
than five minutes of validity remain. For each call it builds the bearer
header and the URL, sends one HTTP request, and hands the outcome back to the
caller. A success comes back as the response. An error status or a transport
exception comes back as the raised error, unchanged.

Layout (one module per component, all files verified together):

- `wrappers.dfy`: `Wrappers`. `Option` stands for Python's `Optional`. `Result` stands for "returns or raises".
- `config.dfy`: `Config`. The constructor's derivation of the base URL and the OAuth scope.
- `token_cache.dfy`: `TokenCache`. The single-slot cache as one pure step over `Option<AccessToken>`.
- `token_session.dfy`: `TokenSession`. A replay of many cache steps, and the properties that only show across calls.
- `request.dfy`: `Request`. URL join, auth header, the request handed to the transport, and outcome classification.
- `facade.dfy`: `Facade`. `get` and `post`.

Modelling choices:

- Time is whole seconds (`now: int`). The buffer is the constant 300, and the hit test is the strict `300 < expires_on - now`.
- The credential source (`DefaultAzureCredential.get_token`) is an oracle `string -> Result<AccessToken, CredentialError>`.
- The HTTP transport (`requests.request`) is an oracle `HttpRequest -> TransportOutcome`. It answers with a response or raises a timeout, a connection error or another request error.
- Each step returns a log of the scopes it passed to the credential source. Each request also returns a log of what it handed to the transport. So "the credential source was not consulted" means the log is empty.
- Environment lookups are given as `Option<string>` (an unset variable is `None`). A Python f-string renders `None` as the text `"None"`, and the model keeps that (`Config.Interpolate`). With `AZURE_FUNCTION_APP_CLIENT_ID` unset, the scope is `api://None/.default`. With the base-URL variable unset, URLs start with `None/`.
- `raise_for_status` raises for statuses 400 to 599, and only for those (`Request.IsErrorStatus`).
- An `AccessToken` is a two-field tuple and is always truthy. So the check `self._cached_token and ...` only tests whether the slot is empty.

Behaviour of the code worth knowing, all kept by the model:

- URL join. The code concatenates `url_base + "/" + endpoint` verbatim. A trailing slash on the base or a leading slash on the endpoint gives `//` (contract of `Request.JoinUrl`).
- Errors. Every exception is logged and re-raised unchanged. No status code is invented for timeouts or connection failures. `Request.MakeRequest` returns the transport's own error, and an error status returns the peer's own response.
- Credential failure. `get_token` raises before the assignment at main.py:66, so the slot keeps its old value. The failure happens while the header is built (main.py:107), outside the `try`, so no request is sent.
- Refresh. A freshly acquired token is not re-checked. It is stored and returned even when it already lies within the 300 s buffer (`TokenCache.RefreshKeepsNearExpiryToken`). This is why `TokenSession.ReplayReturnsUsableTokens` assumes a credential source that hands out tokens valid beyond the buffer.

## Model

| member | source | states |
|---|---|---|
| `Config.Configure` | main.py:25-35 | The local base URL is chosen exactly when the environment flag is `"LOCAL"`, the Azure one otherwise. The scope is the `api://<id>/.default` wrapping of the client id. |
| `Config.ScopeFor` | main.py:33-35 | The scope has the shape `api://<id>/.default`, and the id can be read back from it. |
| `Config.ScopeClientId` | main.py:35 | A string is a scope of the client's shape exactly when it is `api://` + some id + `/.default`. That id is what this returns. |
| `TokenCache.GetAccessToken` | main.py:46-68 | On a hit the cached token comes back, the slot is unchanged and the credential source is not called. Otherwise the source is called exactly once, with the scope. An expiry exactly 300 s away already counts as a miss. On success the slot becomes the source's answer, token and expiry together. On failure the error propagates and the slot is unchanged. Any returned token is the slot's token. |
| `TokenCache.RefreshKeepsNearExpiryToken` | main.py:64-68 | On a miss, the acquired token is stored and returned without a freshness check, even if it is already within the buffer. |
| `TokenSession.Replay` | main.py:46-68 | Over n successive calls the credential source is called at most n times, and always with the configured scope. Every returned token is the one held in the slot at that point. |
| `TokenSession.ReplayReturnsUsableTokens` | main.py:56-68 | Suppose the credential source always answers with a token valid past the buffer. Then every call succeeds and returns a token with strictly more than 300 s left. |
| `TokenSession.ReplayNoCallsWhileUsable` | main.py:56-62 | While the cached token stays usable, no call consults the credential source. Every call returns the cached token and the slot never changes. |
| `TokenSession.ColdStartAcquiresOnce` | main.py:56-68 | Start from an empty or expiring slot. If the first acquired token stays usable for the whole run, the credential source is called exactly once and every call returns that token. |
| `TokenSession.ReplayStoresOnlyAnswers` | main.py:64-68 | After every call, the slot holds either its initial value or one of the credential source's answers, unmodified. It never holds a mixed token and expiry. |
| `Request.NewClient` | main.py:22-42 | A new client has the derived configuration and an empty token slot. |
| `Request.NewClientFirstRequestAcquires` | main.py:42-68 | The first request of a new client calls the credential source exactly once, with the scope. On failure nothing is sent and the slot stays empty. On success the slot holds the answer and one request is sent. |
| `Request.JoinUrl` | main.py:106 | The URL is the base, one `/` and the endpoint, with nothing removed or added. The endpoint can be read back from it, so different endpoints give different URLs. There is no slash deduplication: a base ending in `/` or an endpoint starting with `/` gives `//` at the seam. |
| `Request.EndpointOf` | main.py:106 | Reading the endpoint back from a URL succeeds only for URLs of the form base + `/` + endpoint. |
| `Request.AuthHeaders` | main.py:76-80 | The header map has exactly the keys `Authorization` and `Content-Type`. The content type is `application/json`, and the bearer token reads back as the given token. |
| `Request.BearerTokenOf` | main.py:77 | A token is read from a header set only when its `Authorization` value is `Bearer ` followed by that token. |
| `Request.AuthHeadersCharacterised` | main.py:76-80 | A header set is the client's header set for a token exactly when it has the two keys, the JSON content type and that bearer token. |
| `Request.GetAuthHeader` | main.py:70-80 | Building the header runs the token step, so it may refresh the slot. A credential error aborts it with that error. Otherwise the header carries the token now in the slot. |
| `Request.MakeRequest` | main.py:82-140 | Only the token slot of the client changes. A request is sent exactly when the token step yields a token, so a credential error means nothing is sent. At most one request goes out. It has the given method, URL base + `/` + endpoint, the bearer headers of that token, the params or `{}`, the JSON body and the timeout. A non-error status returns the response unchanged. A 4xx/5xx status returns a failure carrying that response. A transport error returns a failure carrying that error. |
| `Request.OutcomeIsPeerAnswer` | main.py:119-140 | A success happens exactly when a response with a non-error status was delivered, and it is that response. An error-status failure carries the peer's own status and body. A transport error never becomes a success. |
| `Facade.Get` | main.py:142-154 | The result is exactly the executor's result for `GET`, no JSON body, the given params and the given timeout (30 when none is given). So the token slot, headers and outcome are the executor's, and the peer's status reaches the caller unchanged. |
| `Facade.Post` | main.py:156-175 | The result is exactly the executor's result for `POST` with the payload as JSON body, the given params and the given timeout (30 when none is given). So the token slot, headers and outcome are the executor's, and the peer's status reaches the caller unchanged. |
| `Facade.GetPostDifferOnlyInMethodAndBody` | main.py:142-175 | In the same situation, `get` and `post` make the same credential calls and leave the same client. They send the same request except for method and body. |

## Left out

- HTTP transport: `requests.request` and the internals of `raise_for_status` are an oracle. Only the 400–599 rule of `raise_for_status` is modelled.
- Identity: `DefaultAzureCredential` and `get_token` are an oracle from scope to token or error.
- Environment and logging: `load_dotenv` and `os.getenv` are given as their results. Every `logger` call is a side effect without semantics and is dropped.
- Float time: `datetime.now().timestamp()` and `timedelta.total_seconds()` are floats in the code. The model uses integer seconds, so sub-second expiry comparisons are not modelled.
- Keyword arguments: `get` and `post` forward `**kwargs` to `_make_request`. Only `timeout` is modelled. Passing `json=` to `get` through them is not.
- Exceptions from the transport other than the `requests` exception family (for example a payload that cannot be serialised) are not modelled.
- `create_numbers` and `main` (main.py:178-234): demo data generation and orchestration with random numbers and float payload sizes.
- Concurrency: the code has no locking and the cache is a bare attribute. The model is sequential and adds no synchronisation.
