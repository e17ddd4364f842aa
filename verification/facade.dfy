/** The client's public surface: get and post fix the HTTP method and the body
    and hand everything else to the request executor unchanged. Of the extra
    keyword arguments the two forward, the timeout is modelled (absent: 30 s).
 */
module Facade {
  import opened Wrappers
  import opened TokenCache
  import opened Request

  const GetMethod := "GET"
  const PostMethod := "POST"

  /** The timeout a forwarded keyword argument leaves the executor with. */
  function TimeoutOrDefault(timeout: Option<int>): int
  {
    match timeout
    case Some(t) => t
    case None => DefaultTimeoutSeconds
  }

  /** GET with query parameters and no JSON body. */
  function Get(client: Client, now: int, credential: CredentialSource, transport: Transport,
               endpoint: string, params: Option<Params>, timeout: Option<int>): (r: Exchange)
    ensures r.client.config == client.config
    ensures r.credentialCalls == GetAccessToken(client.cache, now, client.config.scope, credential).calls
    ensures |r.sent| <= 1
    ensures forall req :: req in r.sent ==>
              IsRequestFor(req, client, GetMethod, endpoint, params, None, TimeoutOrDefault(timeout))
    // delegation: everything else, the token slot, headers and outcome included,
    // is the executor's
    ensures r == MakeRequest(client, now, credential, transport, GetMethod, endpoint, params, None,
                             TimeoutOrDefault(timeout))
    // corollaries of the delegation, spelled out for the caller
    ensures timeout.None? ==> forall req :: req in r.sent ==> req.timeout == 30
    ensures r.sent == [] <==> r.outcome.Failure? && r.outcome.error.AuthFailure?
    ensures r.sent != [] ==>
              (r.outcome.Success? <==> transport(r.sent[0]).Delivered?
                                       && !IsErrorStatus(transport(r.sent[0]).response.status))
  {
    MakeRequest(client, now, credential, transport, GetMethod, endpoint, params, None,
                TimeoutOrDefault(timeout))
  }

  /** POST with the payload as JSON body and optional query parameters. */
  function Post(client: Client, now: int, credential: CredentialSource, transport: Transport,
                endpoint: string, payload: Option<JsonValue>, params: Option<Params>,
                timeout: Option<int>): (r: Exchange)
    ensures r.client.config == client.config
    ensures r.credentialCalls == GetAccessToken(client.cache, now, client.config.scope, credential).calls
    ensures |r.sent| <= 1
    ensures forall req :: req in r.sent ==>
              IsRequestFor(req, client, PostMethod, endpoint, params, payload, TimeoutOrDefault(timeout))
    // delegation: everything else, the token slot, headers and outcome included,
    // is the executor's
    ensures r == MakeRequest(client, now, credential, transport, PostMethod, endpoint, params, payload,
                             TimeoutOrDefault(timeout))
    // corollaries of the delegation, spelled out for the caller
    ensures timeout.None? ==> forall req :: req in r.sent ==> req.timeout == 30
    ensures r.sent == [] <==> r.outcome.Failure? && r.outcome.error.AuthFailure?
    ensures r.sent != [] ==>
              (r.outcome.Success? <==> transport(r.sent[0]).Delivered?
                                       && !IsErrorStatus(transport(r.sent[0]).response.status))
  {
    MakeRequest(client, now, credential, transport, PostMethod, endpoint, params, payload,
                TimeoutOrDefault(timeout))
  }

  /** Called in the same situation, get and post differ only in the method and the
      body of the request they send: same token handling, URL, headers, parameters
      and timeout, and the same decision to send at all. */
  lemma GetPostDifferOnlyInMethodAndBody(client: Client, now: int, credential: CredentialSource,
                                         transport: Transport, endpoint: string,
                                         payload: Option<JsonValue>, params: Option<Params>,
                                         timeout: Option<int>)
    ensures var g := Get(client, now, credential, transport, endpoint, params, timeout);
            var p := Post(client, now, credential, transport, endpoint, payload, params, timeout);
            && g.client == p.client
            && g.credentialCalls == p.credentialCalls
            && |g.sent| == |p.sent|
            && (g.sent != [] ==>
                  g.sent[0].(httpMethod := PostMethod, json := payload) == p.sent[0])
  {
  }
}
