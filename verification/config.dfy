/** Construction-time configuration of the Function App client: which base URL
    the client talks to and which OAuth scope it asks the credential source for.
    Environment lookups are modelled by their results: an unset variable is None.
 */
module Config {
  import opened Wrappers

  /** Value of the environment flag that selects the locally hosted Function App. */
  const LocalEnv := "LOCAL"

  const ScopePrefix := "api://"
  const ScopeSuffix := "/.default"

  /** What a Python f-string writes for an optional string: an unset value reads "None". */
  function Interpolate(v: Option<string>): string
  {
    match v
    case Some(s) => s
    case None => "None"
  }

  datatype ClientConfig = ClientConfig(env: Option<string>, urlBase: Option<string>, scope: string)

  /** The scope requested for the Function App's application (client) id. */
  function ScopeFor(clientId: Option<string>): (scope: string)
    ensures ScopeClientId(scope) == Some(Interpolate(clientId))
    ensures |scope| == |ScopePrefix| + |Interpolate(clientId)| + |ScopeSuffix|
  {
    var id := Interpolate(clientId);
    var s := ScopePrefix + id + ScopeSuffix;
    assert s[..|ScopePrefix|] == ScopePrefix;
    assert s[|s| - |ScopeSuffix|..] == ScopeSuffix;
    assert s[|ScopePrefix|..|s| - |ScopeSuffix|] == id;
    s
  }

  /** Recovers the application id from a scope of the shape "api://<id>/.default". */
  function ScopeClientId(scope: string): (id: Option<string>)
    ensures id.Some? <==> (exists i :: scope == ScopePrefix + i + ScopeSuffix)
    ensures id.Some? ==> scope == ScopePrefix + id.value + ScopeSuffix
  {
    if |ScopePrefix| + |ScopeSuffix| <= |scope|
       && scope[..|ScopePrefix|] == ScopePrefix
       && scope[|scope| - |ScopeSuffix|..] == ScopeSuffix
    then
      var i := scope[|ScopePrefix|..|scope| - |ScopeSuffix|];
      assert scope == ScopePrefix + i + ScopeSuffix;
      Some(i)
    else
      assert forall i :: scope != ScopePrefix + i + ScopeSuffix by {
        forall i ensures scope != ScopePrefix + i + ScopeSuffix {
          var s := ScopePrefix + i + ScopeSuffix;
          assert s[..|ScopePrefix|] == ScopePrefix;
          assert s[|s| - |ScopeSuffix|..] == ScopeSuffix;
        }
      }
      None
  }

  /** The client's constructor: the base URL follows the environment flag, the
      scope is derived from the application id. */
  function Configure(env: Option<string>, localBase: Option<string>, azureBase: Option<string>,
                     clientId: Option<string>): (c: ClientConfig)
    ensures c.env == env
    ensures c.urlBase == localBase || c.urlBase == azureBase
    ensures localBase != azureBase ==> (c.urlBase == localBase <==> env == Some(LocalEnv))
    ensures ScopeClientId(c.scope) == Some(Interpolate(clientId))
  {
    ClientConfig(env, if env == Some(LocalEnv) then localBase else azureBase, ScopeFor(clientId))
  }
}
