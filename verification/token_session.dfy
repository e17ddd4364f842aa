/** A run of successive token requests against one client's cache.
    Each request happens at its own time and sees the credential source as it is
    at that moment, so a run is a sequence of ticks. These are the properties of
    the cache that only show over several calls: how often the credential source
    is consulted, whether returned tokens are fresh, and what may end up stored.
 */
module TokenSession {
  import opened Wrappers
  import opened TokenCache

  /** One call of the token getter: the clock reading and the credential source. */
  datatype Tick = Tick(now: int, credential: CredentialSource)

  /** Per call: the returned token and the slot afterwards; and every credential call, in order. */
  datatype Trace = Trace(tokens: seq<Result<string, CredentialError>>,
                         slots: seq<Option<AccessToken>>,
                         calls: seq<string>)

  function Replay(cache: Option<AccessToken>, scope: string, ticks: seq<Tick>): (r: Trace)
    ensures |r.tokens| == |ticks| && |r.slots| == |ticks|
    ensures |r.calls| <= |ticks|
    ensures forall i :: 0 <= i < |r.calls| ==> r.calls[i] == scope
    ensures forall i :: 0 <= i < |ticks| && r.tokens[i].Success? ==>
              r.slots[i].Some? && r.tokens[i].value == r.slots[i].value.token
    decreases |ticks|
  {
    if |ticks| == 0 then Trace([], [], [])
    else
      var step := GetAccessToken(cache, ticks[0].now, scope, ticks[0].credential);
      var rest := Replay(step.cache, scope, ticks[1..]);
      Trace([step.token] + rest.tokens, [step.cache] + rest.slots, step.calls + rest.calls)
  }

  /** The credential source answers the scope with a token that is usable at that tick. */
  predicate AnswersFresh(t: Tick, scope: string)
  {
    t.credential(scope).Success? && Usable(t.credential(scope).value, t.now)
  }

  /** With a credential source that always hands out tokens valid beyond the buffer,
      every call succeeds and returns a token with more than the buffer left. */
  lemma {:induction false} ReplayReturnsUsableTokens(cache: Option<AccessToken>, scope: string, ticks: seq<Tick>)
    requires forall i :: 0 <= i < |ticks| ==> AnswersFresh(ticks[i], scope)
    ensures forall i :: 0 <= i < |ticks| ==>
              Replay(cache, scope, ticks).tokens[i].Success?
              && Replay(cache, scope, ticks).slots[i].Some?
              && Usable(Replay(cache, scope, ticks).slots[i].value, ticks[i].now)
    decreases |ticks|
  {
    if |ticks| > 0 {
      var step := GetAccessToken(cache, ticks[0].now, scope, ticks[0].credential);
      assert AnswersFresh(ticks[0], scope);
      forall i | 0 <= i < |ticks| - 1
        ensures AnswersFresh(ticks[1..][i], scope)
      {
        assert ticks[1..][i] == ticks[i + 1];
      }
      ReplayReturnsUsableTokens(step.cache, scope, ticks[1..]);
    }
  }

  /** While the cached token stays usable at every tick, the credential source is
      never consulted and every call returns the cached token. */
  lemma {:induction false} ReplayNoCallsWhileUsable(cache: Option<AccessToken>, scope: string, ticks: seq<Tick>)
    requires cache.Some?
    requires forall i :: 0 <= i < |ticks| ==> Usable(cache.value, ticks[i].now)
    ensures Replay(cache, scope, ticks).calls == []
    ensures forall i :: 0 <= i < |ticks| ==>
              Replay(cache, scope, ticks).tokens[i] == Success(cache.value.token)
              && Replay(cache, scope, ticks).slots[i] == cache
    decreases |ticks|
  {
    if |ticks| > 0 {
      assert Usable(cache.value, ticks[0].now);
      ReplayNoCallsWhileUsable(cache, scope, ticks[1..]);
      assert forall i :: 1 <= i < |ticks| ==> ticks[1..][i - 1] == ticks[i];
    }
  }

  /** Starting from a cache that cannot serve the first call, and with the first
      acquired token usable for the whole run, the credential source is asked once. */
  lemma ColdStartAcquiresOnce(cache: Option<AccessToken>, scope: string, ticks: seq<Tick>, t: AccessToken)
    requires |ticks| > 0 && !IsHit(cache, ticks[0].now)
    requires ticks[0].credential(scope) == Success(t)
    requires forall i :: 0 <= i < |ticks| ==> Usable(t, ticks[i].now)
    ensures Replay(cache, scope, ticks).calls == [scope]
    ensures forall i :: 0 <= i < |ticks| ==> Replay(cache, scope, ticks).tokens[i] == Success(t.token)
  {
    assert forall i :: 1 <= i < |ticks| ==> ticks[1..][i - 1] == ticks[i];
    ReplayNoCallsWhileUsable(Some(t), scope, ticks[1..]);
  }

  /** What a slot may hold after call i: the original value, or a token the
      credential source returned, unchanged, at some call up to i. */
  predicate StoredFrom(slot: Option<AccessToken>, cache: Option<AccessToken>, scope: string,
                       ticks: seq<Tick>, i: int)
    requires i < |ticks|
  {
    slot == cache || (slot.Some? && exists j :: 0 <= j <= i && ticks[j].credential(scope) == Success(slot.value))
  }

  /** The cache never holds a partial or mixed token: every slot value is the
      initial one or exactly one answer of the credential source. */
  lemma {:induction false} ReplayStoresOnlyAnswers(cache: Option<AccessToken>, scope: string, ticks: seq<Tick>)
    ensures forall i :: 0 <= i < |ticks| ==> StoredFrom(Replay(cache, scope, ticks).slots[i], cache, scope, ticks, i)
    decreases |ticks|
  {
    if |ticks| > 0 {
      var step := GetAccessToken(cache, ticks[0].now, scope, ticks[0].credential);
      var r := Replay(cache, scope, ticks);
      var rest := Replay(step.cache, scope, ticks[1..]);
      ReplayStoresOnlyAnswers(step.cache, scope, ticks[1..]);
      assert StoredFrom(r.slots[0], cache, scope, ticks, 0);
      forall i | 1 <= i < |ticks|
        ensures StoredFrom(r.slots[i], cache, scope, ticks, i)
      {
        assert r.slots[i] == rest.slots[i - 1];
        assert StoredFrom(rest.slots[i - 1], step.cache, scope, ticks[1..], i - 1);
        if rest.slots[i - 1] == step.cache {
          assert StoredFrom(r.slots[0], cache, scope, ticks, 0);
          if step.cache != cache {
            var j :| 0 <= j <= 0 && ticks[j].credential(scope) == Success(step.cache.value);
            assert 0 <= j <= i;
          }
        } else {
          var j :| 0 <= j <= i - 1 && ticks[1..][j].credential(scope) == Success(rest.slots[i - 1].value);
          assert ticks[j + 1] == ticks[1..][j];
        }
      }
    }
  }
}
