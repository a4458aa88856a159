// The optional Redis cache of completed responses: it may lose any entry at any time.
module Cache {
  import opened Prelude
  import opened Schema

  datatype Cached = Cached(status: int, body: Body, hash: string)

  const PREFIX := "ledger:idem:"

  function CacheKey(k: Key): string {
    PREFIX + k.scope + ":" + k.key
  }

  lemma SplitAtColon(x: string, p: string, y: string, q: string)
    requires ':' !in x && ':' !in y && x + ":" + p == y + ":" + q
    ensures x == y && p == q
  {
    var l, r := x + ":" + p, y + ":" + q;
    assert l[|x|] == ':' && r[|y|] == ':';
    assert forall i :: 0 <= i < |x| ==> l[i] == x[i] && x[i] in x;
    assert forall i :: 0 <= i < |y| ==> r[i] == y[i] && y[i] in y;
    assert x == l[..|x|] && y == r[..|x|];
    assert p == l[|x| + 1..] && q == r[|x| + 1..];
  }

  // Scopes contain no colon, so distinct idempotency keys never share a cache key.
  lemma CacheKeyIsInjective(j: Key, k: Key)
    requires ':' !in j.scope && ':' !in k.scope && CacheKey(j) == CacheKey(k)
    ensures j == k
  {
    var n := |PREFIX|;
    assert CacheKey(j)[n..] == j.scope + ":" + j.key;
    assert CacheKey(k)[n..] == k.scope + ":" + k.key;
    SplitAtColon(j.scope, j.key, k.scope, k.key);
  }

  // The rate limiter's counters live in the same Redis, under keys of their own.
  lemma CountersAreApart(k: Key, client: string)
    ensures CacheKey(k) != "ledger:rl:" + client
  {
    assert CacheKey(k)[7] == 'i' && ("ledger:rl:" + client)[7] == 'r';
  }

  class RedisCache {
    const enabled: bool
    var entries: map<string, Cached>

    constructor (enabled: bool)
      ensures this.enabled == enabled && entries == map[]
    {
      this.enabled := enabled;
      entries := map[];
    }

    // `answers` says whether Redis answers in time with something that decodes.
    method Get(k: Key, answers: bool) returns (r: Option<Cached>)
      ensures r.Some? <==> enabled && answers && CacheKey(k) in entries
      ensures r.Some? ==> r.value == entries[CacheKey(k)]
    {
      if !enabled || !answers || CacheKey(k) !in entries {
        return None;
      }
      return Some(entries[CacheKey(k)]);
    }

    method Put(k: Key, v: Cached, accepted: bool)
      modifies this`entries
      ensures entries == if enabled && accepted then old(entries)[CacheKey(k) := v] else old(entries)
    {
      if !enabled || !accepted {
        return;
      }
      entries := entries[CacheKey(k) := v];
    }
  }
}
