/** The in-memory limiter: bucket objects, updated in place, behind a map. */
module RateLimiter {
  import opened Clock
  import opened Wrappers
  import opened KeyedStore
  import opened TokenBucket

  class BucketObject {
    var tokens: int
    var maxTokens: int
    var refillRate: int
    var lastRefill: Instant

    ghost predicate Valid()
      reads this
    {
      refillRate > 0 && maxTokens == Tokens(refillRate)
    }

    ghost function View(): Bucket
      reads this
      requires Valid()
    {
      BucketState(tokens, refillRate, lastRefill)
    }

    constructor (limitPerMinute: int, now: Instant)
      requires limitPerMinute > 0
      ensures Valid() && View() == BucketState(Tokens(limitPerMinute), limitPerMinute, now)
    {
      tokens := Tokens(limitPerMinute);
      maxTokens := Tokens(limitPerMinute);
      refillRate := limitPerMinute;
      lastRefill := now;
    }

    method Take(now: Instant) returns (ok: bool, retryAfter: Duration)
      requires Valid()
      modifies this
      ensures Valid()
      ensures (View(), ok) == TokenBucket.Take(Refill(old(View()), now))
      ensures retryAfter == if ok then 0 else DenialWait(View())
    {
      var elapsed := now - lastRefill;
      if elapsed > 0 {
        tokens := tokens + refillRate * elapsed;
        if tokens > maxTokens {
          tokens := maxTokens;
        }
        lastRefill := now;
      }
      if tokens >= Tokens(1) {
        tokens := tokens - Tokens(1);
        return true, 0;
      }
      return false, (Tokens(1) - tokens) / refillRate + SECOND;
    }
  }

  class RateLimiterStore {
    var buckets: map<string, BucketObject>

    ghost predicate Valid()
      reads this, buckets.Values
    {
      && (forall key :: key in buckets ==> buckets[key].Valid())
      && (forall k, k' :: k in buckets && k' in buckets && k != k' ==> buckets[k] != buckets[k'])
    }

    ghost function View(): map<string, Bucket>
      reads this, buckets.Values
      requires Valid()
    {
      map key | key in buckets :: buckets[key].View()
    }

    constructor ()
      ensures Valid() && View() == map[] && buckets == map[]
    {
      buckets := map[];
    }

    method Allow(key: string, limitPerMinute: int, now: Instant) returns (ok: bool, retryAfter: Duration)
      requires Valid()
      modifies this, buckets.Values
      ensures Valid() && fresh(buckets.Values - old(buckets.Values))
      ensures var (bucket', ok') := TokenBucket.Allow(Lookup(old(View()), key), LimiterCall(limitPerMinute, now));
              ok == ok' && View() == Put(old(View()), key, bucket')
      ensures !ok ==> key in View() && retryAfter == DenialWait(View()[key])
      ensures ok ==> retryAfter == 0
    {
      if limitPerMinute <= 0 {
        assert Put(View(), key, Lookup(View(), key)) == View();
        return true, 0;
      }
      ghost var before := View();
      if key !in buckets {
        var bucket := new BucketObject(limitPerMinute, now);
        buckets := buckets[key := bucket];
      }
      var bucket := buckets[key];
      ok, retryAfter := bucket.Take(now);
      assert View() == before[key := bucket.View()];
    }
  }
}
