/** The idempotency cache as a map, and its refinement of the log of everything ever stored. */
module IdempotencyCache {
  import opened Clock
  import opened Wrappers

  datatype CachedResponse = CachedResponse(
    status: int, headers: seq<(string, string)>, body: string, bodyHash: string, expiresAt: Instant)

  type Cache = map<string, CachedResponse>

  predicate Expired(entry: CachedResponse, now: Instant) { now > entry.expiresAt }

  /** What a lookup answers. */
  function Answer(cache: Cache, key: string, now: Instant): Option<CachedResponse> {
    if key in cache && !Expired(cache[key], now) then Some(cache[key]) else None
  }

  /** A lookup deletes the entry it finds expired. */
  function AfterGet(cache: Cache, key: string, now: Instant): Cache {
    if key in cache && Expired(cache[key], now) then cache - {key} else cache
  }

  function AfterCleanup(cache: Cache, now: Instant): Cache {
    map key | key in cache && !Expired(cache[key], now) :: cache[key]
  }

  datatype CacheOp =
    | GetOp(key: string, now: Instant)
    | SetOp(key: string, response: CachedResponse)
    | CleanupOp(now: Instant)

  function Apply(cache: Cache, op: CacheOp): Cache {
    match op
    case GetOp(key, now) => AfterGet(cache, key, now)
    case SetOp(key, response) => cache[key := response]
    case CleanupOp(now) => AfterCleanup(cache, now)
  }

  function Run(ops: seq<CacheOp>): Cache {
    if ops == [] then map[] else Apply(Run(ops[..|ops| - 1]), ops[|ops| - 1])
  }

  /** The last response stored under the key in the whole log; nothing is ever forgotten here. */
  function LastSet(ops: seq<CacheOp>, key: string): Option<CachedResponse> {
    if ops == [] then None
    else
      var op := ops[|ops| - 1];
      if op.SetOp? && op.key == key then Some(op.response) else LastSet(ops[..|ops| - 1], key)
  }

  ghost predicate DeletionsBy(ops: seq<CacheOp>, now: Instant) {
    forall i :: 0 <= i < |ops| && !ops[i].SetOp? ==> ops[i].now <= now
  }

  /** A kept entry is the last one stored, and a stored entry that is gone had expired by `now`. */
  lemma {:induction false} CacheKeepsLastUnexpired(ops: seq<CacheOp>, key: string, now: Instant)
    requires DeletionsBy(ops, now)
    ensures key in Run(ops) ==> LastSet(ops, key) == Some(Run(ops)[key])
    ensures key !in Run(ops) && LastSet(ops, key).Some? ==> Expired(LastSet(ops, key).value, now)
    decreases |ops|
  {
    if ops != [] {
      CacheKeepsLastUnexpired(ops[..|ops| - 1], key, now);
      assert !ops[|ops| - 1].SetOp? ==> ops[|ops| - 1].now <= now;
    }
  }

  /** Wherever lazy deletions and cleanups fell at times up to `now`, a lookup answers the last response ever stored
      under the key if that has not expired, and nothing otherwise. */
  lemma CacheRefinesLog(ops: seq<CacheOp>, key: string, now: Instant)
    requires DeletionsBy(ops, now)
    ensures var last := LastSet(ops, key);
            Answer(Run(ops), key, now) == if last.Some? && now <= last.value.expiresAt then last else None
  {
    CacheKeepsLastUnexpired(ops, key, now);
  }

  /** What is there after a cleanup: exactly the responses last stored that have not expired. */
  lemma CleanupLeavesUnexpired(ops: seq<CacheOp>, key: string, now: Instant)
    requires DeletionsBy(ops, now)
    ensures var last, cleaned := LastSet(ops, key), Run(ops + [CleanupOp(now)]);
            && (key in cleaned <==> last.Some? && now <= last.value.expiresAt)
            && (key in cleaned ==> cleaned[key] == last.value)
  {
    CacheKeepsLastUnexpired(ops, key, now);
    assert (ops + [CleanupOp(now)])[..|ops + [CleanupOp(now)]| - 1] == ops;
  }

  /** And what is there under a key after a lookup of it: the same; a lookup touches no other key. */
  lemma LookupLeavesUnexpired(ops: seq<CacheOp>, key: string, other: string, now: Instant)
    requires DeletionsBy(ops, now)
    ensures var last, looked := LastSet(ops, key), Run(ops + [GetOp(key, now)]);
            && (key in looked <==> last.Some? && now <= last.value.expiresAt)
            && (key in looked ==> looked[key] == last.value)
            && (other != key ==> (other in looked <==> other in Run(ops)) && (other in looked ==> looked[other] == Run(ops)[other]))
  {
    CacheKeepsLastUnexpired(ops, key, now);
    assert (ops + [GetOp(key, now)])[..|ops + [GetOp(key, now)]| - 1] == ops;
  }

  /** The lookup deletes under a second lock, without looking again. That delete is harmless to every later lookup if
      and only if what it removes, by then, is absent or itself expired. */
  lemma DeleteHarmlessIffStillExpired(cache: Cache, key: string, now: Instant)
    ensures (forall k, t :: t >= now ==> Answer(cache - {key}, k, t) == Answer(cache, k, t))
       <==> (key in cache ==> Expired(cache[key], now))
  {
    if key in cache && !Expired(cache[key], now) {
      assert Answer(cache - {key}, key, now) != Answer(cache, key, now);
    }
  }
}

/** The in-memory cache, updated in place. */
module IdempotencyStore {
  import opened Clock
  import opened Wrappers
  import opened IdempotencyCache

  class Store {
    var cache: map<string, CachedResponse>

    constructor ()
      ensures cache == map[]
    {
      cache := map[];
    }

    /** A lookup with no other store call between its read and its delete. */
    method Get(key: string, now: Instant) returns (found: Option<CachedResponse>)
      modifies this
      ensures found == Answer(old(cache), key, now)
      ensures found.Some? <==> key in old(cache) && now <= old(cache)[key].expiresAt
      ensures found.Some? ==> found.value == old(cache)[key] && cache == old(cache)
      ensures found.None? ==> cache == old(cache) - {key}
      ensures cache == AfterGet(old(cache), key, now)
    {
      if key !in cache {
        return None;
      }
      var entry := cache[key];
      if now > entry.expiresAt {
        cache := cache - {key};
        return None;
      }
      return Some(entry);
    }

    method Set(key: string, response: CachedResponse)
      modifies this
      ensures cache == old(cache)[key := response]
    {
      cache := cache[key := response];
    }

    method Cleanup(now: Instant)
      modifies this
      ensures forall key :: key in cache <==> key in old(cache) && now <= old(cache)[key].expiresAt
      ensures forall key :: key in cache ==> cache[key] == old(cache)[key]
      ensures cache == AfterCleanup(old(cache), now)
    {
      var pending := cache.Keys;
      while pending != {}
        invariant pending <= cache.Keys <= old(cache.Keys)
        invariant forall key :: key in old(cache) ==>
          (key in cache <==> key in pending || !Expired(old(cache)[key], now))
        invariant forall key :: key in cache ==> cache[key] == old(cache)[key]
        decreases pending
      {
        var key :| key in pending;
        if now > cache[key].expiresAt {
          cache := cache - {key};
        }
        pending := pending - {key};
      }
    }
  }
}
