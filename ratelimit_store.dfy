/**
 * The in-memory key/value backend of the token-bucket limiter
 * (`MemoryStore`, secured/php-aegis/src/RateLimit/MemoryStore.php).
 *
 * Every key maps to the bucket state (tokens and last refill time) plus an
 * absolute expiry time. An entry is expired when its expiry lies strictly
 * before the current time; `get` drops an expired entry as it reads it.
 * `time()` is the explicit parameter `now`.
 */
module RateLimitStore {
  import opened Common

  /** What `get` hands back and `set` accepts: `{tokens, lastRefill}`. */
  datatype StoredBucket = StoredBucket(tokens: real, lastRefill: int)

  /** One stored entry: `{tokens, lastRefill, expiresAt}`. */
  datatype Record = Record(tokens: real, lastRefill: int, expiresAt: int)

  type Storage = map<string, Record>

  predicate Expired(r: Record, now: int)
  {
    r.expiresAt < now
  }

  function BucketOf(r: Record): StoredBucket
  {
    StoredBucket(r.tokens, r.lastRefill)
  }

  /** The value `get($key)` returns at time `now`. */
  function Lookup(s: Storage, key: string, now: int): Option<StoredBucket>
  {
    if key !in s then None
    else if Expired(s[key], now) then None
    else Some(BucketOf(s[key]))
  }

  /** The storage after `get($key)` at time `now`: an expired entry is unset. */
  function AfterGet(s: Storage, key: string, now: int): Storage
  {
    if key in s && Expired(s[key], now) then s - {key} else s
  }

  /** The storage after `set($key, $data, $ttl)` at time `now`. */
  function AfterSet(s: Storage, key: string, b: StoredBucket, ttl: int, now: int): Storage
  {
    s[key := Record(b.tokens, b.lastRefill, now + ttl)]
  }

  /** The entries `gc()` keeps at time `now`. */
  function Live(s: Storage, now: int): Storage
  {
    map k | k in s && !Expired(s[k], now) :: s[k]
  }

  /** The keys `gc()` removes at time `now`. */
  function ExpiredKeys(s: Storage, now: int): set<string>
  {
    set k | k in s && Expired(s[k], now)
  }

  /** An absent key reads as null. */
  lemma GetAbsent(s: Storage, key: string, now: int)
    requires key !in s
    ensures Lookup(s, key, now) == None && AfterGet(s, key, now) == s
  {
  }

  /**
   * Expiry is strict: `get` returns the entry iff its expiry is at or after
   * `now`, and removes it exactly when it returns null for a present key.
   */
  lemma ExpiryIsStrict(s: Storage, key: string, now: int)
    requires key in s
    ensures Lookup(s, key, now).Some? <==> now <= s[key].expiresAt
    ensures s[key].expiresAt == now ==> Lookup(s, key, now) == Some(BucketOf(s[key]))
    ensures Lookup(s, key, now).None? <==> key !in AfterGet(s, key, now)
    ensures forall k :: k != key ==> (k in AfterGet(s, key, now) <==> k in s)
  {
  }

  /** `set` then `get` before the entry expires returns what was set. */
  lemma SetThenGet(s: Storage, key: string, b: StoredBucket, ttl: int, now: int, later: int)
    requires later <= now + ttl
    ensures Lookup(AfterSet(s, key, b, ttl, now), key, later) == Some(b)
    ensures AfterGet(AfterSet(s, key, b, ttl, now), key, later) == AfterSet(s, key, b, ttl, now)
  {
  }

  /** `set` overwrites: the new expiry is `now + ttl` whatever was stored before. */
  lemma SetOverwrites(s: Storage, key: string, b: StoredBucket, ttl: int, now: int)
    ensures AfterSet(s, key, b, ttl, now)[key].expiresAt == now + ttl
    ensures forall k :: k in s && k != key ==> AfterSet(s, key, b, ttl, now)[k] == s[k]
    ensures AfterSet(s, key, b, ttl, now).Keys == s.Keys + {key}
  {
  }

  /** `gc` partitions the store: what it removes and what it keeps add up to the whole. */
  lemma {:induction false} GcPartition(s: Storage, now: int)
    ensures Live(s, now).Keys !! ExpiredKeys(s, now)
    ensures Live(s, now).Keys + ExpiredKeys(s, now) == s.Keys
    ensures |ExpiredKeys(s, now)| + |Live(s, now)| == |s|
    ensures forall k :: k in Live(s, now) ==> Live(s, now)[k] == s[k] && !Expired(s[k], now)
  {
    var live := Live(s, now).Keys;
    var dead := ExpiredKeys(s, now);
    assert live + dead == s.Keys;
    assert live !! dead;
    CardDisjointUnion(live, dead);
    assert |Live(s, now)| == |live|;
  }

  lemma {:induction false} CardDisjointUnion<T>(a: set<T>, b: set<T>)
    requires a !! b
    ensures |a + b| == |a| + |b|
    decreases |a|
  {
    if a != {} {
      var x :| x in a;
      CardDisjointUnion(a - {x}, b);
      assert (a - {x}) + b == (a + b) - {x};
    }
  }

  /** The store behind `TokenBucket`: a private map updated in place. */
  class MemoryStore {
    var storage: Storage

    constructor ()
      ensures storage == map[]
    {
      storage := map[];
    }

    method Get(key: string, now: int) returns (r: Option<StoredBucket>)
      modifies this
      ensures r == Lookup(old(storage), key, now)
      ensures storage == AfterGet(old(storage), key, now)
    {
      if key !in storage {
        return None;
      }
      var data := storage[key];
      if data.expiresAt < now {
        storage := storage - {key};
        return None;
      }
      return Some(StoredBucket(data.tokens, data.lastRefill));
    }

    method Set(key: string, data: StoredBucket, ttl: int, now: int)
      modifies this
      ensures storage == AfterSet(old(storage), key, data, ttl, now)
    {
      storage := storage[key := Record(data.tokens, data.lastRefill, now + ttl)];
    }

    method Delete(key: string)
      modifies this
      ensures storage == old(storage) - {key}
    {
      storage := storage - {key};
    }

    method Clear()
      modifies this
      ensures storage == map[]
    {
      storage := map[];
    }

    /** Removes every expired entry and returns how many it removed. */
    method Gc(now: int) returns (removed: nat)
      modifies this
      ensures storage == Live(old(storage), now)
      ensures removed == |ExpiredKeys(old(storage), now)|
    {
      ghost var s0 := storage;
      removed := 0;
      var pending := storage.Keys;
      ghost var gone: set<string> := {};
      while pending != {}
        invariant pending <= s0.Keys
        invariant gone == set k | k in s0 && k !in pending && Expired(s0[k], now)
        invariant storage == map k | k in s0 && (k in pending || !Expired(s0[k], now)) :: s0[k]
        invariant removed == |gone|
        decreases |pending|
      {
        var key :| key in pending;
        if storage[key].expiresAt < now {
          storage := storage - {key};
          assert key !in gone;
          gone := gone + {key};
          removed := removed + 1;
        }
        pending := pending - {key};
      }
      assert storage == Live(s0, now);
      assert gone == ExpiredKeys(s0, now);
    }
  }
}
