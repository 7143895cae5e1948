/**
 * The token-bucket rate limiter (`TokenBucket`,
 * secured/php-aegis/src/RateLimit/TokenBucket.php).
 *
 * A bucket holds up to `capacity` tokens. Whole elapsed refill periods add
 * `refillRate` tokens each, capped at the capacity; `attempt` takes tokens
 * out when enough are there. Bucket state lives in a `MemoryStore` under the
 * caller's key. All `time()` calls made during one operation are the single
 * parameter `now`.
 */
module RateLimitTokenBucket {
  import opened Common
  import opened RateLimitStore

  /** The three constructor arguments kept by a bucket. */
  datatype Config = Config(capacity: int, refillRate: real, refillPeriod: int)

  predicate ValidConfig(c: Config)
  {
    c.capacity > 0 && c.refillRate > 0.0 && c.refillPeriod > 0
  }

  /** The exception the constructor throws for these arguments, if any, first failing check first. */
  function ConfigError(c: Config): (e: Option<string>)
    ensures e.None? <==> ValidConfig(c)
    ensures c.capacity <= 0 ==> e == Some("Capacity must be positive")
    ensures c.capacity > 0 && c.refillRate <= 0.0 ==> e == Some("Refill rate must be positive")
    ensures c.capacity > 0 && c.refillRate > 0.0 && c.refillPeriod <= 0 ==> e == Some("Refill period must be positive")
  {
    if c.capacity <= 0 then Some("Capacity must be positive")
    else if c.refillRate <= 0.0 then Some("Refill rate must be positive")
    else if c.refillPeriod <= 0 then Some("Refill period must be positive")
    else None
  }

  function MinReal(a: real, b: real): real
  {
    if a <= b then a else b
  }

  function MaxReal(a: real, b: real): real
  {
    if a >= b then a else b
  }

  /** Whole refill periods in `elapsed` seconds: `floor($elapsed / $refillPeriod)`. */
  function Periods(elapsed: int, period: int): int
    requires period > 0
  {
    elapsed / period
  }

  /** `getBucket`: the stored state (or a full new bucket) with the refill applied. */
  function Refill(c: Config, stored: Option<StoredBucket>, now: int): StoredBucket
    requires ValidConfig(c)
  {
    match stored
    case None => StoredBucket(c.capacity as real, now)
    case Some(b) =>
      var add := Periods(now - b.lastRefill, c.refillPeriod) as real * c.refillRate;
      if add > 0.0 then StoredBucket(MinReal(c.capacity as real, b.tokens + add), now) else b
  }

  /** The bucket `getBucket($key)` computes at `now`. */
  function Current(c: Config, s: Storage, key: string, now: int): StoredBucket
    requires ValidConfig(c)
  {
    Refill(c, Lookup(s, key, now), now)
  }

  /** `saveBucket`'s TTL: `(int)(($capacity / $refillRate) * $refillPeriod * 2)`. */
  function Ttl(c: Config): (ttl: int)
    requires ValidConfig(c)
    ensures ttl >= 0
    ensures ttl as real <= c.capacity as real / c.refillRate * c.refillPeriod as real * 2.0 < ttl as real + 1.0
  {
    (c.capacity as real / c.refillRate * c.refillPeriod as real * 2.0).Floor
  }

  /** What `attempt($key, $n)` returns; `Failure` is the exception. */
  function AttemptResult(c: Config, s: Storage, key: string, n: int, now: int): Result<bool, string>
    requires ValidConfig(c)
  {
    if n <= 0 then Failure("Tokens must be positive")
    else Success(Current(c, s, key, now).tokens >= n as real)
  }

  /** The store after `attempt($key, $n)`. */
  function AttemptStore(c: Config, s: Storage, key: string, n: int, now: int): Storage
    requires ValidConfig(c)
  {
    if n <= 0 then s
    else
      var b := Current(c, s, key, now);
      var s1 := AfterGet(s, key, now);
      if b.tokens < n as real then s1
      else AfterSet(s1, key, StoredBucket(b.tokens - n as real, b.lastRefill), Ttl(c), now)
  }

  /** What `remaining($key)` returns. */
  function RemainingValue(c: Config, s: Storage, key: string, now: int): real
    requires ValidConfig(c)
  {
    MaxReal(0.0, Current(c, s, key, now).tokens)
  }

  /** PHP's `%` on integers, which truncates toward zero. */
  function PhpRem(a: int, b: int): (r: int)
    requires b > 0
    ensures a >= 0 ==> 0 <= r < b
    ensures a < 0 ==> -b < r <= 0
  {
    if a >= 0 then a % b else -((-a) % b)
  }

  /** What `resetAt($key)` returns. */
  function ResetAtValue(c: Config, s: Storage, key: string, now: int): int
    requires ValidConfig(c)
  {
    var b := Current(c, s, key, now);
    if b.tokens >= 1.0 then 0
    else c.refillPeriod - PhpRem(now - b.lastRefill, c.refillPeriod)
  }

  /** Every stored bucket holds between 0 and `capacity` tokens. */
  predicate InBounds(c: Config, s: Storage)
  {
    forall k :: k in s ==> 0.0 <= s[k].tokens <= c.capacity as real
  }

  /** No stored bucket was refilled in the future of `now`. */
  predicate NotAhead(s: Storage, now: int)
  {
    forall k :: k in s ==> s[k].lastRefill <= now
  }

  /** An unseen key reads as a full bucket. */
  lemma UnseenKeyIsFull(c: Config, s: Storage, key: string, now: int)
    requires ValidConfig(c) && key !in s
    ensures Current(c, s, key, now) == StoredBucket(c.capacity as real, now)
    ensures RemainingValue(c, s, key, now) == c.capacity as real
  {
  }

  /** After `reset($key)` (a store delete) the key reads as a full bucket. */
  lemma ResetRefills(c: Config, s: Storage, key: string, now: int)
    requires ValidConfig(c)
    ensures RemainingValue(c, s - {key}, key, now) == c.capacity as real
  {
    UnseenKeyIsFull(c, s - {key}, key, now);
  }

  /** Refill adds whole periods times the rate, capped at the capacity, and moves `lastRefill` only then. */
  lemma RefillAmount(c: Config, b: StoredBucket, now: int)
    requires ValidConfig(c)
    ensures var periods := (now - b.lastRefill) / c.refillPeriod;
      var r := Refill(c, Some(b), now);
      (periods > 0 ==> r == StoredBucket(MinReal(c.capacity as real, b.tokens + periods as real * c.refillRate), now))
      && (periods <= 0 ==> r == b)
  {
    var periods := (now - b.lastRefill) / c.refillPeriod;
    if periods > 0 {
      assert periods as real * c.refillRate > 0.0;
    } else {
      assert periods as real * c.refillRate <= 0.0;
    }
  }

  /** Less than one period after the last refill nothing changes, so partial periods accumulate. */
  lemma PartialPeriodKeepsBucket(c: Config, b: StoredBucket, now: int)
    requires ValidConfig(c)
    requires b.lastRefill <= now < b.lastRefill + c.refillPeriod
    ensures Refill(c, Some(b), now) == b
  {
    RefillAmount(c, b, now);
  }

  /** Refilling keeps the token count within [0, capacity]. */
  lemma RefillInBounds(c: Config, stored: Option<StoredBucket>, now: int)
    requires ValidConfig(c)
    requires stored.Some? ==> 0.0 <= stored.value.tokens <= c.capacity as real
    ensures 0.0 <= Refill(c, stored, now).tokens <= c.capacity as real
  {
    if stored.Some? {
      RefillAmount(c, stored.value, now);
    }
  }

  /** `attempt` with a non-positive token count throws and leaves the store alone. */
  lemma AttemptRejectsNonPositive(c: Config, s: Storage, key: string, n: int, now: int)
    requires ValidConfig(c) && n <= 0
    ensures AttemptResult(c, s, key, n, now) == Failure("Tokens must be positive")
    ensures AttemptStore(c, s, key, n, now) == s
  {
  }

  /**
   * `attempt` succeeds iff the refilled bucket holds at least `n` tokens; on
   * success the stored tokens drop by exactly `n`, on failure nothing is
   * written (only an expired entry may have been dropped by the read).
   */
  lemma AttemptSemantics(c: Config, s: Storage, key: string, n: int, now: int)
    requires ValidConfig(c) && n > 0
    ensures var b := Current(c, s, key, now);
      var s2 := AttemptStore(c, s, key, n, now);
      (AttemptResult(c, s, key, n, now) == Success(true) <==> b.tokens >= n as real)
      && (AttemptResult(c, s, key, n, now) == Success(true) ==>
            key in s2 && s2[key].tokens == b.tokens - n as real && s2[key].expiresAt == now + Ttl(c))
      && (AttemptResult(c, s, key, n, now) == Success(false) ==> s2 == AfterGet(s, key, now))
  {
  }

  /** `attempt` preserves the bucket bounds of the whole store. */
  lemma {:induction false} AttemptPreservesBounds(c: Config, s: Storage, key: string, n: int, now: int)
    requires ValidConfig(c) && InBounds(c, s)
    ensures InBounds(c, AttemptStore(c, s, key, n, now))
  {
    if n > 0 {
      var st := Lookup(s, key, now);
      assert st.Some? ==> key in s && st.value.tokens == s[key].tokens;
      RefillInBounds(c, st, now);
    }
  }

  /** `remaining` is never negative, and never above the capacity in a bounded store. */
  lemma RemainingBounds(c: Config, s: Storage, key: string, now: int)
    requires ValidConfig(c)
    ensures RemainingValue(c, s, key, now) >= 0.0
    ensures InBounds(c, s) ==> RemainingValue(c, s, key, now) <= c.capacity as real
  {
    if InBounds(c, s) {
      var st := Lookup(s, key, now);
      assert st.Some? ==> key in s && st.value.tokens == s[key].tokens;
      RefillInBounds(c, st, now);
    }
  }

  /**
   * `resetAt` is 0 exactly when a token is available; otherwise, when the
   * stored refill time is not ahead of the clock, it lies in 1..refillPeriod.
   */
  lemma {:induction false} ResetAtRange(c: Config, s: Storage, key: string, now: int)
    requires ValidConfig(c) && NotAhead(s, now)
    ensures var r := ResetAtValue(c, s, key, now);
      (r == 0 <==> Current(c, s, key, now).tokens >= 1.0)
      && (r != 0 ==> 1 <= r <= c.refillPeriod)
  {
    var st := Lookup(s, key, now);
    var b := Current(c, s, key, now);
    if b.tokens < 1.0 {
      assert st.Some?;
      var old_ := st.value;
      assert old_.lastRefill <= now;
      RefillAmount(c, old_, now);
      var periods := (now - old_.lastRefill) / c.refillPeriod;
      if periods > 0 {
        assert b.lastRefill == now;
      } else {
        assert b == old_;
        assert 0 <= now - b.lastRefill < c.refillPeriod;
      }
    }
  }

  /** Operations on one key never change another key's entry. */
  lemma KeysAreIndependent(c: Config, s: Storage, key: string, other: string, n: int, now: int)
    requires ValidConfig(c) && other != key
    ensures var s2 := AttemptStore(c, s, key, n, now);
      (other in s2 <==> other in s) && (other in s ==> s2[other] == s[other])
    ensures Current(c, AttemptStore(c, s, key, n, now), other, now) == Current(c, s, other, now)
    ensures Current(c, s - {key}, other, now) == Current(c, s, other, now)
    ensures Current(c, AfterGet(s, key, now), other, now) == Current(c, s, other, now)
  {
  }

  /** The store after `k` single-token attempts on `key` at the same instant. */
  function Consume(c: Config, s: Storage, key: string, k: nat, now: int): Storage
    requires ValidConfig(c)
  {
    if k == 0 then s else AttemptStore(c, Consume(c, s, key, k - 1, now), key, 1, now)
  }

  /**
   * A fresh key allows exactly `capacity` single-token attempts at one
   * instant: each of the first `capacity` succeeds and the next one fails.
   */
  lemma {:induction false} BurstAllowance(c: Config, s: Storage, key: string, k: nat, now: int)
    requires ValidConfig(c) && key !in s && k <= c.capacity
    ensures var sk := Consume(c, s, key, k, now);
      key in sk || k == 0
    ensures k > 0 ==> var sk := Consume(c, s, key, k, now);
      key in sk && sk[key].tokens == (c.capacity - k) as real && sk[key].lastRefill == now
      && sk[key].expiresAt == now + Ttl(c)
    ensures k < c.capacity ==> AttemptResult(c, Consume(c, s, key, k, now), key, 1, now) == Success(true)
    ensures k == c.capacity ==> AttemptResult(c, Consume(c, s, key, k, now), key, 1, now) == Success(false)
  {
    if k > 0 {
      BurstAllowance(c, s, key, k - 1, now);
      var prev := Consume(c, s, key, k - 1, now);
      if k - 1 > 0 {
        assert Lookup(prev, key, now) == Some(StoredBucket((c.capacity - (k - 1)) as real, now));
        RefillAmount(c, StoredBucket((c.capacity - (k - 1)) as real, now), now);
      }
    }
    var sk := Consume(c, s, key, k, now);
    if k > 0 {
      assert Lookup(sk, key, now) == Some(StoredBucket((c.capacity - k) as real, now));
      RefillAmount(c, StoredBucket((c.capacity - k) as real, now), now);
    }
  }

  /** A token bucket over a `MemoryStore`. */
  class TokenBucket {
    const store: MemoryStore
    const config: Config

    ghost predicate Valid()
    {
      ValidConfig(config)
    }

    constructor (store: MemoryStore, config: Config)
      requires ValidConfig(config)
      ensures this.store == store && this.config == config && Valid()
    {
      this.store := store;
      this.config := config;
    }

    /** `new TokenBucket($store, $capacity, $refillRate, $refillPeriod)`, whose exception is `Failure`. */
    static method Create(store: MemoryStore, capacity: int, refillRate: real, refillPeriod: int)
      returns (r: Result<TokenBucket, string>)
      ensures r.Failure? <==> ConfigError(Config(capacity, refillRate, refillPeriod)).Some?
      ensures r.Failure? ==> Some(r.error) == ConfigError(Config(capacity, refillRate, refillPeriod))
      ensures r.Success? ==> fresh(r.value) && r.value.Valid()
      ensures r.Success? ==> r.value.store == store && r.value.config == Config(capacity, refillRate, refillPeriod)
    {
      var c := Config(capacity, refillRate, refillPeriod);
      var err := ConfigError(c);
      if err.Some? {
        return Failure(err.value);
      }
      var b := new TokenBucket(store, c);
      return Success(b);
    }

    method Attempt(key: string, tokens: int, now: int) returns (r: Result<bool, string>)
      requires Valid()
      modifies store
      ensures r == AttemptResult(config, old(store.storage), key, tokens, now)
      ensures store.storage == AttemptStore(config, old(store.storage), key, tokens, now)
    {
      if tokens <= 0 {
        return Failure("Tokens must be positive");
      }
      var bucket := GetBucket(key, now);
      if bucket.tokens < tokens as real {
        return Success(false);
      }
      bucket := bucket.(tokens := bucket.tokens - tokens as real);
      SaveBucket(key, bucket, now);
      return Success(true);
    }

    method Remaining(key: string, now: int) returns (t: real)
      requires Valid()
      modifies store
      ensures t == RemainingValue(config, old(store.storage), key, now)
      ensures store.storage == AfterGet(old(store.storage), key, now)
    {
      var bucket := GetBucket(key, now);
      t := MaxReal(0.0, bucket.tokens);
    }

    method ResetAt(key: string, now: int) returns (secs: int)
      requires Valid()
      modifies store
      ensures secs == ResetAtValue(config, old(store.storage), key, now)
      ensures store.storage == AfterGet(old(store.storage), key, now)
    {
      var bucket := GetBucket(key, now);
      if bucket.tokens >= 1.0 {
        return 0;
      }
      var elapsed := now - bucket.lastRefill;
      secs := config.refillPeriod - PhpRem(elapsed, config.refillPeriod);
    }

    method Reset(key: string)
      modifies store
      ensures store.storage == old(store.storage) - {key}
    {
      store.Delete(key);
    }

    method GetBucket(key: string, now: int) returns (b: StoredBucket)
      requires Valid()
      modifies store
      ensures b == Current(config, old(store.storage), key, now)
      ensures store.storage == AfterGet(old(store.storage), key, now)
    {
      var stored := store.Get(key, now);
      if stored.None? {
        return StoredBucket(config.capacity as real, now);
      }
      b := stored.value;
      var periods := (now - b.lastRefill) / config.refillPeriod;
      var toAdd := periods as real * config.refillRate;
      if toAdd > 0.0 {
        b := StoredBucket(MinReal(config.capacity as real, b.tokens + toAdd), now);
      }
    }

    method SaveBucket(key: string, b: StoredBucket, now: int)
      requires Valid()
      modifies store
      ensures store.storage == AfterSet(old(store.storage), key, b, Ttl(config), now)
    {
      var ttl := Ttl(config);
      store.Set(key, b, ttl, now);
    }
  }
}
