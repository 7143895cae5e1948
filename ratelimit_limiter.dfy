/**
 * Preset rate limiters (`RateLimiter`,
 * secured/php-aegis/src/RateLimit/RateLimiter.php): factories that choose a
 * bucket configuration per second, minute, hour or day, and methods that
 * pass straight through to the wrapped bucket.
 */
module RateLimitLimiter {
  import opened Common
  import opened RateLimitStore
  import opened RateLimitTokenBucket

  /** PHP's `(int)` cast of an integer quotient, which truncates toward zero. */
  function TruncDiv(a: int, b: int): (q: int)
    requires b > 0
    ensures a >= 0 ==> q * b <= a < q * b + b
    ensures a < 0 ==> q * b - b < a <= q * b
  {
    if a >= 0 then a / b else -((-a) / b)
  }

  /** `$burstAllowance > 0 ? $burstAllowance : $default`. */
  function Burst(burstAllowance: int, default: int): int
  {
    if burstAllowance > 0 then burstAllowance else default
  }

  function PerSecondConfig(maxRequests: int): Config
  {
    Config(maxRequests, maxRequests as real, 1)
  }

  function PerMinuteConfig(maxRequests: int, burstAllowance: int): Config
  {
    Config(Burst(burstAllowance, maxRequests), maxRequests as real / 60.0, 1)
  }

  function PerHourConfig(maxRequests: int, burstAllowance: int): Config
  {
    Config(Burst(burstAllowance, TruncDiv(maxRequests, 10)), maxRequests as real / 3600.0, 1)
  }

  function PerDayConfig(maxRequests: int, burstAllowance: int): Config
  {
    Config(Burst(burstAllowance, TruncDiv(maxRequests, 100)), maxRequests as real / 86400.0, 1)
  }

  /**
   * The per-minute preset refills one token every 60/n seconds on average:
   * n tokens per 60 one-second periods; its capacity is the burst or n.
   */
  lemma PerMinuteShape(n: int, burst: int)
    ensures PerMinuteConfig(n, burst).refillRate * 60.0 == n as real
    ensures PerMinuteConfig(n, burst).refillPeriod == 1
    ensures burst > 0 ==> PerMinuteConfig(n, burst).capacity == burst
    ensures burst <= 0 ==> PerMinuteConfig(n, burst).capacity == n
  {
  }

  /** The per-hour preset defaults its capacity to a tenth of the hourly budget, rounded down. */
  lemma PerHourShape(n: int, burst: int)
    ensures PerHourConfig(n, burst).refillRate * 3600.0 == n as real
    ensures burst > 0 ==> PerHourConfig(n, burst).capacity == burst
    ensures burst <= 0 && n >= 0 ==> PerHourConfig(n, burst).capacity * 10 <= n < PerHourConfig(n, burst).capacity * 10 + 10
  {
  }

  /** The per-day preset defaults its capacity to a hundredth of the daily budget, rounded down. */
  lemma PerDayShape(n: int, burst: int)
    ensures PerDayConfig(n, burst).refillRate * 86400.0 == n as real
    ensures burst > 0 ==> PerDayConfig(n, burst).capacity == burst
    ensures burst <= 0 && n >= 0 ==> PerDayConfig(n, burst).capacity * 100 <= n < PerDayConfig(n, burst).capacity * 100 + 100
  {
  }

  /**
   * Without a burst allowance, fewer than 10 requests per hour (or 100 per
   * day) give capacity 0, which the bucket constructor rejects.
   */
  lemma SmallBudgetsAreRejected(n: int, burst: int)
    requires burst <= 0
    ensures 0 <= n < 10 ==> ConfigError(PerHourConfig(n, burst)) == Some("Capacity must be positive")
    ensures 0 <= n < 100 ==> ConfigError(PerDayConfig(n, burst)) == Some("Capacity must be positive")
    ensures n >= 10 ==> ConfigError(PerHourConfig(n, burst)).None?
    ensures n >= 100 ==> ConfigError(PerDayConfig(n, burst)).None?
  {
  }

  /** A per-second limiter on a positive budget is a valid bucket of n tokens refilling n per second. */
  lemma PerSecondShape(n: int)
    ensures n > 0 <==> ConfigError(PerSecondConfig(n)).None?
    ensures PerSecondConfig(n).capacity as real == PerSecondConfig(n).refillRate
  {
  }

  class RateLimiter {
    const bucket: TokenBucket

    constructor (bucket: TokenBucket)
      ensures this.bucket == bucket
    {
      this.bucket := bucket;
    }

    /** Builds the limiter for a configuration, failing as the bucket constructor does. */
    static method FromConfig(store: MemoryStore, c: Config) returns (r: Result<RateLimiter, string>)
      ensures r.Failure? <==> ConfigError(c).Some?
      ensures r.Failure? ==> Some(r.error) == ConfigError(c)
      ensures r.Success? ==> fresh(r.value) && r.value.bucket.Valid()
      ensures r.Success? ==> r.value.bucket.store == store && r.value.bucket.config == c
    {
      var b := TokenBucket.Create(store, c.capacity, c.refillRate, c.refillPeriod);
      if b.Failure? {
        return Failure(b.error);
      }
      var limiter := new RateLimiter(b.value);
      return Success(limiter);
    }

    static method PerSecond(maxRequests: int, store: MemoryStore) returns (r: Result<RateLimiter, string>)
      ensures r.Failure? <==> ConfigError(PerSecondConfig(maxRequests)).Some?
      ensures r.Success? ==> fresh(r.value) && r.value.bucket.Valid()
      ensures r.Success? ==> r.value.bucket.store == store && r.value.bucket.config == Config(maxRequests, maxRequests as real, 1)
    {
      r := FromConfig(store, PerSecondConfig(maxRequests));
    }

    static method PerMinute(maxRequests: int, store: MemoryStore, burstAllowance: int) returns (r: Result<RateLimiter, string>)
      ensures r.Failure? <==> ConfigError(PerMinuteConfig(maxRequests, burstAllowance)).Some?
      ensures r.Success? ==> fresh(r.value) && r.value.bucket.Valid()
      ensures r.Success? ==> r.value.bucket.store == store && r.value.bucket.config == PerMinuteConfig(maxRequests, burstAllowance)
    {
      r := FromConfig(store, PerMinuteConfig(maxRequests, burstAllowance));
    }

    static method PerHour(maxRequests: int, store: MemoryStore, burstAllowance: int) returns (r: Result<RateLimiter, string>)
      ensures r.Failure? <==> ConfigError(PerHourConfig(maxRequests, burstAllowance)).Some?
      ensures r.Success? ==> fresh(r.value) && r.value.bucket.Valid()
      ensures r.Success? ==> r.value.bucket.store == store && r.value.bucket.config == PerHourConfig(maxRequests, burstAllowance)
    {
      r := FromConfig(store, PerHourConfig(maxRequests, burstAllowance));
    }

    static method PerDay(maxRequests: int, store: MemoryStore, burstAllowance: int) returns (r: Result<RateLimiter, string>)
      ensures r.Failure? <==> ConfigError(PerDayConfig(maxRequests, burstAllowance)).Some?
      ensures r.Success? ==> fresh(r.value) && r.value.bucket.Valid()
      ensures r.Success? ==> r.value.bucket.store == store && r.value.bucket.config == PerDayConfig(maxRequests, burstAllowance)
    {
      r := FromConfig(store, PerDayConfig(maxRequests, burstAllowance));
    }

    method Attempt(key: string, tokens: int, now: int) returns (r: Result<bool, string>)
      requires bucket.Valid()
      modifies bucket.store
      ensures r == AttemptResult(bucket.config, old(bucket.store.storage), key, tokens, now)
      ensures bucket.store.storage == AttemptStore(bucket.config, old(bucket.store.storage), key, tokens, now)
    {
      r := bucket.Attempt(key, tokens, now);
    }

    method Remaining(key: string, now: int) returns (t: real)
      requires bucket.Valid()
      modifies bucket.store
      ensures t == RemainingValue(bucket.config, old(bucket.store.storage), key, now)
      ensures bucket.store.storage == AfterGet(old(bucket.store.storage), key, now)
    {
      t := bucket.Remaining(key, now);
    }

    method ResetAt(key: string, now: int) returns (secs: int)
      requires bucket.Valid()
      modifies bucket.store
      ensures secs == ResetAtValue(bucket.config, old(bucket.store.storage), key, now)
      ensures bucket.store.storage == AfterGet(old(bucket.store.storage), key, now)
    {
      secs := bucket.ResetAt(key, now);
    }

    method Reset(key: string)
      modifies bucket.store
      ensures bucket.store.storage == old(bucket.store.storage) - {key}
    {
      bucket.Reset(key);
    }
  }
}
