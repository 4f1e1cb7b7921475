/** The token bucket object (src/token_bucket/token_bucket.cc), which updates its fields in place. */
module TokenBuckets {
  import opened Numbers
  import opened Clocks
  import Buckets

  class TokenBucket {
    const clock: FakeClock
    var rate: real
    var burstSize: real
    var tokens: real
    var lastRefillTime: real

    ghost function State(): Buckets.Bucket
      reads this
    {
      Buckets.Bucket(rate, burstSize, tokens, lastRefillTime)
    }

    constructor (rate: real, burst: real, clock: FakeClock)
      ensures this.clock == clock
      ensures State() == Buckets.Fresh(rate, burst, clock.Now())
      ensures Buckets.Sound(State())
    {
      this.clock := clock;
      this.rate := Max(0.0, rate);
      this.burstSize := 0.0;
      this.tokens := 0.0;
      this.lastRefillTime := clock.Now();
      new;
      if burst < 0.0 {
        burstSize := this.rate;
      } else {
        burstSize := burst;
      }
      tokens := burstSize;
    }

    method TryConsume(count: real) returns (ok: bool)
      modifies this
      ensures (State(), ok) == Buckets.TryConsume(old(State()), count, clock.Now())
    {
      if count <= 0.0 {
        return true;
      }
      Refill();
      if tokens >= count {
        tokens := tokens - count;
        return true;
      }
      return false;
    }

    method SetRate(newRate: real)
      modifies this
      ensures State() == Buckets.SetRate(old(State()), newRate, clock.Now())
    {
      Refill();
      rate := Max(0.0, newRate);
    }

    method SetBurstSize(newBurst: real)
      modifies this
      ensures State() == Buckets.SetBurst(old(State()), newBurst, clock.Now())
    {
      Refill();
      burstSize := Max(0.0, newBurst);
      tokens := Min(tokens, burstSize);
    }

    method GetAvailableTokens() returns (available: real)
      modifies this
      ensures State() == Buckets.Refill(old(State()), clock.Now())
      ensures available == State().tokens
    {
      Refill();
      available := tokens;
    }

    method Refill()
      modifies this
      ensures State() == Buckets.Refill(old(State()), clock.Now())
    {
      var now := clock.Now();
      var elapsed := now - lastRefillTime;
      if elapsed < 0.0 {
        lastRefillTime := now;
        return;
      }
      var tokensToAdd := elapsed * rate;
      assert tokensToAdd == Buckets.Gain(rate, lastRefillTime, now);
      tokens := Min(tokens + tokensToAdd, burstSize);
      lastRefillTime := now;
    }
  }
}
