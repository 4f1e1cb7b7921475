/** The token bucket (src/token_bucket/token_bucket.cc) as a value: what each operation makes of the bucket's state. */
module Buckets {
  import opened Numbers

  /** `last` is the time of the latest refill. */
  datatype Bucket = Bucket(rate: real, burst: real, tokens: real, last: real)

  ghost predicate Sound(b: Bucket) {
    0.0 <= b.rate && 0.0 <= b.tokens <= b.burst
  }

  /** A new bucket starts full. A negative burst means "one second of tokens". */
  function Fresh(rate: real, burst: real, now: real): (b: Bucket)
    ensures Sound(b)
  {
    var q := Max(0.0, rate);
    var cap := if burst < 0.0 then q else burst;
    Bucket(q, cap, cap, now)
  }

  /** The tokens earned between two times at a given rate. */
  function Gain(rate: real, from: real, to: real): real {
    (to - from) * rate
  }

  /** Lazy refill. A clock that went backwards only moves the refill time. */
  function Refill(b: Bucket, now: real): (r: Bucket)
    ensures Sound(b) ==> Sound(r)
  {
    if now - b.last < 0.0 then
      b.(last := now)
    else
      assert Sound(b) ==> Gain(b.rate, b.last, now) >= 0.0;
      b.(tokens := Min(b.tokens + Gain(b.rate, b.last, now), b.burst), last := now)
  }

  function TryConsume(b: Bucket, count: real, now: real): (r: (Bucket, bool))
    ensures Sound(b) ==> Sound(r.0)
  {
    if count <= 0.0 then
      (b, true)
    else
      var f := Refill(b, now);
      if f.tokens >= count then (f.(tokens := f.tokens - count), true) else (f, false)
  }

  function SetRate(b: Bucket, rate: real, now: real): (r: Bucket)
    ensures Sound(b) ==> Sound(r)
  {
    Refill(b, now).(rate := Max(0.0, rate))
  }

  function SetBurst(b: Bucket, burst: real, now: real): (r: Bucket)
    ensures Sound(b) ==> Sound(r)
  {
    var f := Refill(b, now);
    f.(burst := Max(0.0, burst), tokens := Min(f.tokens, Max(0.0, burst)))
  }
}
