/** The per-IP limiter, idealised over the reals: a token bucket that starts full,
    refills continuously and gives up one token per admitted request.
    Rounding inside the limiter library is not part of this model. */
module TokenBucket {

  /** Operator settings of one limiter: tokens per second and bucket size. */
  datatype Limit = Limit(rate: real, burst: nat) {
    /** What start-up validation guarantees. */
    predicate Valid() {
      rate > 0.0 && burst >= 1
    }

    /** A bucket that was empty 300 seconds ago is full again. */
    predicate RefillsWithinCutoff() {
      burst as real <= 300.0 * rate
    }
  }

  datatype Bucket = Bucket(tokens: real, last: real)

  function Full(limit: Limit, now: real): Bucket {
    Bucket(limit.burst as real, now)
  }

  predicate InRange(limit: Limit, b: Bucket) {
    0.0 <= b.tokens <= limit.burst as real
  }

  /** Tokens available at `now`; time never runs backwards for a bucket. */
  function Level(limit: Limit, b: Bucket, now: real): real {
    var elapsed := if now < b.last then 0.0 else now - b.last;
    var tokens := b.tokens + limit.rate * elapsed;
    if tokens > limit.burst as real then limit.burst as real else tokens
  }

  /** One `Allow` call: take a token if a whole one is there; a refusal changes nothing. */
  function Allow(limit: Limit, b: Bucket, now: real): (bool, Bucket) {
    var level := Level(limit, b, now);
    if level >= 1.0 then (true, Bucket(level - 1.0, now)) else (false, b)
  }

  lemma MulMonotone(k: real, x: real, y: real)
    requires k >= 0.0 && x <= y
    ensures k * x <= k * y
  {
    assert k * (y - x) >= 0.0;
  }

  lemma MulDistributes(k: real, x: real, y: real)
    ensures k * (x + y) == k * x + k * y
  {
  }

  lemma AllowInRange(limit: Limit, b: Bucket, now: real)
    requires limit.Valid() && InRange(limit, b) && b.last <= now
    ensures InRange(limit, Allow(limit, b, now).1)
    ensures Allow(limit, b, now).1.last <= now
  {
    MulMonotone(limit.rate, 0.0, now - b.last);
  }

  /** Idle for the whole cutoff: indistinguishable from a brand new bucket. */
  lemma IdleIsFull(limit: Limit, b: Bucket, now: real)
    requires limit.Valid() && limit.RefillsWithinCutoff()
    requires InRange(limit, b) && now - b.last >= 300.0
    ensures Level(limit, b, now) == limit.burst as real
    ensures Allow(limit, b, now) == Allow(limit, Full(limit, now), now)
  {
    MulMonotone(limit.rate, 300.0, now - b.last);
  }

  /** What a bucket can hold grows no faster than the refill rate. */
  lemma LevelGrowth(limit: Limit, b: Bucket, t0: real, t1: real)
    requires limit.Valid() && b.last <= t0 <= t1
    ensures Level(limit, b, t0) <= Level(limit, b, t1) <= Level(limit, b, t0) + limit.rate * (t1 - t0)
  {
    var before, added := t0 - b.last, t1 - t0;
    assert t1 - b.last == before + added;
    MulDistributes(limit.rate, before, added);
    MulMonotone(limit.rate, 0.0, added);
  }

  /** An `Allow` conserves tokens: what is admitted leaves the bucket. */
  lemma AllowConserves(limit: Limit, b: Bucket, now: real)
    requires limit.Valid() && InRange(limit, b) && b.last <= now
    ensures var (ok, b') := Allow(limit, b, now);
            (if ok then 1.0 else 0.0) + Level(limit, b', now) == Level(limit, b, now)
  {
    MulMonotone(limit.rate, 0.0, now - b.last);
    var (ok, b') := Allow(limit, b, now);
    if ok {
      assert limit.rate * (now - b'.last) == 0.0;
    }
  }
}
