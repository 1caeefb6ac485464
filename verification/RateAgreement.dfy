/** The two guarantees of the bounded limiter: when it cannot be told apart from one
    never-forgotten bucket per IP, and how many requests it can admit in any case. */
module RateAgreement {
  import opened TokenBucket
  import opened RecencyTable
  import opened RateRuns

  // ---------------------------------------------------------------------------
  // Agreement with the unbounded reference
  // ---------------------------------------------------------------------------

  /** Entries hold exactly the reference bucket; a forgotten bucket was idle so long that
      it is full again. */
  ghost predicate Mirrors(limit: Limit, t: Table, m: Buckets, now: real) {
    && (forall x :: x in m ==> InRange(limit, m[x]) && m[x].last <= now)
    && (forall i :: 0 <= i < |t| ==> t[i].ip in m && m[t[i].ip] == t[i].bucket)
    && (forall x :: x in m && !Has(t, x) ==> now - m[x].last >= 300.0)
  }

  lemma MirrorsLater(limit: Limit, t: Table, m: Buckets, now: real, later: real)
    requires Mirrors(limit, t, m, now) && now <= later
    ensures Mirrors(limit, t, m, later)
  {
  }

  /** The bucket a request finds answers as the reference bucket does. */
  lemma SameAnswer(cfg: Config, t: Table, m: Buckets, ip: Ip, at: real)
    requires cfg.Valid() && cfg.limit.RefillsWithinCutoff() && Distinct(t)
    requires Mirrors(cfg.limit, t, m, at)
    ensures Allow(cfg.limit, Touch(cfg, t, ip, at)[0].bucket, at)
         == Allow(cfg.limit, BucketOf(cfg.limit, m, ip, at), at)
  {
    if !Has(t, ip) && ip in m {
      IdleIsFull(cfg.limit, m[ip], at);
    }
  }

  lemma RequestMirrors(cfg: Config, t: Table, m: Buckets, ip: Ip, at: real)
    requires cfg.Valid() && cfg.limit.RefillsWithinCutoff() && WellFormed(cfg, t, at)
    requires Mirrors(cfg.limit, t, m, at)
    requires Evicts(cfg, t, ip) ==> at - t[|t| - 1].lastSeen > 300.0
    ensures Admit(cfg, t, ip, at).0 == Allow(cfg.limit, BucketOf(cfg.limit, m, ip, at), at).0
    ensures Mirrors(cfg.limit, Admit(cfg, t, ip, at).1, RefStep(cfg.limit, m, Request(ip, at)), at)
  {
    hide Touch, Level, Full, Lookup, EntryOk;
    SameAnswer(cfg, t, m, ip, at);
    TouchWellFormed(cfg, t, ip, at, at);
    var t' := Admit(cfg, t, ip, at).1;
    var m' := RefStep(cfg.limit, m, Request(ip, at));
    assert InRange(cfg.limit, m'[ip]) && m'[ip].last <= at by {
      BucketInRange(cfg, m, ip, at);
      AllowInRange(cfg.limit, BucketOf(cfg.limit, m, ip, at), at);
    }
    forall k | 1 <= k < |t'| ensures t'[k].ip in m' && m'[t'[k].ip] == t'[k].bucket {
      TouchTail(cfg, t, ip, at, k);
    }
    Present(t', ip, 0);
    forall x | x != ip && x in m' && !Has(t', x) ensures at - m'[x].last >= 300.0 {
      Forgotten(cfg, t, m, ip, at, x);
    }
  }

  lemma BucketInRange(cfg: Config, m: Buckets, ip: Ip, at: real)
    requires cfg.Valid() && (ip in m ==> InRange(cfg.limit, m[ip]) && m[ip].last <= at)
    ensures InRange(cfg.limit, BucketOf(cfg.limit, m, ip, at)) && BucketOf(cfg.limit, m, ip, at).last <= at
  {
  }

  lemma Forgotten(cfg: Config, t: Table, m: Buckets, ip: Ip, at: real, x: Ip)
    requires cfg.Valid() && WellFormed(cfg, t, at) && Mirrors(cfg.limit, t, m, at)
    requires Evicts(cfg, t, ip) ==> at - t[|t| - 1].lastSeen > 300.0
    requires x != ip && x in m && !Has(Admit(cfg, t, ip, at).1, x)
    ensures at - m[x].last >= 300.0
  {
    OthersKept(cfg, t, ip, at, x);
    hide Admit;
    if Has(t, x) {
      assert EntryOk(cfg, t[|t| - 1], at);
    }
  }

  lemma SweepMirrors(cfg: Config, t: Table, m: Buckets, at: real)
    requires WellFormed(cfg, t, at) && Mirrors(cfg.limit, t, m, at)
    ensures Mirrors(cfg.limit, Expire(t, at - 300.0), m, at)
  {
    var t' := Expire(t, at - 300.0);
    ExpireIsPrefix(t, at - 300.0);
    forall x | x in m && !Has(t', x) ensures at - m[x].last >= 300.0 {
      if Has(t, x) {
        assert t[Lookup(t, x)] !in t' by {
          assert forall k :: 0 <= k < |t'| ==> t'[k].ip != x;
        }
      }
    }
  }

  lemma WindowPrefix(run: Run, maxIPs: nat)
    requires run != [] && WindowBounded(run, maxIPs)
    ensures WindowBounded(Init(run), maxIPs)
  {
    forall lo: real ensures |FiveMinutes(Init(run), lo)| <= maxIPs {
      SubsetSize(FiveMinutes(Init(run), lo), FiveMinutes(run, lo));
    }
  }

  lemma StepMirrors(cfg: Config, run: Run, e: Event, start: real)
    requires cfg.Valid() && cfg.limit.RefillsWithinCutoff()
    requires Ordered(run) && Within(run, start, e.at) && WindowBounded(run + [e], cfg.maxIPs)
    requires Mirrors(cfg.limit, Play(cfg, [], run), RefPlay(cfg.limit, run), e.at)
    ensures var t, m := Play(cfg, [], run), RefPlay(cfg.limit, run);
            && Answer(cfg, t, e) == RefAnswer(cfg.limit, m, e)
            && Mirrors(cfg.limit, Step(cfg, t, e), RefStep(cfg.limit, m, e), e.at)
  {
    hide Mirrors, Play, RefPlay, Admit, Allow, BucketOf, WindowBounded, Has, Expire;
    var t, m := Play(cfg, [], run), RefPlay(cfg.limit, run);
    PlayWellFormed(cfg, [], run, start, e.at);
    match e {
      case Request(ip, at) =>
        if Evicts(cfg, t, ip) {
          EvictedWasIdle(cfg, run, ip, at, start);
        }
        RequestMirrors(cfg, t, m, ip, at);
      case Sweep(at) =>
        SweepMirrors(cfg, t, m, at);
    }
  }

  lemma {:induction false} RunMirrors(cfg: Config, run: Run, start: real, now: real)
    requires cfg.Valid() && cfg.limit.RefillsWithinCutoff()
    requires Ordered(run) && Within(run, start, now) && WindowBounded(run, cfg.maxIPs)
    ensures Mirrors(cfg.limit, Play(cfg, [], run), RefPlay(cfg.limit, run), now)
    ensures Decisions(cfg, run) == RefDecisions(cfg.limit, run)
    decreases |run|
  {
    hide *;
    if run == [] {
      NothingMirrors(cfg, now);
    } else {
      var before, e := Init(run), Last(run);
      SplitLast(run);
      PlayOne(cfg, before, e);
      OrderedInit(run, start, now);
      WindowPrefix(run, cfg.maxIPs);
      RunMirrors(cfg, before, start, e.at);
      StepMirrors(cfg, before, e, start);
      MirrorsLater(cfg.limit, Play(cfg, [], run), RefPlay(cfg.limit, run), e.at, now);
    }
  }

  lemma NothingMirrors(cfg: Config, now: real)
    ensures Mirrors(cfg.limit, Play(cfg, [], []), RefPlay(cfg.limit, []), now)
    ensures Decisions(cfg, []) == RefDecisions(cfg.limit, [])
  {
  }

  /** For every timed run: same answers as one never-removed bucket per IP. */
  lemma {:induction false} Agreement(cfg: Config, run: Run)
    requires cfg.Valid() && cfg.limit.RefillsWithinCutoff()
    requires Ordered(run) && WindowBounded(run, cfg.maxIPs)
    ensures Decisions(cfg, run) == RefDecisions(cfg.limit, run)
  {
    if run == [] {
    } else {
      RunMirrors(cfg, run, run[0].at, Last(run).at);
    }
  }

  // ---------------------------------------------------------------------------
  // The rate bound, for arbitrary traffic
  // ---------------------------------------------------------------------------

  /** Requests of `ip` admitted while `run` is played from table `t`. */
  function Admitted(cfg: Config, t: Table, run: Run, ip: Ip): nat {
    if run == [] then 0
    else
      Admitted(cfg, t, Init(run), ip)
      + Paid(cfg, Play(cfg, t, Init(run)), Last(run), ip)
  }

  function Removed(t: Table, t': Table, ip: Ip): nat {
    if Has(t, ip) && !Has(t', ip) then 1 else 0
  }

  /** How often the entry of `ip` was removed while `run` was played. */
  function Removals(cfg: Config, t: Table, run: Run, ip: Ip): nat {
    if run == [] then 0
    else
      Removals(cfg, t, Init(run), ip)
      + Removed(Play(cfg, t, Init(run)), Play(cfg, t, run), ip)
  }

  /** Tokens the table holds for `ip`; an absent entry holds none. */
  function Held(limit: Limit, t: Table, ip: Ip, now: real): real {
    if Has(t, ip) then Level(limit, t[Lookup(t, ip)].bucket, now) else 0.0
  }

  function Chances(t: Table, ip: Ip): nat {
    if Has(t, ip) then 1 else 0
  }

  /** The burst credit of `n` new entries. */
  function Bursts(limit: Limit, n: int): real {
    limit.burst as real * n as real
  }

  lemma HeldRange(cfg: Config, t: Table, ip: Ip, now: real)
    requires cfg.Valid() && WellFormed(cfg, t, now)
    ensures 0.0 <= Held(cfg.limit, t, ip, now) <= Bursts(cfg.limit, Chances(t, ip))
  {
    if Has(t, ip) {
      MulMonotone(cfg.limit.rate, 0.0, now - t[Lookup(t, ip)].bucket.last);
      assert Bursts(cfg.limit, 1) == cfg.limit.burst as real;
    } else {
      assert Bursts(cfg.limit, 0) == 0.0;
    }
  }

  /** Tokens that flow in during `d` seconds. */
  function Refill(limit: Limit, d: real): real {
    limit.rate * d
  }

  lemma HeldGrowth(cfg: Config, t: Table, ip: Ip, t0: real, t1: real)
    requires cfg.Valid() && WellFormed(cfg, t, t0) && t0 <= t1
    ensures Held(cfg.limit, t, ip, t1) <= Held(cfg.limit, t, ip, t0) + Refill(cfg.limit, t1 - t0)
  {
    if Has(t, ip) {
      LevelGrowth(cfg.limit, t[Lookup(t, ip)].bucket, t0, t1);
    } else {
      MulMonotone(cfg.limit.rate, 0.0, t1 - t0);
    }
  }

  /** One event at one instant: what is admitted is paid from what was held, or from the
      full bucket a new entry brings. */
  lemma StepPays(cfg: Config, t: Table, e: Event, ip: Ip)
    requires cfg.Valid() && WellFormed(cfg, t, e.at)
    ensures var t' := Step(cfg, t, e);
            Paid(cfg, t, e, ip) as real + Held(cfg.limit, t', ip, e.at)
            <= Held(cfg.limit, t, ip, e.at) + Gained(cfg, t, e, ip)
  {
    HeldRange(cfg, t, ip, e.at);
    match e
    case Request(x, at) =>
      if x == ip {
        TouchWellFormed(cfg, t, ip, at, at);
        AllowConserves(cfg.limit, Touch(cfg, t, ip, at)[0].bucket, at);
        FullHolds(cfg.limit, at);
      } else {
        OthersKept(cfg, t, x, at, ip);
      }
    case Sweep(at) =>
      ExpireIsPrefix(t, at - 300.0);
      var t' := Expire(t, at - 300.0);
      if Has(t', ip) {
        LookupUnique(t, ip, Lookup(t', ip));
      }
  }

  lemma FullHolds(limit: Limit, now: real)
    requires limit.Valid()
    ensures Level(limit, Full(limit, now), now) == limit.burst as real
  {
    assert limit.rate * 0.0 == 0.0;
  }

  /** The burst credit handed out by the entries created for `ip`. */
  function Granted(cfg: Config, t: Table, run: Run, ip: Ip): real {
    if run == [] then 0.0
    else
      Granted(cfg, t, Init(run), ip)
      + Gained(cfg, Play(cfg, t, Init(run)), Last(run), ip)
  }

  function Paid(cfg: Config, t: Table, e: Event, ip: Ip): nat {
    match e
    case Request(x, at) => if x == ip && Admit(cfg, t, x, at).0 then 1 else 0
    case Sweep(_) => 0
  }

  function Gained(cfg: Config, t: Table, e: Event, ip: Ip): real {
    if !Has(t, ip) && Has(Step(cfg, t, e), ip) then cfg.limit.burst as real else 0.0
  }

  lemma BudgetStep(cfg: Config, t: Table, e: Event, ip: Ip, now: real)
    requires cfg.Valid() && WellFormed(cfg, t, e.at) && e.at <= now
    ensures Paid(cfg, t, e, ip) as real + Held(cfg.limit, Step(cfg, t, e), ip, now)
         <= Held(cfg.limit, t, ip, e.at) + Gained(cfg, t, e, ip) + Refill(cfg.limit, now - e.at)
  {
    hide Refill, Held, Step, Lookup, Admit;
    StepPays(cfg, t, e, ip);
    StepWellFormed(cfg, t, e, e.at);
    HeldGrowth(cfg, Step(cfg, t, e), ip, e.at, now);
  }

  lemma SplitTime(limit: Limit, t0: real, t1: real, t2: real)
    ensures Refill(limit, t2 - t0) == Refill(limit, t1 - t0) + Refill(limit, t2 - t1)
  {
    var d0, d1 := t1 - t0, t2 - t1;
    assert t2 - t0 == d0 + d1;
    MulDistributes(limit.rate, d0, d1);
  }

  lemma LastPays(cfg: Config, t: Table, run: Run, ip: Ip)
    requires run != []
    ensures var before, e := Init(run), Last(run);
            && |before| < |run|
            && Play(cfg, t, run) == Step(cfg, Play(cfg, t, before), e)
            && Admitted(cfg, t, run, ip) == Admitted(cfg, t, before, ip) + Paid(cfg, Play(cfg, t, before), e, ip)
            && Granted(cfg, t, run, ip) == Granted(cfg, t, before, ip) + Gained(cfg, Play(cfg, t, before), e, ip)
  {
  }

  lemma NothingPays(cfg: Config, t: Table, ip: Ip)
    ensures Play(cfg, t, []) == t && Admitted(cfg, t, [], ip) == 0 && Granted(cfg, t, [], ip) == 0.0
  {
  }

  lemma TimeGoesOn(run: Run, start: real, now: real)
    requires Within(run, start, now)
    ensures start <= now
  {
  }

  /** Conservation over a run. */
  lemma {:induction false} Budget(cfg: Config, t: Table, run: Run, ip: Ip, start: real, now: real)
    requires cfg.Valid() && WellFormed(cfg, t, start)
    requires Ordered(run) && Within(run, start, now)
    ensures Admitted(cfg, t, run, ip) as real + Held(cfg.limit, Play(cfg, t, run), ip, now)
         <= Held(cfg.limit, t, ip, start) + Granted(cfg, t, run, ip) + Refill(cfg.limit, now - start)
    decreases |run|
  {
    hide *;
    TimeGoesOn(run, start, now);
    if run == [] {
      NothingPays(cfg, t, ip);
      HeldGrowth(cfg, t, ip, start, now);
    } else {
      var before, e := Init(run), Last(run);
      OrderedInit(run, start, now);
      LastPays(cfg, t, run, ip);
      Budget(cfg, t, before, ip, start, e.at);
      PlayWellFormed(cfg, t, before, start, e.at);
      BudgetStep(cfg, Play(cfg, t, before), e, ip, now);
      SplitTime(cfg.limit, start, e.at, now);
    }
  }

  lemma OneMore(limit: Limit, n: int)
    ensures Bursts(limit, n + 1) == Bursts(limit, n) + limit.burst as real
  {
    MulDistributes(limit.burst as real, n as real, 1.0);
  }

  /** How many entries were created: every creation but the first follows a removal. */
  function Created(cfg: Config, t: Table, run: Run, ip: Ip): int {
    Removals(cfg, t, run, ip) + Chances(Play(cfg, t, run), ip) - Chances(t, ip)
  }

  lemma {:induction false} GrantedByRemovals(cfg: Config, t: Table, run: Run, ip: Ip)
    ensures Granted(cfg, t, run, ip) == Bursts(cfg.limit, Created(cfg, t, run, ip))
    decreases |run|
  {
    hide *;
    if run == [] {
      NothingGranted(cfg, t, ip);
    } else {
      SplitLast(run);
      GrantedByRemovals(cfg, t, Init(run), ip);
      LastGranted(cfg, t, run, ip);
    }
  }

  lemma NothingGranted(cfg: Config, t: Table, ip: Ip)
    ensures Granted(cfg, t, [], ip) == Bursts(cfg.limit, Created(cfg, t, [], ip))
  {
  }

  lemma LastGranted(cfg: Config, t: Table, run: Run, ip: Ip)
    requires run != []
    requires Granted(cfg, t, Init(run), ip) == Bursts(cfg.limit, Created(cfg, t, Init(run), ip))
    ensures Granted(cfg, t, run, ip) == Bursts(cfg.limit, Created(cfg, t, run, ip))
  {
    hide Has, Bursts, Step;
    OneMore(cfg.limit, Created(cfg, t, Init(run), ip));
  }

  lemma RateBoundSum(cfg: Config, t: Table, run: Run, ip: Ip, start: real, now: real)
    requires cfg.Valid() && WellFormed(cfg, t, start)
    requires Ordered(run) && Within(run, start, now)
    ensures Admitted(cfg, t, run, ip) as real
         <= Bursts(cfg.limit, 1 + Removals(cfg, t, run, ip)) + Refill(cfg.limit, now - start)
  {
    hide Play, Admitted, Granted, Removals, Held, Has, Bursts, Refill, WellFormed, Ordered, Within;
    var end := Play(cfg, t, run);
    HeldRange(cfg, t, ip, start);
    PlayWellFormed(cfg, t, run, start, now);
    HeldRange(cfg, end, ip, now);
    Budget(cfg, t, run, ip, start, now);
    GrantedByRemovals(cfg, t, run, ip);
    Settle(cfg.limit, Chances(t, ip), Chances(end, ip), Removals(cfg, t, run, ip));
  }

  /** (1 + k) * burst + rate * d. */
  function Allowance(limit: Limit, k: nat, d: real): real {
    limit.burst as real * (1 + k) as real + limit.rate * d
  }

  /** In any window of length d = `now - start`, whatever the traffic: at most
      (1 + k) * burst + rate * d admissions, k being the removals of the entry. */
  lemma RateBound(cfg: Config, t: Table, run: Run, ip: Ip, start: real, now: real)
    requires cfg.Valid() && WellFormed(cfg, t, start)
    requires Ordered(run) && Within(run, start, now)
    ensures Admitted(cfg, t, run, ip) as real
         <= Allowance(cfg.limit, Removals(cfg, t, run, ip), now - start)
  {
    hide Admitted, Removals, WellFormed, Ordered, Within;
    RateBoundSum(cfg, t, run, ip, start, now);
  }

  lemma Settle(limit: Limit, c: int, c': int, k: int)
    requires c' <= 1
    ensures Bursts(limit, c) + Bursts(limit, k + c' - c) <= Bursts(limit, 1 + k)
  {
    var x, y := (k + c' - c) as real, c as real;
    MulDistributes(limit.burst as real, x, y);
    assert x + y == (k + c') as real;
    MulMonotone(limit.burst as real, (k + c') as real, (1 + k) as real);
  }
}
