/** Which requests are admitted, exactly, told by counts and times alone. */
module RateExact {
  import opened TokenBucket
  import opened RecencyTable
  import opened RateRuns
  import opened RateAgreement

  /** One request to a bucket, and its answer. */
  datatype Visit = Visit(at: real, admitted: bool)

  type Ledger = seq<Visit>

  /** Admissions from visit `k` on. */
  function SpentFrom(l: Ledger, k: nat): nat
    decreases |l|
  {
    if k >= |l| then 0
    else SpentFrom(l[..|l| - 1], k) + (if l[|l| - 1].admitted then 1 else 0)
  }

  /** What a full bucket can give between `since` and `now`: the burst, and the refill. */
  function Window(limit: Limit, since: real, now: real): real {
    limit.burst as real + Refill(limit, now - since)
  }

  /** In every window from an earlier visit until `now` there is room for one more. */
  ghost predicate RoomForOne(limit: Limit, l: Ledger, now: real) {
    forall k :: 0 <= k < |l| ==> SpentFrom(l, k) as real + 1.0 <= Window(limit, l[k].at, now)
  }

  // ---------------------------------------------------------------------------
  // One bucket
  // ---------------------------------------------------------------------------

  /** The level is what the tightest window leaves. */
  ghost predicate Below(limit: Limit, l: Ledger, level: real, now: real) {
    && level <= limit.burst as real
    && forall k :: 0 <= k < |l| ==> level + SpentFrom(l, k) as real <= Window(limit, l[k].at, now)
  }

  ghost predicate Attained(limit: Limit, l: Ledger, level: real, now: real) {
    || level == limit.burst as real
    || exists k :: 0 <= k < |l| && level + SpentFrom(l, k) as real == Window(limit, l[k].at, now)
  }

  ghost predicate Tightest(limit: Limit, l: Ledger, level: real, now: real) {
    Below(limit, l, level, now) && Attained(limit, l, level, now)
  }

  lemma LevelDecides(limit: Limit, l: Ledger, level: real, now: real)
    requires limit.Valid() && Tightest(limit, l, level, now)
    ensures level >= 1.0 <==> RoomForOne(limit, l, now)
  {
    hide Window, SpentFrom;
    if level < 1.0 {
      var k :| 0 <= k < |l| && level + SpentFrom(l, k) as real == Window(limit, l[k].at, now);
      assert !RoomForOne(limit, l, now);
    }
  }

  function Least(a: real, b: real): real {
    if a < b then a else b
  }

  lemma SpentMore(l: Ledger, v: Visit, k: nat)
    ensures SpentFrom(l + [v], k)
         == if k > |l| then 0 else SpentFrom(l, k) + (if v.admitted then 1 else 0)
  {
    assert (l + [v])[..|l|] == l;
  }

  lemma WindowLater(limit: Limit, since: real, now: real, later: real)
    ensures Window(limit, since, later) == Window(limit, since, now) + Refill(limit, later - now)
  {
    SplitTime(limit, since, now, later);
  }

  lemma RefillPositive(limit: Limit, d: real)
    requires limit.Valid() && d >= 0.0
    ensures Refill(limit, d) >= 0.0
  {
    MulMonotone(limit.rate, 0.0, d);
  }

  lemma NoTime(limit: Limit)
    ensures Refill(limit, 0.0) == 0.0
  {
  }

  /** Time passes: the level grows by the refill, up to the burst. */
  lemma TightestLater(limit: Limit, l: Ledger, level: real, now: real, later: real)
    requires limit.Valid() && Tightest(limit, l, level, now) && now <= later
    ensures Tightest(limit, l, Least(limit.burst as real, level + Refill(limit, later - now)), later)
  {
    RefillPositive(limit, later - now);
    hide Refill, SpentFrom, Window;
    forall k | 0 <= k < |l|
      ensures Window(limit, l[k].at, later) == Window(limit, l[k].at, now) + Refill(limit, later - now)
    {
      WindowLater(limit, l[k].at, now, later);
    }
    var level' := Least(limit.burst as real, level + Refill(limit, later - now));
    if level' < limit.burst as real && level != limit.burst as real {
      var k :| 0 <= k < |l| && level + SpentFrom(l, k) as real == Window(limit, l[k].at, now);
      assert level' + SpentFrom(l, k) as real == Window(limit, l[k].at, later);
    }
  }

  /** A visit takes a token or not, and opens a window of its own. */
  lemma TightestVisit(limit: Limit, l: Ledger, level: real, v: Visit)
    requires limit.Valid() && Tightest(limit, l, level, v.at)
    ensures Tightest(limit, l + [v], if v.admitted then level - 1.0 else level, v.at)
  {
    hide Refill, SpentFrom, Window;
    var l', level' := l + [v], if v.admitted then level - 1.0 else level;
    var paid := if v.admitted then 1.0 else 0.0;
    NewWindow(limit, v.at);
    forall k | 0 <= k < |l'|
      ensures k < |l| ==> SpentFrom(l', k) as real == SpentFrom(l, k) as real + paid
      ensures k == |l| ==> SpentFrom(l', k) as real == paid
      ensures level' + SpentFrom(l', k) as real <= Window(limit, l'[k].at, v.at)
    {
      SpentMore(l, v, k);
      SpentNone(l);
    }
    if level == limit.burst as real {
      assert level' + SpentFrom(l', |l|) as real == Window(limit, l'[|l|].at, v.at);
    } else {
      var k :| 0 <= k < |l| && level + SpentFrom(l, k) as real == Window(limit, l[k].at, v.at);
      assert level' + SpentFrom(l', k) as real == Window(limit, l'[k].at, v.at);
    }
  }

  lemma NewWindow(limit: Limit, at: real)
    ensures Window(limit, at, at) == limit.burst as real
  {
    NoTime(limit);
    assert at - at == 0.0;
  }

  lemma SpentNone(l: Ledger)
    ensures SpentFrom(l, |l|) == 0
  {
  }

  /** The ledger tells the bucket's level at every moment from `now` on. */
  ghost predicate Tells(limit: Limit, l: Ledger, b: Bucket, now: real) {
    InRange(limit, b) && b.last <= now && Tightest(limit, l, Level(limit, b, now), now)
  }

  lemma LevelLater(limit: Limit, b: Bucket, now: real, later: real)
    requires limit.Valid() && b.last <= now <= later
    ensures Level(limit, b, later)
         == Least(limit.burst as real, Level(limit, b, now) + Refill(limit, later - now))
  {
    assert later - b.last == (now - b.last) + (later - now);
    MulDistributes(limit.rate, now - b.last, later - now);
    MulMonotone(limit.rate, 0.0, later - now);
  }

  lemma TellsLater(limit: Limit, l: Ledger, b: Bucket, now: real, later: real)
    requires limit.Valid() && Tells(limit, l, b, now) && now <= later
    ensures Tells(limit, l, b, later)
  {
    LevelLater(limit, b, now, later);
    TightestLater(limit, l, Level(limit, b, now), now, later);
    hide Level, Tightest;
  }

  lemma TellsVisit(limit: Limit, l: Ledger, b: Bucket, now: real)
    requires limit.Valid() && Tells(limit, l, b, now)
    ensures var (ok, b') := Allow(limit, b, now);
            Tells(limit, l + [Visit(now, ok)], b', now) && (ok <==> RoomForOne(limit, l, now))
  {
    var (ok, b') := Allow(limit, b, now);
    AllowInRange(limit, b, now);
    AllowConserves(limit, b, now);
    TightestVisit(limit, l, Level(limit, b, now), Visit(now, ok));
    LevelDecides(limit, l, Level(limit, b, now), now);
    hide Level, Tightest, RoomForOne;
  }

  /** A new bucket has no past. */
  lemma TellsFull(limit: Limit, now: real)
    requires limit.Valid()
    ensures Tells(limit, [], Full(limit, now), now) && RoomForOne(limit, [], now)
  {
    FullHolds(limit, now);
  }

  // ---------------------------------------------------------------------------
  // The reference
  // ---------------------------------------------------------------------------

  /** All requests of `ip` in the run, with the answers of the never-forgetting reference. */
  function RefLedger(limit: Limit, run: Run, ip: Ip): Ledger
    decreases |run|
  {
    if run == [] then []
    else RefLedger(limit, Init(run), ip) + RefVisits(limit, RefPlay(limit, Init(run)), Last(run), ip)
  }

  function RefVisits(limit: Limit, m: Buckets, e: Event, ip: Ip): Ledger {
    match e
    case Request(x, at) => if x == ip then [Visit(at, RefAnswer(limit, m, e)[0])] else []
    case Sweep(_) => []
  }

  ghost predicate RefTells(limit: Limit, run: Run, ip: Ip, now: real) {
    var m := RefPlay(limit, run);
    if ip in m then Tells(limit, RefLedger(limit, run, ip), m[ip], now) else RefLedger(limit, run, ip) == []
  }

  lemma RefStepTells(limit: Limit, m: Buckets, l: Ledger, e: Event, ip: Ip)
    requires limit.Valid()
    requires if ip in m then Tells(limit, l, m[ip], e.at) else l == []
    ensures var m', l' := RefStep(limit, m, e), l + RefVisits(limit, m, e, ip);
            if ip in m' then Tells(limit, l', m'[ip], e.at) else l' == []
    ensures e.Request? && e.ip == ip ==>
              (RefAnswer(limit, m, e) == [true] <==> RoomForOne(limit, l, e.at))
  {
    if e.Request? && e.ip == ip {
      TellsFull(limit, e.at);
      TellsVisit(limit, l, BucketOf(limit, m, ip, e.at), e.at);
    } else {
      assert l + [] == l;
    }
    hide Tells, RoomForOne, Allow;
  }

  lemma RefTellsLater(limit: Limit, run: Run, ip: Ip, now: real, later: real)
    requires limit.Valid() && RefTells(limit, run, ip, now) && now <= later
    ensures RefTells(limit, run, ip, later)
  {
    if ip in RefPlay(limit, run) {
      TellsLater(limit, RefLedger(limit, run, ip), RefPlay(limit, run)[ip], now, later);
    }
    hide Tells;
  }

  lemma RefUnfold(limit: Limit, run: Run, ip: Ip)
    ensures run == [] ==> RefPlay(limit, run) == map[] && RefLedger(limit, run, ip) == []
    ensures run != [] ==>
              && |Init(run)| < |run|
              && RefPlay(limit, run) == RefStep(limit, RefPlay(limit, Init(run)), Last(run))
              && RefLedger(limit, run, ip)
                 == RefLedger(limit, Init(run), ip) + RefVisits(limit, RefPlay(limit, Init(run)), Last(run), ip)
  {
  }

  lemma {:induction false} RefRunTells(limit: Limit, run: Run, ip: Ip, start: real, now: real)
    requires limit.Valid() && Ordered(run) && Within(run, start, now)
    ensures RefTells(limit, run, ip, now)
    decreases |run|
  {
    RefUnfold(limit, run, ip);
    hide RefPlay, RefLedger, RefStep, RefVisits, Tells;
    if run == [] {
    } else {
      var before, e := Init(run), Last(run);
      OrderedInit(run, start, now);
      RefRunTells(limit, before, ip, start, e.at);
      RefStepTells(limit, RefPlay(limit, before), RefLedger(limit, before, ip), e, ip);
      RefTellsLater(limit, run, ip, e.at, now);
    }
  }

  /** One never-removed bucket: a request at `now` is admitted if and only if, for every earlier
      request of the IP, the admissions from that one on leave room for one more in the burst
      plus what was refilled since. */
  lemma ReferenceAdmitsExactly(limit: Limit, run: Run, ip: Ip, start: real, now: real)
    requires limit.Valid() && Ordered(run) && Within(run, start, now)
    ensures RefAnswer(limit, RefPlay(limit, run), Request(ip, now)) == [true]
            <==> RoomForOne(limit, RefLedger(limit, run, ip), now)
  {
    RefRunTells(limit, run, ip, start, now);
    RefStepTells(limit, RefPlay(limit, run), RefLedger(limit, run, ip), Request(ip, now), ip);
  }

  // ---------------------------------------------------------------------------
  // The table, for arbitrary traffic
  // ---------------------------------------------------------------------------

  function Visits(cfg: Config, t: Table, e: Event, ip: Ip): Ledger {
    match e
    case Request(x, at) => if x == ip then [Visit(at, Answer(cfg, t, e)[0])] else []
    case Sweep(_) => []
  }

  /** The requests of `ip` since its present entry was created, with the table's answers. */
  function LedgerOf(cfg: Config, run: Run, ip: Ip): Ledger
    decreases |run|
  {
    if run == [] || !Has(Play(cfg, [], run), ip) then []
    else LedgerOf(cfg, Init(run), ip) + Visits(cfg, Play(cfg, [], Init(run)), Last(run), ip)
  }

  ghost predicate EntryTells(cfg: Config, t: Table, l: Ledger, ip: Ip, now: real) {
    if Has(t, ip) then Tells(cfg.limit, l, t[Lookup(t, ip)].bucket, now) else l == []
  }

  lemma OwnStepTells(cfg: Config, t: Table, l: Ledger, ip: Ip, at: real)
    requires cfg.Valid() && Distinct(t) && EntryTells(cfg, t, l, ip, at)
    ensures var (ok, t') := Admit(cfg, t, ip, at);
            && Has(t', ip) && EntryTells(cfg, t', l + [Visit(at, ok)], ip, at)
            && (ok <==> RoomForOne(cfg.limit, l, at))
  {
    TellsFull(cfg.limit, at);
    TellsVisit(cfg.limit, l, Touch(cfg, t, ip, at)[0].bucket, at) by {
      hide Tells;
    }
    Present(Admit(cfg, t, ip, at).1, ip, 0);
    hide Tells, RoomForOne, Allow, Touch;
  }

  lemma OtherStepTells(cfg: Config, t: Table, l: Ledger, e: Event, ip: Ip)
    requires cfg.Valid() && WellFormed(cfg, t, e.at) && EntryTells(cfg, t, l, ip, e.at)
    requires e.Request? ==> e.ip != ip
    ensures var t' := Step(cfg, t, e);
            EntryTells(cfg, t', if Has(t', ip) then l else [], ip, e.at)
  {
    hide Tells, Admit;
    match e
    case Request(x, at) => OthersKept(cfg, t, x, at, ip);
    case Sweep(at) =>
      ExpireIsPrefix(t, at - 300.0);
      var t' := Expire(t, at - 300.0);
      if Has(t', ip) {
        LookupUnique(t, ip, Lookup(t', ip));
      }
  }

  lemma LedgerUnfold(cfg: Config, run: Run, ip: Ip)
    ensures run == [] ==> Play(cfg, [], run) == [] && LedgerOf(cfg, run, ip) == []
    ensures run != [] ==>
              && |Init(run)| < |run|
              && Play(cfg, [], run) == Step(cfg, Play(cfg, [], Init(run)), Last(run))
              && LedgerOf(cfg, run, ip)
                 == if Has(Play(cfg, [], run), ip)
                    then LedgerOf(cfg, Init(run), ip) + Visits(cfg, Play(cfg, [], Init(run)), Last(run), ip)
                    else []
  {
    hide Step, Visits;
  }

  lemma EntryTellsLater(cfg: Config, t: Table, l: Ledger, ip: Ip, now: real, later: real)
    requires cfg.Valid() && EntryTells(cfg, t, l, ip, now) && now <= later
    ensures EntryTells(cfg, t, l, ip, later)
  {
    if Has(t, ip) {
      TellsLater(cfg.limit, l, t[Lookup(t, ip)].bucket, now, later);
    }
    hide Tells;
  }

  lemma StepTells(cfg: Config, t: Table, l: Ledger, e: Event, ip: Ip)
    requires cfg.Valid() && WellFormed(cfg, t, e.at) && EntryTells(cfg, t, l, ip, e.at)
    ensures var t' := Step(cfg, t, e);
            EntryTells(cfg, t', if Has(t', ip) then l + Visits(cfg, t, e, ip) else [], ip, e.at)
  {
    hide EntryTells, Admit, Has;
    if e.Request? && e.ip == ip {
      OwnStepTells(cfg, t, l, ip, e.at);
    } else {
      OtherStepTells(cfg, t, l, e, ip);
      assert l + [] == l;
    }
  }

  lemma NothingTells(cfg: Config, ip: Ip, now: real)
    ensures EntryTells(cfg, [], [], ip, now)
  {
  }

  lemma {:induction false} RunTells(cfg: Config, run: Run, ip: Ip, start: real, now: real)
    requires cfg.Valid() && Ordered(run) && Within(run, start, now)
    ensures EntryTells(cfg, Play(cfg, [], run), LedgerOf(cfg, run, ip), ip, now)
    decreases |run|
  {
    hide *;
    LedgerUnfold(cfg, run, ip);
    if run == [] {
      NothingTells(cfg, ip, now);
    } else {
      var before, e := Init(run), Last(run);
      OrderedInit(run, start, now);
      RunTells(cfg, before, ip, start, e.at);
      PlayWellFormed(cfg, [], before, start, e.at) by {
        NothingWellFormed(cfg, start);
      }
      StepTells(cfg, Play(cfg, [], before), LedgerOf(cfg, before, ip), e, ip);
      EntryTellsLater(cfg, Play(cfg, [], run), LedgerOf(cfg, run, ip), ip, e.at, now);
    }
  }

  lemma NothingWellFormed(cfg: Config, now: real)
    ensures WellFormed(cfg, [], now)
  {
  }

  /** The table, whatever the traffic: a request at `now` is admitted if and only if, for every
      earlier request since the IP's present entry was created, the admissions from that one on
      leave room for one more in the burst plus what was refilled since. So a refusal means that
      some such window is used up, and an IP without an entry is always admitted. */
  lemma TableAdmitsExactly(cfg: Config, run: Run, ip: Ip, start: real, now: real)
    requires cfg.Valid() && Ordered(run) && Within(run, start, now)
    ensures Answer(cfg, Play(cfg, [], run), Request(ip, now)) == [true]
            <==> RoomForOne(cfg.limit, LedgerOf(cfg, run, ip), now)
  {
    RunTells(cfg, run, ip, start, now);
    PlayWellFormed(cfg, [], run, start, now);
    OwnStepTells(cfg, Play(cfg, [], run), LedgerOf(cfg, run, ip), ip, now);
    hide Play, Admit, RoomForOne, LedgerOf;
  }
}
