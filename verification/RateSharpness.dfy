/** Neither condition of the agreement theorem can be dropped: outside them there are runs
    on which the bounded table answers differently from the unbounded reference. */
module RateSharpness {
  import opened TokenBucket
  import opened RecencyTable
  import opened RateRuns
  import RateAgreement

  /** `n` requests of one IP at one instant. */
  function Volley(run: Run, ip: Ip, at: real, n: nat): Run {
    if n == 0 then run else Volley(run, ip, at, n - 1) + [Request(ip, at)]
  }

  function Granted(n: nat): (answers: seq<bool>)
    ensures |answers| == n
  {
    if n == 0 then [] else Granted(n - 1) + [true]
  }

  lemma {:induction false} GrantedSum(m: nat, n: nat)
    ensures Granted(m + n) == Granted(m) + Granted(n)
  {
    if n == 0 {
    } else {
      GrantedSum(m, n - 1);
    }
  }

  lemma VolleyOne(run: Run, ip: Ip, at: real, n: nat)
    ensures n == 0 ==> Volley(run, ip, at, n) == run && Granted(n) == []
    ensures n > 0 ==> && Volley(run, ip, at, n) == Volley(run, ip, at, n - 1) + [Request(ip, at)]
                      && Granted(n) == Granted(n - 1) + [true]
  {
  }

  lemma NothingYet(cfg: Config, ip: Ip, at: real)
    ensures Play(cfg, [], []) == [] && Decisions(cfg, []) == []
    ensures RefPlay(cfg.limit, []) == map[] && RefDecisions(cfg.limit, []) == []
    ensures AfterVolley(cfg, ip, at, 0) == [] && Granted(0) == []
  {
  }

  lemma SameLength(cfg: Config, run: Run)
    ensures |Decisions(cfg, run)| == |RefDecisions(cfg.limit, run)|
  {
  }

  lemma PlayRequest(cfg: Config, run: Run, ip: Ip, at: real)
    ensures var (ok, t) := Admit(cfg, Play(cfg, [], run), ip, at);
            && Play(cfg, [], run + [Request(ip, at)]) == t
            && Decisions(cfg, run + [Request(ip, at)]) == Decisions(cfg, run) + [ok]
    ensures var m := RefPlay(cfg.limit, run);
            var (ok, b) := Allow(cfg.limit, BucketOf(cfg.limit, m, ip, at), at);
            && RefPlay(cfg.limit, run + [Request(ip, at)]) == m[ip := b]
            && RefDecisions(cfg.limit, run + [Request(ip, at)]) == RefDecisions(cfg.limit, run) + [ok]
  {
    hide Play, RefPlay, Decisions, RefDecisions, Admit, Allow, BucketOf;
    PlayOne(cfg, run, Request(ip, at));
  }

  lemma TakeOne(limit: Limit, tokens: real, at: real)
    requires limit.Valid() && 1.0 <= tokens <= limit.burst as real
    ensures Allow(limit, Bucket(tokens, at), at) == (true, Bucket(tokens - 1.0, at))
  {
    assert limit.rate * 0.0 == 0.0;
  }

  ghost function AfterVolley(cfg: Config, ip: Ip, at: real, n: nat): Table {
    if n == 0 then [] else [Entry(ip, Bucket(cfg.limit.burst as real - n as real, at), at)]
  }

  lemma OneOfVolley(cfg: Config, ip: Ip, at: real, n: nat)
    requires cfg.Valid() && n < cfg.limit.burst
    ensures Admit(cfg, AfterVolley(cfg, ip, at, n), ip, at) == (true, AfterVolley(cfg, ip, at, n + 1))
  {
    var left := cfg.limit.burst as real - n as real;
    TakeOne(cfg.limit, left, at);
    var t := AfterVolley(cfg, ip, at, n);
    assert left - 1.0 == cfg.limit.burst as real - (n + 1) as real;
    assert t == if n == 0 then [] else [Entry(ip, Bucket(left, at), at)];
    assert AfterVolley(cfg, ip, at, n + 1) == [Entry(ip, Bucket(left - 1.0, at), at)];
    hide Allow, AfterVolley;
    var e := Entry(ip, Bucket(left, at), at);
    assert Touch(cfg, t, ip, at) == [e] by {
      assert n > 0 ==> t[..0] == [] && t[1..] == [];
    }
    assert [e][0 := e.(bucket := Bucket(left - 1.0, at))] == [e.(bucket := Bucket(left - 1.0, at))];
  }

  /** A volley of at most `burst` requests on an empty table is admitted in full. */
  lemma {:induction false} VolleyFromEmpty(cfg: Config, run: Run, ip: Ip, at: real, n: nat)
    requires cfg.Valid() && Play(cfg, [], run) == [] && n <= cfg.limit.burst
    ensures Play(cfg, [], Volley(run, ip, at, n)) == AfterVolley(cfg, ip, at, n)
    ensures Decisions(cfg, Volley(run, ip, at, n)) == Decisions(cfg, run) + Granted(n)
  {
    hide *;
    VolleyOne(run, ip, at, n);
    if n == 0 {
      NothingYet(cfg, ip, at);
    } else {
      VolleyFromEmpty(cfg, run, ip, at, n - 1);
      PlayRequest(cfg, Volley(run, ip, at, n - 1), ip, at);
      OneOfVolley(cfg, ip, at, n - 1);
      assert Decisions(cfg, run) + Granted(n - 1) + [true] == Decisions(cfg, run) + Granted(n);
    }
  }

  lemma RefOfVolley(cfg: Config, ip: Ip, m: Buckets, n: nat)
    requires cfg.Valid() && n < cfg.limit.burst
    requires m == if n == 0 then map[] else map[ip := Bucket(cfg.limit.burst as real - n as real, 0.0)]
    ensures var (ok, b) := Allow(cfg.limit, BucketOf(cfg.limit, m, ip, 0.0), 0.0);
            ok && m[ip := b] == map[ip := Bucket(cfg.limit.burst as real - (n + 1) as real, 0.0)]
  {
    TakeOne(cfg.limit, cfg.limit.burst as real - n as real, 0.0);
  }

  /** The reference, on the same first volley, ends with an empty bucket. */
  lemma {:induction false} RefVolley(cfg: Config, ip: Ip, n: nat)
    requires cfg.Valid() && n <= cfg.limit.burst
    ensures var run := Volley([], ip, 0.0, n);
            && RefPlay(cfg.limit, run)
               == (if n == 0 then map[] else map[ip := Bucket(cfg.limit.burst as real - n as real, 0.0)])
            && RefDecisions(cfg.limit, run) == Granted(n)
  {
    hide *;
    VolleyOne([], ip, 0.0, n);
    NothingYet(cfg, ip, 0.0);
    if n == 0 {
    } else {
      RefVolley(cfg, ip, n - 1);
      PlayRequest(cfg, Volley([], ip, 0.0, n - 1), ip, 0.0);
      RefOfVolley(cfg, ip, RefPlay(cfg.limit, Volley([], ip, 0.0, n - 1)), n - 1);
    }
  }

  // ---------------------------------------------------------------------------
  // burst > 300 * rate
  // ---------------------------------------------------------------------------

  /** Between five minutes and the time an empty bucket needs to fill. */
  function Pause(limit: Limit): real
    requires limit.Valid()
  {
    (300.0 + limit.burst as real / limit.rate) / 2.0
  }

  /** What flows into a bucket during the pause. */
  function Inflow(limit: Limit): real
    requires limit.Valid()
  {
    limit.rate * Pause(limit)
  }

  lemma FillTime(b: real, r: real)
    requires r > 0.0 && b > 300.0 * r
    ensures r * (b / r) == b && b / r > 300.0
  {
    var q := b / r;
    assert r * q == b;
    if q <= 300.0 {
      MulMonotone(r, q, 300.0);
    }
  }

  lemma PauseTooShort(limit: Limit)
    requires limit.Valid() && !limit.RefillsWithinCutoff()
    ensures Pause(limit) > 300.0
    ensures 0.0 < Inflow(limit) < limit.burst as real
  {
    var b, r := limit.burst as real, limit.rate;
    FillTime(b, r);
    var q := b / r;
    MulDistributes(r, 150.0, q / 2.0);
    assert r * (q / 2.0) == b / 2.0;
    assert Pause(limit) == 150.0 + q / 2.0;
  }

  function Drained(cfg: Config, ip: Ip): Run
    requires cfg.Valid()
  {
    Volley([], ip, 0.0, cfg.limit.burst) + [Sweep(Pause(cfg.limit))]
  }

  /** What is left of the second volley's budget, as long as all of it was admitted. */
  ghost predicate Draining(cfg: Config, ip: Ip, run: Run, n: nat)
    requires cfg.Valid()
  {
    var m := RefPlay(cfg.limit, run);
    && ip in m && InRange(cfg.limit, m[ip]) && m[ip].last <= Pause(cfg.limit)
    && (RefDecisions(cfg.limit, run) == Granted(cfg.limit.burst + n) ==>
          Level(cfg.limit, m[ip], Pause(cfg.limit)) == Inflow(cfg.limit) - n as real)
  }

  lemma DrainingStart(cfg: Config, ip: Ip)
    requires cfg.Valid() && !cfg.limit.RefillsWithinCutoff()
    ensures Draining(cfg, ip, Drained(cfg, ip), 0)
  {
    hide Play, RefPlay, RefDecisions, Decisions, Admit, Pause, Volley;
    var at := Pause(cfg.limit);
    PauseTooShort(cfg.limit);
    RefVolley(cfg, ip, cfg.limit.burst);
    PlayOne(cfg, Volley([], ip, 0.0, cfg.limit.burst), Sweep(at));
    EmptyLevel(cfg.limit, at);
    hide Level;
  }

  lemma EmptyLevel(limit: Limit, at: real)
    requires at >= 0.0 && limit.rate * at < limit.burst as real
    ensures Level(limit, Bucket(0.0, 0.0), at) == limit.rate * at
  {
    assert at - 0.0 == at;
  }

  lemma DrainingStep(cfg: Config, ip: Ip, run: Run, n: nat)
    requires cfg.Valid() && Draining(cfg, ip, run, n)
    ensures Draining(cfg, ip, run + [Request(ip, Pause(cfg.limit))], n + 1)
  {
    hide RefPlay, RefDecisions, Pause, Inflow, Allow, Level, Decisions, Play, Admit;
    var at := Pause(cfg.limit);
    var run' := run + [Request(ip, at)];
    var b := RefPlay(cfg.limit, run)[ip];
    PlayOne(cfg, run, Request(ip, at));
    AllowInRange(cfg.limit, b, at);
    AllowConserves(cfg.limit, b, at);
    if RefDecisions(cfg.limit, run') == Granted(cfg.limit.burst + (n + 1)) {
      Repeated(cfg, run, ip, at, cfg.limit.burst + (n + 1));
    }
  }

  /** The reference still remembers the first volley: as long as it has admitted all of the
      second one, its level is what flowed in minus what was taken. */
  lemma {:induction false} RefSecondVolley(cfg: Config, ip: Ip, n: nat)
    requires cfg.Valid() && !cfg.limit.RefillsWithinCutoff()
    ensures Draining(cfg, ip, Volley(Drained(cfg, ip), ip, Pause(cfg.limit), n), n)
  {
    hide Draining, Pause, Drained;
    if n == 0 {
      DrainingStart(cfg, ip);
    } else {
      RefSecondVolley(cfg, ip, n - 1);
      DrainingStep(cfg, ip, Volley(Drained(cfg, ip), ip, Pause(cfg.limit), n - 1), n - 1);
    }
  }

  lemma Repeated(cfg: Config, run: Run, ip: Ip, at: real, k: nat)
    requires k > 0
    requires RefDecisions(cfg.limit, run + [Request(ip, at)]) == Granted(k)
    ensures RefDecisions(cfg.limit, run) == Granted(k - 1)
    ensures Allow(cfg.limit, BucketOf(cfg.limit, RefPlay(cfg.limit, run), ip, at), at).0
  {
    PlayOne(cfg, run, Request(ip, at));
    hide RefPlay, RefDecisions, Allow, BucketOf;
    var d := RefDecisions(cfg.limit, run + [Request(ip, at)]);
    assert RefDecisions(cfg.limit, run) == d[..|d| - 1];
    assert d[|d| - 1];
  }

  function TooBursty(cfg: Config, ip: Ip): Run
    requires cfg.Valid()
  {
    Volley(Drained(cfg, ip), ip, Pause(cfg.limit), cfg.limit.burst)
  }

  lemma DrainedTable(cfg: Config, ip: Ip)
    requires cfg.Valid() && !cfg.limit.RefillsWithinCutoff()
    ensures Play(cfg, [], Drained(cfg, ip)) == []
    ensures Decisions(cfg, Drained(cfg, ip)) == Granted(cfg.limit.burst)
  {
    hide Decisions, Play, RefPlay, RefDecisions, Volley, Pause, Granted, Admit, Allow;
    var b := cfg.limit.burst;
    NothingYet(cfg, ip, 0.0);
    PauseTooShort(cfg.limit);
    VolleyFromEmpty(cfg, [], ip, 0.0, b);
    PlayOne(cfg, Volley([], ip, 0.0, b), Sweep(Pause(cfg.limit)));
    assert Expire(AfterVolley(cfg, ip, 0.0, b), Pause(cfg.limit) - 300.0) == [];
  }

  lemma TooBurstyTable(cfg: Config, ip: Ip)
    requires cfg.Valid() && !cfg.limit.RefillsWithinCutoff()
    ensures Decisions(cfg, TooBursty(cfg, ip)) == Granted(cfg.limit.burst + cfg.limit.burst)
  {
    hide Decisions, Play, Volley, Drained, Pause, Granted;
    DrainedTable(cfg, ip);
    VolleyFromEmpty(cfg, Drained(cfg, ip), ip, Pause(cfg.limit), cfg.limit.burst);
    GrantedSum(cfg.limit.burst, cfg.limit.burst);
  }

  lemma LevelNotNegative(limit: Limit, b: Bucket, now: real)
    requires limit.Valid() && InRange(limit, b) && b.last <= now
    ensures Level(limit, b, now) >= 0.0
  {
    MulMonotone(limit.rate, 0.0, now - b.last);
  }

  /** Decisions differ: the reference cannot have admitted the whole second volley. */
  lemma TooBurstyDiffers(cfg: Config, ip: Ip)
    requires cfg.Valid() && !cfg.limit.RefillsWithinCutoff()
    ensures Decisions(cfg, TooBursty(cfg, ip)) != RefDecisions(cfg.limit, TooBursty(cfg, ip))
  {
    hide Decisions, RefDecisions, RefPlay, Play, Pause, Inflow, Volley, Drained, Level, Granted;
    var run := TooBursty(cfg, ip);
    TooBurstyTable(cfg, ip);
    RefSecondVolley(cfg, ip, cfg.limit.burst);
    PauseTooShort(cfg.limit);
    LevelNotNegative(cfg.limit, RefPlay(cfg.limit, run)[ip], Pause(cfg.limit));
  }

  lemma {:induction false} VolleyEvents(run: Run, ip: Ip, at: real, n: nat)
    requires Ordered(run) && forall e :: e in run ==> e.at <= at
    ensures var run' := Volley(run, ip, at, n);
            && Ordered(run')
            && (forall e :: e in run' ==> e in run || e == Request(ip, at))
  {
    if n == 0 {
    } else {
      VolleyEvents(run, ip, at, n - 1);
    }
  }

  /** The counterexample is ordinary traffic: one IP, events in order. */
  lemma TooBurstyIsTraffic(cfg: Config, ip: Ip)
    requires cfg.Valid() && !cfg.limit.RefillsWithinCutoff()
    ensures Ordered(TooBursty(cfg, ip)) && WindowBounded(TooBursty(cfg, ip), cfg.maxIPs)
  {
    PauseTooShort(cfg.limit);
    VolleyEvents([], ip, 0.0, cfg.limit.burst);
    VolleyEvents(Drained(cfg, ip), ip, Pause(cfg.limit), cfg.limit.burst);
    var run := TooBursty(cfg, ip);
    forall lo: real ensures |FiveMinutes(run, lo)| <= cfg.maxIPs {
      SubsetSize(FiveMinutes(run, lo), {ip});
    }
  }

  ghost predicate Agrees(cfg: Config, run: Run) {
    Decisions(cfg, run) == RefDecisions(cfg.limit, run)
  }

  /** The exact condition on the settings: every window-bounded run gets the reference's
      answers if and only if an empty bucket refills within the five-minute cutoff. */
  lemma AgreementIff(cfg: Config)
    requires cfg.Valid()
    ensures (forall run :: Ordered(run) && WindowBounded(run, cfg.maxIPs) ==> Agrees(cfg, run))
       <==> cfg.limit.RefillsWithinCutoff()
  {
    if cfg.limit.RefillsWithinCutoff() {
      forall run | Ordered(run) && WindowBounded(run, cfg.maxIPs) ensures Agrees(cfg, run) {
        RateAgreement.Agreement(cfg, run);
      }
    } else {
      TooBurstyIsTraffic(cfg, "");
      TooBurstyDiffers(cfg, "");
      assert !Agrees(cfg, TooBursty(cfg, ""));
    }
  }

  // ---------------------------------------------------------------------------
  // One IP too many
  // ---------------------------------------------------------------------------

  function Name(k: nat): Ip {
    seq(k, i => 'x')
  }

  lemma NamesDiffer(j: nat, k: nat)
    requires j != k
    ensures Name(j) != Name(k)
  {
    assert |Name(j)| == j && |Name(k)| == k;
  }

  /** The first IP uses up its burst, then `k` newcomers arrive at the same instant. */
  function Crowd(cfg: Config, k: nat): Run {
    if k == 0 then Volley([], Name(0), 0.0, cfg.limit.burst)
    else Crowd(cfg, k - 1) + [Request(Name(k), 0.0)]
  }

  lemma CrowdOne(cfg: Config, k: nat)
    ensures k == 0 ==> Crowd(cfg, k) == Volley([], Name(0), 0.0, cfg.limit.burst)
    ensures k > 0 ==> Crowd(cfg, k) == Crowd(cfg, k - 1) + [Request(Name(k), 0.0)]
  {
  }

  ghost predicate InArrivalOrder(t: Table, k: nat) {
    |t| == k + 1 && forall j :: 0 <= j <= k ==> t[j].ip == Name(k - j)
  }

  lemma {:induction false} CrowdTable(cfg: Config, k: nat)
    requires cfg.Valid() && k < cfg.maxIPs
    ensures InArrivalOrder(Play(cfg, [], Crowd(cfg, k)), k)
  {
    hide *;
    CrowdOne(cfg, k);
    if k == 0 {
      NothingYet(cfg, Name(0), 0.0);
      VolleyFromEmpty(cfg, [], Name(0), 0.0, cfg.limit.burst);
      FirstAlone(cfg);
    } else {
      CrowdTable(cfg, k - 1);
      PlayRequest(cfg, Crowd(cfg, k - 1), Name(k), 0.0);
      Newcomer(cfg, Play(cfg, [], Crowd(cfg, k - 1)), k - 1);
    }
  }

  lemma FirstAlone(cfg: Config)
    requires cfg.Valid()
    ensures InArrivalOrder(AfterVolley(cfg, Name(0), 0.0, cfg.limit.burst), 0)
  {
  }

  lemma Newcomer(cfg: Config, t: Table, k: nat)
    requires InArrivalOrder(t, k) && k + 1 < cfg.maxIPs
    ensures InArrivalOrder(Admit(cfg, t, Name(k + 1), 0.0).1, k + 1)
  {
    NewcomerMissing(t, k);
    hide Lookup, Allow, Name;
  }

  lemma NewcomerMissing(t: Table, k: nat)
    requires InArrivalOrder(t, k)
    ensures Lookup(t, Name(k + 1)) == |t|
  {
    forall j | 0 <= j < |t| ensures t[j].ip != Name(k + 1) {
      NamesDiffer(k - j, k + 1);
    }
    LookupMissing(t, Name(k + 1));
  }

  /** Refused by the reference, whatever else happened at that instant. */
  lemma {:induction false} CrowdReference(cfg: Config, k: nat)
    requires cfg.Valid()
    ensures var m := RefPlay(cfg.limit, Crowd(cfg, k));
            Name(0) in m && m[Name(0)] == Bucket(0.0, 0.0)
  {
    hide Play, Decisions, RefDecisions, RefPlay, Admit, Name, Allow;
    if k == 0 {
      RefVolley(cfg, Name(0), cfg.limit.burst);
    } else {
      CrowdReference(cfg, k - 1);
      PlayOne(cfg, Crowd(cfg, k - 1), Request(Name(k), 0.0));
      NamesDiffer(0, k);
    }
  }

  function OneTooMany(cfg: Config): Run {
    Crowd(cfg, cfg.maxIPs) + [Request(Name(0), 0.0)]
  }

  /** With `maxIPs` newcomers the first IP has been evicted: the table gives it a fresh
      bucket where the reference refuses. */
  lemma OneTooManyDiffers(cfg: Config)
    requires cfg.Valid()
    ensures !Agrees(cfg, OneTooMany(cfg))
  {
    hide Decisions, RefDecisions, Play, RefPlay, Name, Admit, Allow, Has;
    var k := cfg.maxIPs;
    CrowdTable(cfg, k - 1);
    FirstIsGone(cfg, Play(cfg, [], Crowd(cfg, k - 1)));
    PlayOne(cfg, Crowd(cfg, k - 1), Request(Name(k), 0.0));
    FreshIsAdmitted(cfg, Play(cfg, [], Crowd(cfg, k)), Name(0));
    CrowdReference(cfg, k);
    SpentIsRefused(cfg.limit);
    LastAnswerDiffers(cfg, Crowd(cfg, k), Request(Name(0), 0.0));
  }

  lemma LastAnswerDiffers(cfg: Config, run: Run, e: Event)
    requires e.Request?
    requires Answer(cfg, Play(cfg, [], run), e) != RefAnswer(cfg.limit, RefPlay(cfg.limit, run), e)
    ensures !Agrees(cfg, run + [e])
  {
    hide Decisions, RefDecisions, Play, RefPlay, Admit, Allow, BucketOf;
    PlayOne(cfg, run, e);
    SameLength(cfg, run);
    var d, r := Decisions(cfg, run + [e]), RefDecisions(cfg.limit, run + [e]);
    var x, y := Answer(cfg, Play(cfg, [], run), e), RefAnswer(cfg.limit, RefPlay(cfg.limit, run), e);
    assert d[|d| - 1] == x[0] && r[|r| - 1] == y[0];
  }

  lemma FreshIsAdmitted(cfg: Config, t: Table, ip: Ip)
    requires cfg.Valid() && !Has(t, ip)
    ensures Admit(cfg, t, ip, 0.0).0
  {
    TakeOne(cfg.limit, cfg.limit.burst as real, 0.0);
  }

  lemma SpentIsRefused(limit: Limit)
    ensures !Allow(limit, Bucket(0.0, 0.0), 0.0).0
  {
    assert limit.rate * 0.0 == 0.0;
  }

  lemma FirstIsGone(cfg: Config, t: Table)
    requires cfg.Valid() && InArrivalOrder(t, cfg.maxIPs - 1)
    ensures !Has(Admit(cfg, t, Name(cfg.maxIPs), 0.0).1, Name(0))
  {
    var k := cfg.maxIPs;
    NewcomerMissing(t, k - 1);
    NamesDiffer(0, k);
    hide Allow, Lookup;
    var t' := Admit(cfg, t, Name(k), 0.0).1;
    forall j | 0 <= j < |t'| ensures t'[j].ip != Name(0) {
      if j > 0 {
        NamesDiffer(0, k - j);
      }
    }
    LookupMissing(t', Name(0));
  }

  ghost function Names(k: nat): set<Ip> {
    if k == 0 then {Name(0)} else Names(k - 1) + {Name(k)}
  }

  lemma {:induction false} CrowdEvents(cfg: Config, k: nat)
    ensures forall e :: e in Crowd(cfg, k) ==> e.Request? && e.at == 0.0 && e.ip in Names(k)
    ensures Name(0) in Names(k)
  {
    if k == 0 {
      VolleyEvents([], Name(0), 0.0, cfg.limit.burst);
    } else {
      CrowdEvents(cfg, k - 1);
    }
  }

  lemma {:induction false} NamesCount(k: nat)
    ensures |Names(k)| <= k + 1
  {
    if k == 0 {
    } else {
      NamesCount(k - 1);
    }
  }

  lemma OneTooManyIsTraffic(cfg: Config)
    ensures Ordered(OneTooMany(cfg)) && WindowBounded(OneTooMany(cfg), cfg.maxIPs + 1)
  {
    hide Crowd, Names, Name;
    CrowdEvents(cfg, cfg.maxIPs);
    NamesCount(cfg.maxIPs);
    forall lo: real ensures |FiveMinutes(OneTooMany(cfg), lo)| <= cfg.maxIPs + 1 {
      SubsetSize(FiveMinutes(OneTooMany(cfg), lo), Names(cfg.maxIPs));
    }
  }

  /** Nor can the window condition be relaxed by a single IP, for any settings. */
  lemma WindowBoundIsSharp(cfg: Config)
    requires cfg.Valid()
    ensures exists run :: Ordered(run) && WindowBounded(run, cfg.maxIPs + 1) && !Agrees(cfg, run)
  {
    hide *;
    OneTooManyDiffers(cfg);
    OneTooManyIsTraffic(cfg);
  }
}
