/** The gateway's request limiter: a strict table for the configured path prefix, tried
    first, and a general table for everything that gets past it. */
module GatewayLimits {
  import opened TokenBucket
  import opened RecencyTable
  import opened RateRuns
  import opened RateAgreement
  import opened RateExact
  import opened IpTables

  datatype Settings = Settings(general: Config, auth: Config, authPrefix: string) {
    /** Start-up validation; both tables share the MaxIPs setting, and the strict limit
        must be sensible only when a prefix is configured. */
    predicate Valid() {
      && general.Valid()
      && auth.maxIPs == general.maxIPs
      && (authPrefix != "" ==> auth.limit.Valid())
    }

    predicate Strict(path: string) {
      authPrefix != "" && authPrefix <= path
    }
  }

  /** The path is one the strict limit is for: the configured prefix, and anything after it. */
  ghost predicate UnderPrefix(s: Settings, path: string) {
    s.authPrefix != "" && exists rest: string :: path == s.authPrefix + rest
  }

  lemma StrictExactly(s: Settings, path: string)
    ensures s.Strict(path) <==> UnderPrefix(s, path)
  {
    if s.Strict(path) {
      assert path == s.authPrefix + path[|s.authPrefix|..];
    }
  }

  datatype Decision = Pass | AuthLimited | GeneralLimited

  datatype Tables = Tables(general: Table, auth: Table)

  /** One request through the middleware. */
  function Handle(s: Settings, g: Tables, ip: Ip, path: string, at: real): (Decision, Tables) {
    var (authOk, auth) := if s.Strict(path) then Admit(s.auth, g.auth, ip, at) else (true, g.auth);
    if !authOk then (AuthLimited, Tables(g.general, auth))
    else
      var (ok, general) := Admit(s.general, g.general, ip, at);
      (if ok then Pass else GeneralLimited, Tables(general, auth))
  }

  function SweepBoth(g: Tables, at: real): Tables {
    Tables(Expire(g.general, at - 300.0), Expire(g.auth, at - 300.0))
  }

  // ---------------------------------------------------------------------------
  // The shared object
  // ---------------------------------------------------------------------------

  class RateLimiter {
    const general: IpTable
    const auth: IpTable
    const settings: Settings

    ghost predicate Valid()
      reads this, general, general.Repr, auth, auth.Repr
    {
      && general.Valid() && auth.Valid()
      && general.Repr !! auth.Repr && this !in general.Repr && this !in auth.Repr
      && general.limit == settings.general.limit && auth.limit == settings.auth.limit
    }

    ghost function View(): Tables
      reads general, auth
    {
      Tables(general.contents, auth.contents)
    }

    constructor (settings: Settings)
      ensures Valid() && View() == Tables([], []) && this.settings == settings
      ensures fresh(general.Repr) && fresh(auth.Repr)
    {
      this.settings := settings;
      general := new IpTable(settings.general.limit);
      auth := new IpTable(settings.auth.limit);
    }

    /** The middleware: the strict limit first, then the general one. */
    method Limit(ip: Ip, path: string, now: real) returns (d: Decision)
      requires Valid()
      modifies general.Repr, auth.Repr
      ensures Valid() && fresh(general.Repr - old(general.Repr)) && fresh(auth.Repr - old(auth.Repr))
      ensures (d, View()) == Handle(settings, old(View()), ip, path, now)
    {
      hide IpTable.Valid, Admit;
      if settings.Strict(path) {
        var authOk := auth.Allow(settings.auth, ip, now);
        if !authOk {
          return AuthLimited;
        }
      }
      var ok := general.Allow(settings.general, ip, now);
      d := if ok then Pass else GeneralLimited;
    }

    /** One tick of the cleanup goroutine: entries idle for over five minutes go. */
    method Cleanup(now: real)
      requires Valid() && Sorted(general.contents) && Sorted(auth.contents)
      modifies general.Repr, auth.Repr
      ensures Valid() && general.Repr == old(general.Repr) && auth.Repr == old(auth.Repr)
      ensures View() == SweepBoth(old(View()), now)
    {
      hide IpTable.Valid, Sorted, Expire;
      var _ := general.CleanupExpired(now - 300.0);
      var _ := auth.CleanupExpired(now - 300.0);
    }
  }

  // ---------------------------------------------------------------------------
  // Runs of the middleware
  // ---------------------------------------------------------------------------

  datatype HttpEvent =
    | Http(ip: Ip, path: string, at: real)
    | Tick(at: real)

  type Traffic = seq<HttpEvent>

  function Most(run: Traffic): Traffic
    requires run != []
  {
    run[..|run| - 1]
  }

  function Newest(run: Traffic): HttpEvent
    requires run != []
  {
    run[|run| - 1]
  }

  function Move(s: Settings, g: Tables, e: HttpEvent): Tables {
    match e
    case Http(ip, path, at) => Handle(s, g, ip, path, at).1
    case Tick(at) => SweepBoth(g, at)
  }

  function Replay(s: Settings, g: Tables, run: Traffic): Tables
    decreases |run|
  {
    if run == [] then g else Move(s, Replay(s, g, Most(run)), Newest(run))
  }

  /** The requests the strict table sees. */
  function AuthRun(s: Settings, run: Traffic): Run
    decreases |run|
  {
    if run == [] then [] else AuthRun(s, Most(run)) + AuthPart(s, Newest(run))
  }

  function AuthPart(s: Settings, e: HttpEvent): Run {
    match e
    case Http(ip, path, at) => if s.Strict(path) then [Request(ip, at)] else []
    case Tick(at) => [Sweep(at)]
  }

  /** The requests the general table sees: those the strict table let through. */
  function GeneralRun(s: Settings, g: Tables, run: Traffic): Run
    decreases |run|
  {
    if run == [] then [] else GeneralRun(s, g, Most(run)) + GeneralPart(s, Replay(s, g, Most(run)), Newest(run))
  }

  function GeneralPart(s: Settings, g: Tables, e: HttpEvent): Run {
    match e
    case Http(ip, path, at) => if Handle(s, g, ip, path, at).0 == AuthLimited then [] else [Request(ip, at)]
    case Tick(at) => [Sweep(at)]
  }

  ghost predicate InOrder(run: Traffic) {
    forall i, j :: 0 <= i < j < |run| ==> run[i].at <= run[j].at
  }

  ghost predicate During(run: Traffic, lo: real, hi: real) {
    lo <= hi && forall i :: 0 <= i < |run| ==> lo <= run[i].at <= hi
  }

  lemma MostDuring(run: Traffic, lo: real, hi: real)
    requires run != [] && InOrder(run) && During(run, lo, hi)
    ensures InOrder(Most(run)) && During(Most(run), lo, Newest(run).at)
    ensures lo <= Newest(run).at <= hi && |Most(run)| < |run|
  {
  }

  lemma PlayMore(cfg: Config, t: Table, run: Run, more: Run, ip: Ip)
    requires |more| <= 1
    ensures Play(cfg, t, run + more) == if more == [] then Play(cfg, t, run) else Step(cfg, Play(cfg, t, run), more[0])
    ensures Admitted(cfg, t, run + more, ip) - Admitted(cfg, t, run, ip)
         == if more == [] then 0 else Paid(cfg, Play(cfg, t, run), more[0], ip)
  {
    hide Step, Paid;
    if more == [] {
      assert run + more == run;
    } else {
      assert Init(run + more) == run && Last(run + more) == more[0];
    }
  }

  lemma Unfold(s: Settings, g: Tables, run: Traffic)
    requires run != []
    ensures Replay(s, g, run) == Move(s, Replay(s, g, Most(run)), Newest(run))
    ensures AuthRun(s, run) == AuthRun(s, Most(run)) + AuthPart(s, Newest(run))
    ensures GeneralRun(s, g, run)
         == GeneralRun(s, g, Most(run)) + GeneralPart(s, Replay(s, g, Most(run)), Newest(run))
    ensures |Most(run)| < |run|
  {
  }

  lemma Nothing(s: Settings, g: Tables)
    ensures Replay(s, g, []) == g && AuthRun(s, []) == [] && GeneralRun(s, g, []) == []
    ensures Play(s.auth, g.auth, []) == g.auth && Play(s.general, g.general, []) == g.general
  {
  }

  lemma MoveShares(s: Settings, g: Tables, e: HttpEvent)
    ensures var a := AuthPart(s, e);
            |a| <= 1 && Move(s, g, e).auth == if a == [] then g.auth else Step(s.auth, g.auth, a[0])
    ensures var p := GeneralPart(s, g, e);
            |p| <= 1 && Move(s, g, e).general == if p == [] then g.general else Step(s.general, g.general, p[0])
  {
    hide Admit, Expire;
  }

  /** Each table just plays its own share of the traffic. */
  lemma {:induction false} Shares(s: Settings, g: Tables, run: Traffic)
    ensures Replay(s, g, run).auth == Play(s.auth, g.auth, AuthRun(s, run))
    ensures Replay(s, g, run).general == Play(s.general, g.general, GeneralRun(s, g, run))
    decreases |run|
  {
    hide *;
    if run == [] {
      Nothing(s, g);
    } else {
      var before, e := Most(run), Newest(run);
      Unfold(s, g, run);
      Shares(s, g, before);
      MoveShares(s, Replay(s, g, before), e);
      PlayMore(s.auth, g.auth, AuthRun(s, before), AuthPart(s, e), "");
      PlayMore(s.general, g.general, GeneralRun(s, g, before), GeneralPart(s, Replay(s, g, before), e), "");
    }
  }

  // ---------------------------------------------------------------------------
  // Both rate bounds
  // ---------------------------------------------------------------------------

  /** Every path that continues the prefix, the bare prefix included, is charged to the strict
      table, and refused on its word alone. */
  lemma PrefixIsCharged(s: Settings, g: Tables, ip: Ip, rest: string, at: real)
    requires s.authPrefix != ""
    ensures var path := s.authPrefix + rest;
            && AuthRun(s, [Http(ip, path, at)]) == [Request(ip, at)]
            && Handle(s, g, ip, path, at).1.auth == Admit(s.auth, g.auth, ip, at).1
            && (Handle(s, g, ip, path, at).0 == AuthLimited <==> !Admit(s.auth, g.auth, ip, at).0)
  {
    StrictExactly(s, s.authPrefix + rest);
    hide Admit, Settings.Strict;
    var run := [Http(ip, s.authPrefix + rest, at)];
    assert Most(run) == [] && AuthRun(s, Most(run)) == [];
  }

  /** No other path touches the strict table. */
  lemma OthersAreNotCharged(s: Settings, g: Tables, ip: Ip, path: string, at: real)
    requires s.authPrefix == "" || forall rest: string :: path != s.authPrefix + rest
    ensures AuthRun(s, [Http(ip, path, at)]) == []
    ensures Handle(s, g, ip, path, at).1.auth == g.auth && Handle(s, g, ip, path, at).0 != AuthLimited
  {
    StrictExactly(s, path);
    hide Admit, Settings.Strict;
    var run := [Http(ip, path, at)];
    assert Most(run) == [] && AuthRun(s, Most(run)) == [];
  }

  /** What the middleware decides after any traffic, told by counts and times: under the prefix a
      request is refused if the strict ledger has no room for it; otherwise it is refused if the
      general ledger has none, and passes if it has. */
  lemma DecidesExactly(s: Settings, run: Traffic, ip: Ip, path: string, start: real, now: real)
    requires s.Valid() && InOrder(run) && During(run, start, now)
    ensures var g := Tables([], []);
            var d := Handle(s, Replay(s, g, run), ip, path, now).0;
            var authRoom := RoomForOne(s.auth.limit, LedgerOf(s.auth, AuthRun(s, run), ip), now);
            var room := RoomForOne(s.general.limit, LedgerOf(s.general, GeneralRun(s, g, run), ip), now);
            d == if UnderPrefix(s, path) && !authRoom then AuthLimited else if room then Pass else GeneralLimited
  {
    var g := Tables([], []);
    SharesInOrder(s, g, run, start, now);
    Shares(s, g, run);
    StrictExactly(s, path);
    TableAdmitsExactly(s.general, GeneralRun(s, g, run), ip, start, now);
    if s.authPrefix != "" {
      TableAdmitsExactly(s.auth, AuthRun(s, run), ip, start, now);
    }
    hide Settings.Strict, Admit, RoomForOne, LedgerOf, Play, Replay, AuthRun, GeneralRun;
  }

  /** Requests of `ip` that get through, counting only those under the prefix if asked to. */
  ghost function Passed(s: Settings, g: Tables, run: Traffic, ip: Ip, strictOnly: bool): nat
    decreases |run|
  {
    if run == [] then 0
    else
      Passed(s, g, Most(run), ip, strictOnly)
      + PassedNow(s, Replay(s, g, Most(run)), Newest(run), ip, strictOnly)
  }

  ghost function PassedNow(s: Settings, g: Tables, e: HttpEvent, ip: Ip, strictOnly: bool): nat {
    match e
    case Http(x, path, at) =>
      if x == ip && Handle(s, g, x, path, at).0 == Pass && (strictOnly ==> UnderPrefix(s, path)) then 1 else 0
    case Tick(_) => 0
  }

  /** What gets through was admitted by the general table, and by the strict table as well
      if its path is under the prefix. */
  lemma {:induction false} PassedIsAdmitted(s: Settings, g: Tables, run: Traffic, ip: Ip)
    ensures Passed(s, g, run, ip, false) == Admitted(s.general, g.general, GeneralRun(s, g, run), ip)
    ensures Passed(s, g, run, ip, true) <= Admitted(s.auth, g.auth, AuthRun(s, run), ip)
    decreases |run|
  {
    hide Play, Admit, Admitted;
    if run == [] {
      NothingAdmitted(s, g, ip);
    } else {
      PassedIsAdmitted(s, g, Most(run), ip);
      Shares(s, g, Most(run));
      if Newest(run).Http? {
        StrictExactly(s, Newest(run).path);
      }
      PlayMore(s.auth, g.auth, AuthRun(s, Most(run)), AuthPart(s, Newest(run)), ip);
      PlayMore(s.general, g.general, GeneralRun(s, g, Most(run)),
               GeneralPart(s, Replay(s, g, Most(run)), Newest(run)), ip);
    }
  }

  lemma NothingAdmitted(s: Settings, g: Tables, ip: Ip)
    ensures Admitted(s.general, g.general, [], ip) == 0 && Admitted(s.auth, g.auth, [], ip) == 0
  {
  }

  lemma OneMore(run: Run, more: Run, lo: real, mid: real, hi: real)
    requires Ordered(run) && Within(run, lo, mid) && mid <= hi
    requires |more| <= 1 && (more != [] ==> more[0].at == mid)
    ensures Ordered(run + more) && Within(run + more, lo, hi)
  {
  }

  lemma PartTimes(s: Settings, g: Tables, e: HttpEvent)
    ensures |AuthPart(s, e)| <= 1 && (AuthPart(s, e) != [] ==> AuthPart(s, e)[0].at == e.at)
    ensures |GeneralPart(s, g, e)| <= 1 && (GeneralPart(s, g, e) != [] ==> GeneralPart(s, g, e)[0].at == e.at)
  {
  }

  lemma {:induction false} SharesInOrder(s: Settings, g: Tables, run: Traffic, lo: real, hi: real)
    requires InOrder(run) && During(run, lo, hi)
    ensures Ordered(AuthRun(s, run)) && Within(AuthRun(s, run), lo, hi)
    ensures Ordered(GeneralRun(s, g, run)) && Within(GeneralRun(s, g, run), lo, hi)
    decreases |run|
  {
    if run == [] {
    } else {
      hide *;
      var before, e := Most(run), Newest(run);
      MostDuring(run, lo, hi);
      Unfold(s, g, run);
      SharesInOrder(s, g, before, lo, e.at);
      PartTimes(s, Replay(s, g, before), e);
      OneMore(AuthRun(s, before), AuthPart(s, e), lo, e.at, hi);
      OneMore(GeneralRun(s, g, before), GeneralPart(s, Replay(s, g, before), e), lo, e.at, hi);
    }
  }

  /** Whatever the traffic between `start` and `now`: everything that gets through obeys the
      general bound, and what gets through under the strict prefix obeys the strict one too. */
  lemma BothBounds(s: Settings, g: Tables, run: Traffic, ip: Ip, start: real, now: real)
    requires s.Valid() && InOrder(run) && During(run, start, now)
    requires WellFormed(s.general, g.general, start) && WellFormed(s.auth, g.auth, start)
    ensures Passed(s, g, run, ip, false) as real
         <= Allowance(s.general.limit, Removals(s.general, g.general, GeneralRun(s, g, run), ip), now - start)
    ensures s.authPrefix != "" ==>
         Passed(s, g, run, ip, true) as real
         <= Allowance(s.auth.limit, Removals(s.auth, g.auth, AuthRun(s, run), ip), now - start)
  {
    hide Passed, Removals, Admitted, Allowance, InOrder, During, Ordered, Within, WellFormed, GeneralRun, AuthRun;
    SharesInOrder(s, g, run, start, now);
    PassedIsAdmitted(s, g, run, ip);
    RateBound(s.general, g.general, GeneralRun(s, g, run), ip, start, now);
    if s.authPrefix != "" {
      RateBound(s.auth, g.auth, AuthRun(s, run), ip, start, now);
    }
  }

  /** Both tables keep the table invariant through every run of the middleware, so the sweep
      always finds them sorted. */
  lemma BothWellFormed(s: Settings, run: Traffic, start: real, now: real)
    requires s.Valid() && InOrder(run) && During(run, start, now)
    ensures var g := Replay(s, Tables([], []), run);
            WellFormed(s.general, g.general, now) && WellFormed(s.auth, g.auth, now)
  {
    hide Play, Replay, GeneralRun, AuthRun, InOrder, During, Ordered, Within;
    var g := Tables([], []);
    SharesInOrder(s, g, run, start, now);
    Shares(s, g, run);
    PlayWellFormed(s.general, [], GeneralRun(s, g, run), start, now);
    if s.authPrefix != "" {
      PlayWellFormed(s.auth, [], AuthRun(s, run), start, now);
    } else {
      StrictTableUnused(s, run);
    }
  }

  lemma {:induction false} StrictTableUnused(s: Settings, run: Traffic)
    requires s.authPrefix == ""
    ensures Replay(s, Tables([], []), run).auth == []
    decreases |run|
  {
    if run == [] {
    } else {
      StrictTableUnused(s, Most(run));
      hide Admit;
    }
  }

  // ---------------------------------------------------------------------------
  // Agreement of the whole middleware
  // ---------------------------------------------------------------------------

  /** Two unbounded maps in place of the two tables. */
  datatype Unbounded = Unbounded(general: Buckets, auth: Buckets)

  function RefHandle(s: Settings, u: Unbounded, ip: Ip, path: string, at: real): (Decision, Unbounded) {
    var strict := s.Strict(path);
    var (authOk, b) := Allow(s.auth.limit, BucketOf(s.auth.limit, u.auth, ip, at), at);
    var auth := if strict then u.auth[ip := b] else u.auth;
    if strict && !authOk then (AuthLimited, Unbounded(u.general, auth))
    else
      var (ok, b) := Allow(s.general.limit, BucketOf(s.general.limit, u.general, ip, at), at);
      (if ok then Pass else GeneralLimited, Unbounded(u.general[ip := b], auth))
  }

  function RefMove(s: Settings, u: Unbounded, e: HttpEvent): Unbounded {
    match e
    case Http(ip, path, at) => RefHandle(s, u, ip, path, at).1
    case Tick(_) => u
  }

  function RefReplay(s: Settings, run: Traffic): Unbounded
    decreases |run|
  {
    if run == [] then Unbounded(map[], map[]) else RefMove(s, RefReplay(s, Most(run)), Newest(run))
  }

  function Outcome(s: Settings, g: Tables, e: HttpEvent): seq<Decision> {
    match e
    case Http(ip, path, at) => [Handle(s, g, ip, path, at).0]
    case Tick(_) => []
  }

  function RefOutcome(s: Settings, u: Unbounded, e: HttpEvent): seq<Decision> {
    match e
    case Http(ip, path, at) => [RefHandle(s, u, ip, path, at).0]
    case Tick(_) => []
  }

  function Outcomes(s: Settings, run: Traffic): seq<Decision>
    decreases |run|
  {
    if run == [] then []
    else Outcomes(s, Most(run)) + Outcome(s, Replay(s, Tables([], []), Most(run)), Newest(run))
  }

  function RefOutcomes(s: Settings, run: Traffic): seq<Decision>
    decreases |run|
  {
    if run == [] then [] else RefOutcomes(s, Most(run)) + RefOutcome(s, RefReplay(s, Most(run)), Newest(run))
  }

  ghost function Visitors(run: Traffic, lo: real): set<Ip> {
    set e | e in run && e.Http? && lo <= e.at <= lo + 300.0 :: e.ip
  }

  /** No closed five-minute window sees requests from more than `maxIPs` IPs. */
  ghost predicate FewVisitors(run: Traffic, maxIPs: nat) {
    forall lo: real :: |Visitors(run, lo)| <= maxIPs
  }

  lemma {:induction false} SharesVisitors(s: Settings, g: Tables, run: Traffic)
    ensures forall x :: x in AuthRun(s, run) && x.Request? ==>
              exists e :: e in run && e.Http? && e.ip == x.ip && e.at == x.at
    ensures forall x :: x in GeneralRun(s, g, run) && x.Request? ==>
              exists e :: e in run && e.Http? && e.ip == x.ip && e.at == x.at
    decreases |run|
  {
    if run == [] {
    } else {
      SharesVisitors(s, g, Most(run));
      hide Handle, Replay;
      assert Newest(run) in run && forall e :: e in Most(run) ==> e in run;
    }
  }

  lemma SharesBounded(s: Settings, g: Tables, run: Traffic, maxIPs: nat)
    requires FewVisitors(run, maxIPs)
    ensures WindowBounded(AuthRun(s, run), maxIPs) && WindowBounded(GeneralRun(s, g, run), maxIPs)
  {
    SharesVisitors(s, g, run);
    hide AuthRun, GeneralRun;
    forall lo: real
      ensures |FiveMinutes(AuthRun(s, run), lo)| <= maxIPs && |FiveMinutes(GeneralRun(s, g, run), lo)| <= maxIPs
    {
      SubsetSize(FiveMinutes(AuthRun(s, run), lo), Visitors(run, lo));
      SubsetSize(FiveMinutes(GeneralRun(s, g, run), lo), Visitors(run, lo));
    }
  }

  lemma FewerVisitors(run: Traffic, maxIPs: nat)
    requires run != [] && FewVisitors(run, maxIPs)
    ensures FewVisitors(Most(run), maxIPs)
  {
    forall lo: real ensures |Visitors(Most(run), lo)| <= maxIPs {
      SubsetSize(Visitors(Most(run), lo), Visitors(run, lo));
    }
  }

  /** `t` and `m` have played `run`; `more` is at most one further event. */
  lemma ShareMirrors(cfg: Config, run: Run, more: Run, at: real, start: real)
    requires cfg.Valid() && cfg.limit.RefillsWithinCutoff() && |more| <= 1
    requires Ordered(run) && Within(run, start, at) && WindowBounded(run + more, cfg.maxIPs)
    requires more != [] ==> more[0].at == at
    requires Mirrors(cfg.limit, Play(cfg, [], run), RefPlay(cfg.limit, run), at)
    ensures var t, m := Play(cfg, [], run), RefPlay(cfg.limit, run);
            && (more != [] ==> Answer(cfg, t, more[0]) == RefAnswer(cfg.limit, m, more[0]))
            && Mirrors(cfg.limit, Play(cfg, [], run + more), RefPlay(cfg.limit, run + more), at)
  {
    hide *;
    if more == [] {
      assert run + more == run;
    } else {
      assert more == [more[0]];
      StepMirrors(cfg, run, more[0], start);
      PlayOne(cfg, run, more[0]);
    }
  }

  /** Where the two middlewares stand after the same traffic. */
  ghost predicate InStep(s: Settings, run: Traffic, now: real) {
    var g, u := Tables([], []), RefReplay(s, run);
    && Outcomes(s, run) == RefOutcomes(s, run)
    && u.general == RefPlay(s.general.limit, GeneralRun(s, g, run))
    && Mirrors(s.general.limit, Play(s.general, [], GeneralRun(s, g, run)), u.general, now)
    && (s.authPrefix != "" ==>
          && u.auth == RefPlay(s.auth.limit, AuthRun(s, run))
          && Mirrors(s.auth.limit, Play(s.auth, [], AuthRun(s, run)), u.auth, now))
  }

  ghost predicate Refilling(s: Settings) {
    s.Valid() && s.general.limit.RefillsWithinCutoff() && (s.authPrefix != "" ==> s.auth.limit.RefillsWithinCutoff())
  }

  /** One event, given that each share of it is answered alike. */
  lemma SameOutcome(s: Settings, g: Tables, u: Unbounded, e: HttpEvent)
    requires s.authPrefix != "" && AuthPart(s, e) != [] ==>
      Answer(s.auth, g.auth, AuthPart(s, e)[0]) == RefAnswer(s.auth.limit, u.auth, AuthPart(s, e)[0])
    requires GeneralPart(s, g, e) != [] ==>
      Answer(s.general, g.general, GeneralPart(s, g, e)[0])
      == RefAnswer(s.general.limit, u.general, GeneralPart(s, g, e)[0])
    ensures Outcome(s, g, e) == RefOutcome(s, u, e)
    ensures RefMove(s, u, e).general
         == if GeneralPart(s, g, e) == [] then u.general
            else RefStep(s.general.limit, u.general, GeneralPart(s, g, e)[0])
    ensures RefMove(s, u, e).auth
         == if AuthPart(s, e) == [] then u.auth
            else RefStep(s.auth.limit, u.auth, AuthPart(s, e)[0])
  {
    hide Admit, Allow, BucketOf;
  }

  lemma RefPlayMore(limit: Limit, run: Run, more: Run)
    requires |more| <= 1
    ensures RefPlay(limit, run + more)
         == if more == [] then RefPlay(limit, run) else RefStep(limit, RefPlay(limit, run), more[0])
  {
    hide RefStep;
    if more == [] {
      assert run + more == run;
    } else {
      assert Init(run + more) == run && Last(run + more) == more[0];
    }
  }

  lemma InStepStart(s: Settings, now: real)
    ensures InStep(s, [], now)
  {
  }

  lemma InStepLater(s: Settings, run: Traffic, now: real, later: real)
    requires InStep(s, run, now) && now <= later
    ensures InStep(s, run, later)
  {
    hide Outcomes, RefOutcomes, RefPlay, Play, GeneralRun, AuthRun, RefReplay;
  }

  lemma OutcomesOne(s: Settings, run: Traffic)
    requires run != []
    ensures Outcomes(s, run)
         == Outcomes(s, Most(run)) + Outcome(s, Replay(s, Tables([], []), Most(run)), Newest(run))
    ensures RefOutcomes(s, run) == RefOutcomes(s, Most(run)) + RefOutcome(s, RefReplay(s, Most(run)), Newest(run))
    ensures RefReplay(s, run) == RefMove(s, RefReplay(s, Most(run)), Newest(run))
  {
  }

  lemma InStepMore(s: Settings, run: Traffic, start: real)
    requires Refilling(s) && run != [] && InOrder(run) && During(run, start, Newest(run).at)
    requires FewVisitors(run, s.general.maxIPs) && InStep(s, Most(run), Newest(run).at)
    ensures InStep(s, run, Newest(run).at)
  {
    hide Outcomes, RefOutcomes, RefPlay, Play, GeneralRun, AuthRun, RefReplay, Replay, Move, RefMove, Mirrors, InOrder,
      During, FewVisitors, WindowBounded, Ordered, Within, GeneralPart, AuthPart, Outcome, RefOutcome, Most, Newest,
      Answer, RefAnswer;
    var none := Tables([], []);
    var before, e := Most(run), Newest(run);
    var g, u := Replay(s, none, before), RefReplay(s, before);
    Unfold(s, none, run);
    OutcomesOne(s, run);
    Shares(s, none, before);
    MostDuring(run, start, e.at);
    SharesInOrder(s, none, before, start, e.at);
    SharesBounded(s, none, run, s.general.maxIPs);
    PartTimes(s, g, e);
    ShareMirrors(s.general, GeneralRun(s, none, before), GeneralPart(s, g, e), e.at, start);
    RefPlayMore(s.general.limit, GeneralRun(s, none, before), GeneralPart(s, g, e));
    if s.authPrefix != "" {
      ShareMirrors(s.auth, AuthRun(s, before), AuthPart(s, e), e.at, start);
      RefPlayMore(s.auth.limit, AuthRun(s, before), AuthPart(s, e));
    }
    SameOutcome(s, g, u, e);
  }

  lemma {:induction false} AlwaysInStep(s: Settings, run: Traffic, start: real, now: real)
    requires Refilling(s) && InOrder(run) && During(run, start, now) && FewVisitors(run, s.general.maxIPs)
    ensures InStep(s, run, now)
    decreases |run|
  {
    hide *;
    if run == [] {
      InStepStart(s, now);
    } else {
      var e := Newest(run);
      MostDuring(run, start, now);
      FewerVisitors(run, s.general.maxIPs);
      AlwaysInStep(s, Most(run), start, e.at);
      DuringUpTo(run, start, now);
      InStepMore(s, run, start);
      InStepLater(s, run, e.at, now);
    }
  }

  lemma DuringUpTo(run: Traffic, lo: real, hi: real)
    requires run != [] && InOrder(run) && During(run, lo, hi)
    ensures During(run, lo, Newest(run).at)
  {
  }

  /** For every stream of requests and cleanup ticks, the two bounded tables decide exactly
      as one never-removed bucket per IP and limit would. */
  lemma MiddlewareAgreement(s: Settings, run: Traffic)
    requires Refilling(s) && InOrder(run) && FewVisitors(run, s.general.maxIPs)
    ensures Outcomes(s, run) == RefOutcomes(s, run)
  {
    if run == [] {
    } else {
      AlwaysInStep(s, run, run[0].at, Newest(run).at);
    }
  }
}
