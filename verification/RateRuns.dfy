/** Timed runs of one rate-limit table: requests and expiry sweeps, in clock order. The
    bounded table is compared with the unbounded reference that keeps one bucket per IP
    for ever. */
module RateRuns {
  import opened TokenBucket
  import opened RecencyTable

  datatype Event =
    | Request(ip: Ip, at: real)
    | Sweep(at: real)

  type Run = seq<Event>

  ghost predicate Ordered(run: Run) {
    forall i, j :: 0 <= i < j < |run| ==> run[i].at <= run[j].at
  }

  ghost predicate Within(run: Run, lo: real, hi: real) {
    lo <= hi && forall i :: 0 <= i < |run| ==> lo <= run[i].at <= hi
  }

  function Init(run: Run): Run
    requires run != []
  {
    run[..|run| - 1]
  }

  function Last(run: Run): Event
    requires run != []
  {
    run[|run| - 1]
  }

  lemma OrderedInit(run: Run, lo: real, hi: real)
    requires run != [] && Ordered(run) && Within(run, lo, hi)
    ensures Ordered(Init(run)) && Within(Init(run), lo, Last(run).at)
    ensures lo <= Last(run).at <= hi
  {
  }

  /** The bounded table. */
  function Step(cfg: Config, t: Table, e: Event): Table {
    match e
    case Request(ip, at) => Admit(cfg, t, ip, at).1
    case Sweep(at) => Expire(t, at - 300.0)
  }

  function Play(cfg: Config, t: Table, run: Run): Table {
    if run == [] then t else Step(cfg, Play(cfg, t, Init(run)), Last(run))
  }

  /** One answer for a request, none for a sweep. */
  function Answer(cfg: Config, t: Table, e: Event): seq<bool> {
    match e
    case Request(ip, at) => [Admit(cfg, t, ip, at).0]
    case Sweep(_) => []
  }

  function Decisions(cfg: Config, run: Run): seq<bool> {
    if run == [] then [] else Decisions(cfg, Init(run)) + Answer(cfg, Play(cfg, [], Init(run)), Last(run))
  }

  /** The reference: no eviction, no expiry. */
  type Buckets = map<Ip, Bucket>

  function BucketOf(limit: Limit, m: Buckets, ip: Ip, now: real): Bucket {
    if ip in m then m[ip] else Full(limit, now)
  }

  function RefStep(limit: Limit, m: Buckets, e: Event): Buckets {
    match e
    case Request(ip, at) => m[ip := Allow(limit, BucketOf(limit, m, ip, at), at).1]
    case Sweep(_) => m
  }

  function RefPlay(limit: Limit, run: Run): Buckets {
    if run == [] then map[] else RefStep(limit, RefPlay(limit, Init(run)), Last(run))
  }

  function RefAnswer(limit: Limit, m: Buckets, e: Event): seq<bool> {
    match e
    case Request(ip, at) => [Allow(limit, BucketOf(limit, m, ip, at), at).0]
    case Sweep(_) => []
  }

  function RefDecisions(limit: Limit, run: Run): seq<bool> {
    if run == [] then [] else RefDecisions(limit, Init(run)) + RefAnswer(limit, RefPlay(limit, Init(run)), Last(run))
  }

  lemma SplitLast(run: Run)
    requires run != []
    ensures run == Init(run) + [Last(run)]
    ensures |Init(run)| < |run|
  {
  }

  lemma PlayOne(cfg: Config, run: Run, e: Event)
    ensures Play(cfg, [], run + [e]) == Step(cfg, Play(cfg, [], run), e)
    ensures RefPlay(cfg.limit, run + [e]) == RefStep(cfg.limit, RefPlay(cfg.limit, run), e)
    ensures Decisions(cfg, run + [e]) == Decisions(cfg, run) + Answer(cfg, Play(cfg, [], run), e)
    ensures RefDecisions(cfg.limit, run + [e])
         == RefDecisions(cfg.limit, run) + RefAnswer(cfg.limit, RefPlay(cfg.limit, run), e)
  {
    assert Init(run + [e]) == run && Last(run + [e]) == e;
  }

  /** The IPs requested in the closed interval from `lo` to `hi`. */
  ghost function Seen(run: Run, lo: real, hi: real): set<Ip> {
    set e | e in run && e.Request? && lo <= e.at <= hi :: e.ip
  }

  ghost function FiveMinutes(run: Run, lo: real): set<Ip> {
    Seen(run, lo, lo + 300.0)
  }

  /** No closed five-minute window sees more than `maxIPs` different IPs. */
  ghost predicate WindowBounded(run: Run, maxIPs: nat) {
    forall lo: real :: |FiveMinutes(run, lo)| <= maxIPs
  }

  // ---------------------------------------------------------------------------
  // Recency: the order of the table is the order of last accesses
  // ---------------------------------------------------------------------------

  /** Index of the last request of `ip`, or -1. */
  ghost function LastIndex(run: Run, ip: Ip): (k: int)
    ensures -1 <= k < |run|
    ensures k >= 0 ==> run[k] == Request(ip, run[k].at)
    ensures forall j :: k < j < |run| ==> !(run[j].Request? && run[j].ip == ip)
  {
    if run == [] then -1
    else if Last(run).Request? && Last(run).ip == ip then |run| - 1
    else LastIndex(Init(run), ip)
  }

  /** The run index of the request that made entry `i` what it is. */
  ghost function Stamp(run: Run, t: Table, i: nat): int
    requires i < |t|
  {
    LastIndex(run, t[i].ip)
  }

  ghost predicate Stamped(run: Run, t: Table) {
    forall i :: 0 <= i < |t| ==> Stamp(run, t, i) >= 0 && t[i].lastSeen == run[Stamp(run, t, i)].at
  }

  ghost predicate ByStamp(run: Run, t: Table) {
    forall i, j :: 0 <= i < j < |t| ==> Stamp(run, t, i) > Stamp(run, t, j)
  }

  ghost predicate Recency(run: Run, t: Table) {
    Stamped(run, t) && ByStamp(run, t)
  }

  lemma LastIndexExtend(run: Run, e: Event, ip: Ip)
    ensures LastIndex(run + [e], ip) == if e.Request? && e.ip == ip then |run| else LastIndex(run, ip)
  {
    assert Init(run + [e]) == run;
  }

  lemma TouchStamp(cfg: Config, run: Run, t: Table, ip: Ip, at: real, k: nat)
    requires Distinct(t) && k < |Touch(cfg, t, ip, at)|
    ensures var t', run' := Touch(cfg, t, ip, at), run + [Request(ip, at)];
            if k == 0 then t'[0].ip == ip && t'[0].lastSeen == at && Stamp(run', t', 0) == |run|
            else
              var p := if k <= Lookup(t, ip) then k - 1 else k;
              p < |t| && t'[k] == t[p] && Stamp(run', t', k) == Stamp(run, t, p)
  {
    LastIndexExtend(run, Request(ip, at), Touch(cfg, t, ip, at)[k].ip);
    if k > 0 {
      TouchTail(cfg, t, ip, at, k);
    }
  }

  lemma TouchRecency(cfg: Config, run: Run, t: Table, ip: Ip, at: real)
    requires Distinct(t) && Recency(run, t)
    ensures Recency(run + [Request(ip, at)], Touch(cfg, t, ip, at))
  {
    var run' := run + [Request(ip, at)];
    var t' := Touch(cfg, t, ip, at);
    var i := Lookup(t, ip);
    forall k | 0 <= k < |t'|
      ensures Stamp(run', t', k) >= 0 && t'[k].lastSeen == run'[Stamp(run', t', k)].at
    {
      TouchStamp(cfg, run, t, ip, at, k);
    }
    forall k, l | 0 <= k < l < |t'|
      ensures Stamp(run', t', k) > Stamp(run', t', l)
    {
      TouchStamp(cfg, run, t, ip, at, k);
      TouchStamp(cfg, run, t, ip, at, l);
    }
  }

  /** Recency looks at the keys and times only, not at the buckets. */
  lemma SameKeysRecency(run: Run, t: Table, t': Table)
    requires Recency(run, t) && |t'| <= |t|
    requires forall k :: 0 <= k < |t'| ==> t'[k].ip == t[k].ip && t'[k].lastSeen == t[k].lastSeen
    ensures Recency(run, t')
  {
    assert forall k :: 0 <= k < |t'| ==> Stamp(run, t', k) == Stamp(run, t, k);
  }

  lemma SweepRecency(run: Run, t: Table, at: real)
    requires Recency(run, t)
    ensures Recency(run + [Sweep(at)], t)
  {
    forall k | 0 <= k < |t|
      ensures Stamp(run + [Sweep(at)], t, k) == Stamp(run, t, k)
    {
      LastIndexExtend(run, Sweep(at), t[k].ip);
    }
  }

  lemma StepRecency(cfg: Config, run: Run, t: Table, e: Event)
    requires Distinct(t) && Sorted(t) && Recency(run, t)
    ensures Recency(run + [e], Step(cfg, t, e))
  {
    match e
    case Request(ip, at) =>
      TouchRecency(cfg, run, t, ip, at);
      SameKeysRecency(run + [e], Touch(cfg, t, ip, at), Step(cfg, t, e));
    case Sweep(at) =>
      SweepRecency(run, t, at);
      ExpireIsPrefix(t, at - 300.0);
      SameKeysRecency(run + [e], t, Step(cfg, t, e));
  }

  lemma StepWellFormed(cfg: Config, t: Table, e: Event, before: real)
    requires cfg.Valid() && WellFormed(cfg, t, before) && before <= e.at
    ensures WellFormed(cfg, Step(cfg, t, e), e.at)
  {
    match e
    case Request(ip, at) => AdmitWellFormed(cfg, t, ip, before, at);
    case Sweep(at) => ExpireWellFormed(cfg, t, at - 300.0, at);
  }

  /** After every run: keys distinct, sorted by last access, at most `maxIPs` of them. */
  lemma {:induction false} PlayWellFormed(cfg: Config, t: Table, run: Run, start: real, now: real)
    requires cfg.Valid() && Ordered(run) && Within(run, start, now) && WellFormed(cfg, t, start)
    ensures WellFormed(cfg, Play(cfg, t, run), now)
    decreases |run|
  {
    assert start <= now;
    hide Step, WellFormed, Ordered, Within;
    if run == [] {
      WellFormedLater(cfg, t, start, now);
    } else {
      var e := Last(run);
      OrderedInit(run, start, now);
      PlayWellFormed(cfg, t, Init(run), start, e.at);
      StepWellFormed(cfg, Play(cfg, t, Init(run)), e, e.at);
      WellFormedLater(cfg, Play(cfg, t, run), e.at, now);
    }
  }

  lemma WellFormedLater(cfg: Config, t: Table, before: real, now: real)
    requires WellFormed(cfg, t, before) && before <= now
    ensures WellFormed(cfg, t, now)
  {
  }

  lemma NothingRecent()
    ensures Recency([], [])
  {
  }

  lemma {:induction false} PlayRecency(cfg: Config, run: Run, start: real, now: real)
    requires cfg.Valid() && Ordered(run) && Within(run, start, now)
    ensures WellFormed(cfg, Play(cfg, [], run), now) && Recency(run, Play(cfg, [], run))
    decreases |run|
  {
    PlayWellFormed(cfg, [], run, start, now);
    hide Step, Recency, Ordered, Within, Decisions, RefDecisions, RefPlay, EntryOk;
    if run == [] {
      NothingRecent();
    } else {
      OrderedInit(run, start, now);
      PlayRecency(cfg, Init(run), start, Last(run).at);
      StepRecency(cfg, Init(run), Play(cfg, [], Init(run)), Last(run));
      SplitLast(run);
    }
  }

  // ---------------------------------------------------------------------------
  // Eviction
  // ---------------------------------------------------------------------------

  lemma SubsetSize<T>(a: set<T>, b: set<T>)
    requires a <= b
    ensures |a| <= |b|
  {
    assert b == a + (b - a);
  }

  ghost predicate Evicts(cfg: Config, t: Table, ip: Ip) {
    !Has(t, ip) && |t| >= cfg.maxIPs
  }

  ghost function RequestedIn(run: Run): set<Ip> {
    set e | e in run && e.Request? :: e.ip
  }

  /** Everything in front of entry `v` was requested after the last request of `v`. */
  lemma AheadRequestedLater(run: Run, t: Table, v: nat)
    requires Recency(run, t) && v < |t|
    ensures Ips(t[..v]) <= RequestedIn(run[Stamp(run, t, v) + 1..]) - {t[v].ip}
  {
    var k := Stamp(run, t, v);
    forall x | x in Ips(t[..v]) ensures x in RequestedIn(run[k + 1..]) - {t[v].ip} {
      var i :| 0 <= i < v && t[i].ip == x;
      var q := Stamp(run, t, i);
      assert q > k;
      assert run[k + 1..][q - (k + 1)] == run[q];
    }
  }

  /** The other IPs requested since the last request of `victim`, with the newcomer `ip`. */
  ghost function OthersSince(run: Run, victim: Ip, ip: Ip): set<Ip> {
    (RequestedIn(run[LastIndex(run, victim) + 1..]) - {victim}) + {ip}
  }

  lemma EvictionCount(cfg: Config, run: Run, t: Table, ip: Ip)
    requires cfg.Valid() && Distinct(t) && Recency(run, t) && Evicts(cfg, t, ip)
    ensures LastIndex(run, t[|t| - 1].ip) >= 0
    ensures |OthersSince(run, t[|t| - 1].ip, ip)| >= cfg.maxIPs
  {
    var v := |t| - 1;
    var ahead := t[..v];
    assert Stamp(run, t, v) >= 0;
    AheadRequestedLater(run, t, v);
    IpsSize(ahead);
    IpsOf(t, ip);
    assert ip !in Ips(ahead) by {
      assert forall e :: e in ahead ==> e in t;
    }
    SubsetSize(Ips(ahead) + {ip}, OthersSince(run, t[v].ip, ip));
  }

  /** Capacity evicts an IP only after `maxIPs` different other IPs were requested since
      its own last request. */
  lemma EvictionNeedsOthers(cfg: Config, run: Run, ip: Ip, at: real, start: real, victim: Ip)
    requires cfg.Valid() && Ordered(run) && Within(run, start, at)
    requires victim != ip && Has(Play(cfg, [], run), victim)
    requires !Has(Admit(cfg, Play(cfg, [], run), ip, at).1, victim)
    ensures LastIndex(run, victim) >= 0
    ensures |OthersSince(run, victim, ip)| >= cfg.maxIPs
  {
    PlayRecency(cfg, run, start, at);
    var t := Play(cfg, [], run);
    OthersKept(cfg, t, ip, at, victim);
    EvictionCount(cfg, run, t, ip);
  }

  /** A request of `ip` leaves every other entry's bucket alone; the only entry it can
      remove is the one at the back of a full table. */
  lemma OthersKept(cfg: Config, t: Table, ip: Ip, at: real, other: Ip)
    requires cfg.Valid() && Distinct(t) && other != ip
    ensures var t' := Admit(cfg, t, ip, at).1;
            && (Has(t', other) <==> Has(t, other) && !(Evicts(cfg, t, ip) && t[|t| - 1].ip == other))
            && (Has(t', other) ==> t'[Lookup(t', other)].bucket == t[Lookup(t, other)].bucket)
  {
    hide Allow;
    var t1, t' := Touch(cfg, t, ip, at), Admit(cfg, t, ip, at).1;
    var i, p := Lookup(t, ip), Lookup(t, other);
    if Has(t, other) && !(Evicts(cfg, t, ip) && p == |t| - 1) {
      var q := if p > i then p else p + 1;
      assert q < |t'| && t1[q] == t[p];
      assert t'[q].ip == other;
    }
    if Has(t', other) {
      var k := Lookup(t', other);
      TouchTail(cfg, t, ip, at, k);
      LookupUnique(t, other, if k <= i then k - 1 else k);
    }
  }

  /** Under the window bound, whatever capacity evicts was idle for over five minutes. */
  lemma EvictedWasIdle(cfg: Config, run: Run, ip: Ip, at: real, start: real)
    requires cfg.Valid() && Ordered(run) && Within(run, start, at)
    requires WindowBounded(run + [Request(ip, at)], cfg.maxIPs)
    requires Evicts(cfg, Play(cfg, [], run), ip)
    ensures var t := Play(cfg, [], run);
            at - t[|t| - 1].lastSeen > 300.0
  {
    hide Play, EntryOk, Lookup;
    PlayRecency(cfg, run, start, at);
    var t := Play(cfg, [], run);
    var lo := t[|t| - 1].lastSeen;
    if at - lo <= 300.0 {
      var run' := run + [Request(ip, at)];
      forall x | x in Ips(t) + {ip} ensures x in FiveMinutes(run', lo) {
        if x == ip {
          assert Request(ip, at) in run';
        } else {
          TableIpSeen(run, t, x, lo, at);
          var e :| e in run && e.Request? && lo <= e.at <= at && e.ip == x;
          assert e in run';
        }
      }
      IpsSize(t);
      IpsOf(t, ip);
      SubsetSize(Ips(t) + {ip}, FiveMinutes(run', lo));
    }
  }

  lemma TableIpSeen(run: Run, t: Table, x: Ip, lo: real, hi: real)
    requires Recency(run, t) && x in Ips(t)
    requires forall i :: 0 <= i < |t| ==> lo <= t[i].lastSeen <= hi
    ensures x in Seen(run, lo, hi)
  {
    var i :| 0 <= i < |t| && t[i].ip == x;
    assert run[Stamp(run, t, i)] in run;
  }
}
