/** The deferred teardown of a WebSocket handler always finishes. */
module WsTeardown {
  import opened Options
  import opened WsSession

  function GuardRank(g: Guarded): nat {
    match g
    case Leaving(ok) => if ok then 6 else 2
    case Holding => 3
    case Waiting => 4
    case Calling => 7
    case Checked => 8
  }

  function MainRank(m: MainPc): nat {
    7 - Stage(m)
  }

  function PingRank(p: PingPc): nat {
    match p
    case PingOff | PingDone => 0
    case PingCancel => 1
    case PingSelect => 5
    case PingWrite(g) => GuardRank(g)
  }

  function ShutRank(p: ShutPc): nat {
    match p
    case ShutOff | ShutDone => 0
    case ShutDeadline(g) => GuardRank(g)
    case ShutWrite(g) => 10 + GuardRank(g)
    case ShutSelect => 20
  }

  function CbRank(p: CbPc): nat {
    match p
    case CbDone => 0
    case CbCancel => 1
    case CbWrite(g) => GuardRank(g)
    case CbInspect => 9
    case CbStart => 10
  }

  function CbRanks(ps: seq<CbPc>): nat {
    if ps == [] then 0 else CbRank(ps[0]) + CbRanks(ps[1..])
  }

  /** How much work the goroutines and callbacks of a session still have between them. */
  function Rank(s: Session): nat {
    MainRank(s.main) + PingRank(s.ping) + ShutRank(s.shut) + CbRanks(s.callbacks)
  }

  /** Past the teardown's `cancel()`. */
  predicate TearingDown(s: Session) {
    Stage(s.main) >= 2
  }

  lemma {:induction false} CbRanksUpdate(ps: seq<CbPc>, i: nat, p: CbPc)
    requires i < |ps|
    ensures CbRanks(ps[i := p]) + CbRank(ps[i]) == CbRanks(ps) + CbRank(p)
  {
    if i > 0 {
      CbRanksUpdate(ps[1..], i - 1, p);
      assert ps[i := p][1..] == ps[1..][i - 1 := p];
    } else {
      assert ps[0 := p][1..] == ps[1..];
    }
  }

  /** What is left of one thread's work. */
  function ThreadRank(s: Session, t: Tid): nat {
    match t
    case Main => MainRank(s.main)
    case Ping => PingRank(s.ping)
    case Shut => ShutRank(s.shut)
    case Callback(i) => if i < |s.callbacks| then CbRank(s.callbacks[i]) else 0
  }

  /** Only the program counter of `t` differs, as far as the rank is concerned. */
  ghost predicate OnlyMoved(s: Session, s': Session, t: Tid) {
    && (t != Main ==> s'.main == s.main)
    && (t != Ping ==> s'.ping == s.ping)
    && (t != Shut ==> s'.shut == s.shut)
    && match t
       case Callback(i) =>
         i < |s.callbacks| == |s'.callbacks| && s'.callbacks == s.callbacks[i := s'.callbacks[i]]
       case _ => s'.callbacks == s.callbacks
  }

  lemma RankFalls(s: Session, s': Session, t: Tid)
    requires OnlyMoved(s, s', t) && ThreadRank(s', t) < ThreadRank(s, t)
    ensures Rank(s') < Rank(s)
  {
    hide CbRank, MainRank, PingRank, ShutRank;
    if t.Callback? {
      CbRanksUpdate(s.callbacks, t.id, s'.callbacks[t.id]);
      assert s'.callbacks == s.callbacks[t.id := s'.callbacks[t.id]];
    }
  }

  lemma GuardRankFalls(s: Session, g: Guarded, pick: Pick)
    requires s.cancelled && !g.Leaving?
    ensures GuardRank(NextGuard(s, g, pick)) < GuardRank(g)
  {
  }

  lemma SetGuardRank(s: Session, t: Tid, g: Guarded)
    requires TearingDown(s) && GuardOf(s, t).Some?
    ensures var s' := SetGuard(s, t, g);
            && OnlyMoved(s, s', t) && TearingDown(s')
            && ThreadRank(s', t) + GuardRank(GuardOf(s, t).value) == ThreadRank(s, t) + GuardRank(g)
  {
    hide GuardRank;
  }

  lemma ResumeRank(s: Session, t: Tid, ok: bool)
    requires TearingDown(s) && GuardOf(s, t) == Some(Leaving(ok))
    ensures var s' := Resume(s, t, ok);
            OnlyMoved(s, s', t) && TearingDown(s') && ThreadRank(s', t) < ThreadRank(s, t)
  {
  }

  /** The mutex and the counter have no rank. */
  lemma SharedRank(s: Session, s0: Session, t: Tid, lock: Option<Tid>, lateCalls: nat)
    requires OnlyMoved(s, s0, t) && TearingDown(s0)
    ensures var s' := s0.(lock := lock, lateCalls := lateCalls);
            OnlyMoved(s, s', t) && TearingDown(s') && ThreadRank(s', t) == ThreadRank(s0, t)
  {
  }

  lemma GuardDescends(s: Session, t: Tid, pick: Pick)
    requires TearingDown(s) && s.cancelled && GuardOf(s, t).Some? && GuardEnabled(s, t, pick)
    ensures var s' := GuardApply(s, t, pick);
            OnlyMoved(s, s', t) && ThreadRank(s', t) < ThreadRank(s, t) && TearingDown(s')
  {
    hide OnlyMoved, ThreadRank, TearingDown, GuardRank, SetGuard, Resume, GuardOf;
    var g := GuardOf(s, t).value;
    var s' := GuardApply(s, t, pick);
    if g.Leaving? {
      ResumeRank(s, t, g.ok);
      SharedRank(s, Resume(s, t, g.ok), t, s'.lock, s'.lateCalls);
      assert s' == Resume(s, t, g.ok).(lock := s'.lock, lateCalls := s'.lateCalls) by {
        SharedSame(s, t, g.ok);
      }
    } else {
      var next := NextGuard(s, g, pick);
      SetGuardRank(s, t, next);
      GuardRankFalls(s, g, pick);
      SharedRank(s, SetGuard(s, t, next), t, s'.lock, s'.lateCalls);
    }
  }

  lemma SharedSame(s: Session, t: Tid, ok: bool)
    requires GuardOf(s, t).Some?
    ensures Resume(s, t, ok).lateCalls == s.lateCalls
  {
  }

  lemma PlainDescends(s: Session, t: Tid, pick: Pick)
    requires TearingDown(s) && s.cancelled && GuardOf(s, t) == None && Enabled(s, Go(t, pick))
    ensures var s' := Apply(s, Go(t, pick));
            OnlyMoved(s, s', t) && ThreadRank(s', t) < ThreadRank(s, t) && TearingDown(s')
  {
  }

  /** Every step any thread can take strictly lowers the rank. */
  lemma StepDescends(s: Session, t: Tid, pick: Pick)
    requires Inv(s) && TearingDown(s) && Enabled(s, Go(t, pick))
    ensures TearingDown(Apply(s, Go(t, pick)))
    ensures Rank(Apply(s, Go(t, pick))) < Rank(s)
  {
    hide LockInv, CallInv, Rank, ThreadRank, OnlyMoved, GuardApply, GuardEnabled;
    if GuardOf(s, t).Some? {
      GuardDescends(s, t, pick);
    } else {
      PlainDescends(s, t, pick);
    }
    RankFalls(s, Apply(s, Go(t, pick)), t);
  }

  /** Nothing from outside adds work: no callback is started any more. */
  lemma OutsideAddsNothing(s: Session, a: Action)
    requires Inv(s) && TearingDown(s) && Enabled(s, a) && !a.Go?
    ensures TearingDown(Apply(s, a)) && Rank(Apply(s, a)) == Rank(s)
  {
  }

  /** Whoever holds the mutex can always go on. */
  lemma HolderGoesOn(s: Session, t: Tid)
    requires Inv(s) && s.lock == Some(t)
    ensures Enabled(s, Go(t, Ok))
  {
    assert InLock(s, t);
  }

  /** No deadlock: until the slot has been released some thread can go on. */
  lemma SomeoneGoesOn(s: Session) returns (t: Tid, pick: Pick)
    requires Inv(s) && TearingDown(s) && !s.main.Finished?
    ensures Enabled(s, Go(t, pick))
  {
    if s.lock.Some? {
      t, pick := s.lock.value, Ok;
      HolderGoesOn(s, t);
    } else if !s.main.WaitGroup? || GoneOff(s) {
      t, pick := Main, Ok;
    } else if s.ping.PingOff? || s.ping.PingDone? {
      t, pick := Shut, if s.shut.ShutSelect? then Fail else Ok;
      assert !InLock(s, t);
    } else {
      t, pick := Ping, Ok;
      assert !InLock(s, t);
    }
  }

  function StepsTaken(acts: seq<Action>): nat {
    if acts == [] then 0 else (if acts[0].Go? then 1 else 0) + StepsTaken(acts[1..])
  }

  lemma {:induction false} StepsBounded(s: Session, acts: seq<Action>)
    requires Inv(s) && TearingDown(s) && Runnable(s, acts)
    ensures Inv(Exec(s, acts)) && TearingDown(Exec(s, acts))
    ensures StepsTaken(acts) + Rank(Exec(s, acts)) <= Rank(s)
    decreases |acts|
  {
    hide Inv, Enabled, Apply, Rank, TearingDown;
    if acts == [] {
    } else {
      var a := acts[0];
      StepKeeps(s, a);
      if a.Go? {
        StepDescends(s, a.t, a.pick);
      } else {
        OutsideAddsNothing(s, a);
      }
      StepsBounded(Apply(s, a), acts[1..]);
    }
  }

  /** In every run, from the teardown's `cancel()` on and whatever the scheduler does: the
      threads take at most `Rank(s)` steps in all, and they can only all stop once the socket
      has been closed and the slot released, each exactly once. */
  lemma TeardownFinishes(before: seq<Action>, after: seq<Action>)
    requires Runnable(FRESH, before)
    requires var s := Exec(FRESH, before); TearingDown(s) && Runnable(s, after)
    ensures var s := Exec(FRESH, before);
            var s' := Exec(s, after);
            && StepsTaken(after) <= Rank(s)
            && ((forall t, pick :: !Enabled(s', Go(t, pick))) ==> s'.main.Finished? && s'.closes == s'.releases == 1)
  {
    FreshInv();
    RunKeeps(FRESH, before);
    var s := Exec(FRESH, before);
    StepsBounded(s, after);
    var s' := Exec(s, after);
    hide Exec, Runnable, Enabled;
    if !s'.main.Finished? {
      var t, pick := SomeoneGoesOn(s');
    }
  }

  /** Before that, the two deferred calls that lead there never wait for anything. */
  lemma TeardownStarts(s: Session)
    requires Inv(s) && (s.main.Unsubscribe? || s.main.Cancel?)
    ensures Enabled(s, Go(Main, Ok))
    ensures var s1 := Apply(s, Go(Main, Ok));
            if s.main.Cancel? then TearingDown(s1) else s1.main.Cancel? && !s1.subscribed
  {
  }
}
