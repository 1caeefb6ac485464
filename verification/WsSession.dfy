/** One admitted WebSocket connection as interleaved steps: the handler's own goroutine with
    its deferred teardown, the ping and shutdown goroutines, and any number of message
    callbacks, sharing a mutex, a cancellation flag and the socket. */
module WsSession {
  import opened Options

  datatype Tid = Main | Ping | Shut | Callback(id: nat)

  /** Inside `safeWrite` or `safeSetReadDeadline`: waiting for the mutex, holding it before
      the cancellation check, past the check, inside the socket call, about to unlock. */
  datatype Guarded = Waiting | Holding | Checked | Calling | Leaving(ok: bool)

  datatype MainPc =
    | Connecting            // waiting for the service's ack
    | RefuseWrite(g: Guarded)
    | Subscribing
    | StartPing
    | StartShut
    | LoopTop               // the ctx.Done check
    | SetDeadline
    | Reading
    | Publishing
    | TimeoutWrite(g: Guarded)
    | Unsubscribe           // first deferred call, only once subscribed
    | Cancel                // deferred: cancel()
    | WaitGroup             //           wg.Wait()
    | WantLock              //           mu.Lock()
    | Closing               //           conn.Close()
    | Unlock                //           mu.Unlock()
    | Release               // last deferred call: releaseConn()
    | Finished

  datatype PingPc = PingOff | PingSelect | PingWrite(g: Guarded) | PingCancel | PingDone

  datatype ShutPc = ShutOff | ShutSelect | ShutWrite(g: Guarded) | ShutDeadline(g: Guarded) | ShutDone

  datatype CbPc = CbStart | CbInspect | CbWrite(g: Guarded) | CbCancel | CbDone

  datatype Session = Session(
    main: MainPc,
    ping: PingPc,
    shut: ShutPc,
    callbacks: seq<CbPc>,
    subscribed: bool,
    serverDone: bool,        // the gateway's context, the parent
    cancelled: bool,         // the session's context
    lock: Option<Tid>,       // mu
    closes: nat,             // conn.Close() calls so far
    releases: nat,           // releaseConn() calls so far
    lateCalls: nat,          // guarded socket calls started after cancellation
    racer: Option<Tid>,      // who was between its check and its call when cancellation came
    received: nat,           // messages read from the socket
    published: nat)          // messages handed on to the service

  /** How a step with more than one outcome goes. */
  datatype Pick = Ok | Fail | Timeout

  datatype Action =
    | Go(t: Tid, pick: Pick)
    | Deliver                // the client library starts another message callback
    | ServerStops
    | Propagate              // the parent's cancellation reaches the session

  const FRESH := Session(Connecting, PingOff, ShutOff, [], false, false, false, None, 0, 0, 0, None, 0, 0)

  // ---------------------------------------------------------------------------
  // Guarded socket calls
  // ---------------------------------------------------------------------------

  function GuardOf(s: Session, t: Tid): Option<Guarded> {
    match t
    case Main => if s.main.RefuseWrite? || s.main.TimeoutWrite? then Some(s.main.g) else None
    case Ping => if s.ping.PingWrite? then Some(s.ping.g) else None
    case Shut => if s.shut.ShutWrite? || s.shut.ShutDeadline? then Some(s.shut.g) else None
    case Callback(i) => if i < |s.callbacks| && s.callbacks[i].CbWrite? then Some(s.callbacks[i].g) else None
  }

  /** Past the cancellation check, with the socket call as the next thing to do. */
  predicate AboutToCall(s: Session, t: Tid) {
    GuardOf(s, t) == Some(Checked)
  }

  function SetGuard(s: Session, t: Tid, g: Guarded): Session
    requires GuardOf(s, t).Some?
  {
    match t
    case Main => if s.main.RefuseWrite? then s.(main := RefuseWrite(g)) else s.(main := TimeoutWrite(g))
    case Ping => s.(ping := PingWrite(g))
    case Shut => if s.shut.ShutWrite? then s.(shut := ShutWrite(g)) else s.(shut := ShutDeadline(g))
    case Callback(i) => s.(callbacks := s.callbacks[i := CbWrite(g)])
  }

  /** Where a thread continues once its guarded call has returned. */
  function Resume(s: Session, t: Tid, ok: bool): Session
    requires GuardOf(s, t).Some?
  {
    match t
    case Main => if s.main.RefuseWrite? then s.(main := Cancel) else s.(main := Unsubscribe)
    case Ping => s.(ping := if ok then PingSelect else PingCancel)
    case Shut => if s.shut.ShutWrite? then s.(shut := ShutDeadline(Waiting)) else s.(shut := ShutDone)
    case Callback(i) => s.(callbacks := s.callbacks[i := if ok then CbDone else CbCancel])
  }

  predicate GuardEnabled(s: Session, t: Tid, pick: Pick)
    requires GuardOf(s, t).Some?
  {
    match GuardOf(s, t).value
    case Waiting => s.lock == None && pick == Ok
    case Calling => pick != Timeout
    case _ => pick == Ok
  }

  function GuardApply(s: Session, t: Tid, pick: Pick): Session
    requires GuardOf(s, t).Some?
  {
    match GuardOf(s, t).value
    case Waiting => SetGuard(s, t, Holding).(lock := Some(t))
    case Holding => SetGuard(s, t, if s.cancelled then Leaving(false) else Checked)
    case Checked => SetGuard(s, t, Calling).(lateCalls := if s.cancelled then s.lateCalls + 1 else s.lateCalls)
    case Calling => SetGuard(s, t, Leaving(pick == Ok))
    case Leaving(ok) => Resume(s, t, ok).(lock := None)
  }

  // ---------------------------------------------------------------------------
  // Steps
  // ---------------------------------------------------------------------------

  function DoCancel(s: Session): Session {
    if s.cancelled then s
    else s.(cancelled := true,
            racer := if s.lock.Some? && AboutToCall(s, s.lock.value) then s.lock else None)
  }

  predicate GoneOff(s: Session) {
    (s.ping.PingOff? || s.ping.PingDone?) && (s.shut.ShutOff? || s.shut.ShutDone?)
  }

  predicate MainEnabled(s: Session, pick: Pick) {
    match s.main
    case Connecting | Subscribing => pick != Timeout
    case Reading => true
    case WaitGroup => pick == Ok && GoneOff(s)
    case WantLock => pick == Ok && s.lock == None
    case Finished => false
    case RefuseWrite(_) | TimeoutWrite(_) => false
    case _ => pick == Ok
  }

  function MainApply(s: Session, pick: Pick): Session {
    match s.main
    case Connecting => s.(main := if pick == Ok then Subscribing else RefuseWrite(Waiting))
    case Subscribing => if pick == Ok then s.(main := StartPing, subscribed := true) else s.(main := Cancel)
    case StartPing => s.(main := StartShut, ping := PingSelect)
    case StartShut => s.(main := LoopTop, shut := ShutSelect)
    case LoopTop => s.(main := if s.cancelled then Unsubscribe else SetDeadline)
    case SetDeadline => s.(main := Reading)
    case Reading =>
      (match pick
       case Ok => s.(main := Publishing, received := s.received + 1)
       case Fail => s.(main := Unsubscribe)
       case Timeout => s.(main := TimeoutWrite(Waiting)))
    case Publishing => s.(main := LoopTop, published := s.published + 1)
    case Unsubscribe => s.(main := Cancel, subscribed := false)
    case Cancel => DoCancel(s).(main := WaitGroup)
    case WaitGroup => s.(main := WantLock)
    case WantLock => s.(main := Closing, lock := Some(Main))
    case Closing => s.(main := Unlock, closes := s.closes + 1)
    case Unlock => s.(main := Release, lock := None)
    case Release => s.(main := Finished, releases := s.releases + 1)
    case _ => s
  }

  predicate PingEnabled(s: Session, pick: Pick) {
    match s.ping
    case PingSelect => pick == Ok || (pick == Fail && s.cancelled)
    case PingCancel => pick == Ok
    case _ => false
  }

  function PingApply(s: Session, pick: Pick): Session {
    match s.ping
    case PingSelect => s.(ping := if pick == Ok then PingWrite(Waiting) else PingDone)
    case PingCancel => DoCancel(s).(ping := PingDone)
    case _ => s
  }

  predicate ShutEnabled(s: Session, pick: Pick) {
    s.shut.ShutSelect? && ((pick == Ok && s.serverDone) || (pick == Fail && s.cancelled))
  }

  function ShutApply(s: Session, pick: Pick): Session {
    s.(shut := if pick == Ok then ShutWrite(Waiting) else ShutDone)
  }

  predicate CbEnabled(s: Session, i: nat, pick: Pick) {
    i < |s.callbacks|
    && match s.callbacks[i]
       case CbInspect => pick != Timeout
       case CbStart | CbCancel => pick == Ok
       case _ => false
  }

  function CbApply(s: Session, i: nat, pick: Pick): Session
    requires i < |s.callbacks|
  {
    match s.callbacks[i]
    case CbStart => s.(callbacks := s.callbacks[i := if s.cancelled then CbDone else CbInspect])
    case CbInspect => s.(callbacks := s.callbacks[i := if pick == Ok then CbWrite(Waiting) else CbCancel])
    case CbCancel => DoCancel(s).(callbacks := s.callbacks[i := CbDone])
    case _ => s
  }

  predicate Enabled(s: Session, a: Action) {
    match a
    case Go(t, pick) =>
      if GuardOf(s, t).Some? then GuardEnabled(s, t, pick)
      else (match t
            case Main => MainEnabled(s, pick)
            case Ping => PingEnabled(s, pick)
            case Shut => ShutEnabled(s, pick)
            case Callback(i) => CbEnabled(s, i, pick))
    case Deliver => s.subscribed
    case ServerStops => true
    case Propagate => s.serverDone
  }

  function Apply(s: Session, a: Action): Session
    requires Enabled(s, a)
  {
    match a
    case Go(t, pick) =>
      if GuardOf(s, t).Some? then GuardApply(s, t, pick)
      else (match t
            case Main => MainApply(s, pick)
            case Ping => PingApply(s, pick)
            case Shut => ShutApply(s, pick)
            case Callback(i) => CbApply(s, i, pick))
    case Deliver => s.(callbacks := s.callbacks + [CbStart])
    case ServerStops => s.(serverDone := true)
    case Propagate => DoCancel(s)
  }

  // ---------------------------------------------------------------------------
  // The invariant
  // ---------------------------------------------------------------------------

  predicate InLock(s: Session, t: Tid) {
    (t == Main && (s.main.Closing? || s.main.Unlock?))
    || (GuardOf(s, t).Some? && !GuardOf(s, t).value.Waiting?)
  }

  /** Progress through the deferred calls. */
  function Stage(m: MainPc): nat {
    match m
    case Cancel => 1
    case WaitGroup => 2
    case WantLock => 3
    case Closing => 4
    case Unlock => 5
    case Release => 6
    case Finished => 7
    case _ => 0
  }

  predicate Early(m: MainPc) {
    m.Connecting? || m.RefuseWrite? || m.Subscribing?
  }

  /** The mutex is held by exactly the thread that is inside its critical section. */
  ghost predicate LockInv(s: Session) {
    forall t :: InLock(s, t) <==> s.lock == Some(t)
  }

  /** How far the handler's own goroutine is, and what follows from it. */
  ghost predicate StageInv(s: Session) {
    && (Stage(s.main) >= 1 ==> !s.subscribed)
    && (Stage(s.main) >= 2 ==> s.cancelled)
    && (Stage(s.main) >= 3 ==> GoneOff(s))
    && (Early(s.main) ==> !s.subscribed)
    && (Early(s.main) || s.main.StartPing? ==> s.ping.PingOff?)
    && (Early(s.main) || s.main.StartPing? || s.main.StartShut? ==> s.shut.ShutOff?)
    && s.closes == (if Stage(s.main) >= 5 then 1 else 0)
    && s.releases == (if s.main.Finished? then 1 else 0)
    && s.received == s.published + (if s.main.Publishing? then 1 else 0)
  }

  /** Whoever is past its cancellation check has an open socket; calls that start after
      cancellation are exactly the call of the one thread cancellation overtook. */
  ghost predicate CallInv(s: Session) {
    && (forall t :: GuardOf(s, t) in {Some(Checked), Some(Calling)} ==> s.closes == 0)
    && (!s.cancelled ==> s.lateCalls == 0 && s.racer == None)
    && (s.cancelled ==> forall t :: AboutToCall(s, t) ==> s.racer == Some(t))
    && (s.cancelled ==> s.lateCalls == if s.racer.Some? && !AboutToCall(s, s.racer.value) then 1 else 0)
  }

  ghost predicate Inv(s: Session) {
    LockInv(s) && StageInv(s) && CallInv(s)
  }

  lemma FreshInv()
    ensures Inv(FRESH)
  {
  }

  /** Everything but the guarded call of `t` is as before. */
  ghost predicate OthersSame(s: Session, s': Session, t: Tid) {
    forall u :: u != t ==>
      GuardOf(s', u) == GuardOf(s, u) && InLock(s', u) == InLock(s, u)
  }

  /** The shared part of the state. */
  predicate SameShared(s: Session, s': Session) {
    s'.(main := s.main, ping := s.ping, shut := s.shut, callbacks := s.callbacks) == s
  }

  lemma SetGuardOthers(s: Session, t: Tid, g: Guarded)
    requires GuardOf(s, t).Some?
    ensures var s' := SetGuard(s, t, g); GuardOf(s', t) == Some(g) && OthersSame(s, s', t)
  {
  }

  lemma SetGuardEffect(s: Session, t: Tid, g: Guarded)
    requires GuardOf(s, t).Some? && StageInv(s)
    ensures var s' := SetGuard(s, t, g);
            GuardOf(s', t) == Some(g) && OthersSame(s, s', t) && StageInv(s') && SameShared(s, s')
  {
    SetGuardOthers(s, t, g);
    SetGuardStage(s, t, g);
    SetGuardShared(s, t, g);
    hide *;
  }

  lemma SetGuardShared(s: Session, t: Tid, g: Guarded)
    requires GuardOf(s, t).Some?
    ensures SameShared(s, SetGuard(s, t, g))
  {
  }

  lemma SetGuardStage(s: Session, t: Tid, g: Guarded)
    requires GuardOf(s, t).Some? && StageInv(s)
    ensures StageInv(SetGuard(s, t, g))
  {
    var s' := SetGuard(s, t, g);
    match t
    case Main => assert Stage(s'.main) == Stage(s.main) == 0;
    case _ => assert s'.main == s.main && GoneOff(s') == GoneOff(s);
  }

  lemma ResumeOthers(s: Session, t: Tid, ok: bool)
    requires GuardOf(s, t).Some?
    ensures var s' := Resume(s, t, ok);
            GuardOf(s', t) in {None, Some(Waiting)} && !InLock(s', t) && OthersSame(s, s', t)
  {
  }

  lemma ResumeEffect(s: Session, t: Tid, ok: bool)
    requires GuardOf(s, t).Some? && StageInv(s)
    ensures var s' := Resume(s, t, ok);
            && GuardOf(s', t) in {None, Some(Waiting)} && !InLock(s', t) && OthersSame(s, s', t)
            && StageInv(s') && SameShared(s, s')
  {
    ResumeOthers(s, t, ok);
    hide OthersSame, InLock;
  }

  /** What a step inside a guarded call does to the shared state. */
  ghost predicate GuardStep(s: Session, s': Session, t: Tid, g: Guarded, g': Option<Guarded>) {
    && OthersSame(s, s', t)
    && GuardOf(s', t) == g'
    && InLock(s', t) == (g'.Some? && !g'.value.Waiting?)
    && s'.cancelled == s.cancelled && s'.racer == s.racer && s'.closes == s.closes
    && s'.lock == (if g.Waiting? then Some(t) else if g.Leaving? then None else s.lock)
    && s'.lateCalls == (if g.Checked? && s.cancelled then s.lateCalls + 1 else s.lateCalls)
    && match g
       case Waiting => g' == Some(Holding) && s.lock == None
       case Holding => g' == Some(if s.cancelled then Leaving(false) else Checked)
       case Checked => g' == Some(Calling)
       case Calling => g'.Some? && g'.value.Leaving?
       case Leaving(_) => g' in {None, Some(Waiting)}
  }

  lemma GuardEffect(s: Session, t: Tid, pick: Pick)
    requires GuardOf(s, t).Some? && GuardEnabled(s, t, pick) && StageInv(s)
    ensures var s' := GuardApply(s, t, pick);
            GuardStep(s, s', t, GuardOf(s, t).value, GuardOf(s', t)) && StageInv(s')
  {
    hide SetGuard, Resume, StageInv, GuardOf, InLock, AboutToCall;
    var g := GuardOf(s, t).value;
    if g.Leaving? {
      ResumeEffect(s, t, g.ok);
      SharedOnly(Resume(s, t, g.ok), None, s.lateCalls);
      GuardInLock(Resume(s, t, g.ok).(lock := None), t);
    } else {
      var next := NextGuard(s, g, pick);
      var s0, s' := SetGuard(s, t, next), GuardApply(s, t, pick);
      SetGuardEffect(s, t, next);
      SharedOnly(s0, s'.lock, s'.lateCalls);
      GuardInLock(s', t);
    }
  }

  function NextGuard(s: Session, g: Guarded, pick: Pick): Guarded {
    match g
    case Waiting => Holding
    case Holding => if s.cancelled then Leaving(false) else Checked
    case Checked => Calling
    case _ => Leaving(pick == Ok)
  }

  lemma GuardInLock(s: Session, t: Tid)
    ensures GuardOf(s, t).Some? ==> InLock(s, t) == !GuardOf(s, t).value.Waiting?
  {
  }

  /** The mutex and the counter say nothing about where the threads are. */
  lemma SharedOnly(s: Session, lock: Option<Tid>, lateCalls: nat)
    ensures var s' := s.(lock := lock, lateCalls := lateCalls);
            && (forall u :: GuardOf(s', u) == GuardOf(s, u) && InLock(s', u) == InLock(s, u))
            && StageInv(s') == StageInv(s)
  {
  }

  lemma GuardKeeps(s: Session, t: Tid, pick: Pick)
    requires Inv(s) && GuardOf(s, t).Some? && GuardEnabled(s, t, pick)
    ensures Inv(GuardApply(s, t, pick))
  {
    GuardEffect(s, t, pick);
    var s' := GuardApply(s, t, pick);
    GuardStepKeeps(s, s', t, GuardOf(s, t).value, GuardOf(s', t));
  }

  lemma GuardStepKeeps(s: Session, s': Session, t: Tid, g: Guarded, g': Option<Guarded>)
    requires Inv(s) && GuardOf(s, t) == Some(g) && GuardStep(s, s', t, g, g') && StageInv(s')
    ensures Inv(s')
  {
    hide GuardOf, Stage, GoneOff, Early;
    assert InLock(s, t) <==> s.lock == Some(t);
    assert InLock(s, t) <==> !g.Waiting? by { GuardInLock(s, t); }
    forall u ensures InLock(s', u) <==> s'.lock == Some(u) {
      if u != t {
        assert InLock(s', u) == InLock(s, u);
      }
    }
    hide InLock;
    assert !s.cancelled ==> s.closes == 0;
  }

  lemma CancelKeeps(s: Session)
    requires Inv(s)
    ensures Inv(DoCancel(s)) && DoCancel(s).cancelled
  {
    var s' := DoCancel(s);
    forall u
      ensures GuardOf(s', u) == GuardOf(s, u) && InLock(s', u) == InLock(s, u)
    {
    }
    forall u | AboutToCall(s, u) ensures InLock(s, u) {
    }
  }

  /** A step outside guarded calls that only moves `t` along, without taking the mutex. */
  ghost predicate Moves(s: Session, s': Session, t: Tid) {
    && OthersSame(s, s', t)
    && GuardOf(s, t) == None
    && GuardOf(s', t) in {None, Some(Waiting)} && InLock(s', t) == InLock(s, t)
    && s'.lock == s.lock && s'.cancelled == s.cancelled && s'.racer == s.racer && s'.lateCalls == s.lateCalls
    && s'.closes == s.closes
  }

  lemma MovesKeeps(s: Session, s': Session, t: Tid)
    requires Inv(s) && Moves(s, s', t) && StageInv(s')
    ensures Inv(s')
  {
  }

  /** A thread's own step, seen after the cancellation it may perform. */
  function Before(s: Session, cancels: bool): Session {
    if cancels then DoCancel(s) else s
  }

  lemma MainMoves(s: Session, pick: Pick)
    requires GuardOf(s, Main) == None && MainEnabled(s, pick)
    requires !(s.main.WantLock? || s.main.Closing? || s.main.Unlock? || s.main.StartPing? || s.main.StartShut?)
    ensures Moves(Before(s, s.main.Cancel?), MainApply(s, pick), Main)
  {
    MainSpares(s, pick);
    hide OthersSame;
  }

  lemma MainSpares(s: Session, pick: Pick)
    requires GuardOf(s, Main) == None && MainEnabled(s, pick)
    requires !(s.main.WantLock? || s.main.Closing? || s.main.Unlock? || s.main.StartPing? || s.main.StartShut?)
    ensures OthersSame(Before(s, s.main.Cancel?), MainApply(s, pick), Main)
  {
  }

  lemma MainStage(s: Session, pick: Pick)
    requires GuardOf(s, Main) == None && MainEnabled(s, pick) && StageInv(s)
    requires !(s.main.WantLock? || s.main.Closing? || s.main.Unlock? || s.main.StartPing? || s.main.StartShut?)
    ensures StageInv(MainApply(s, pick))
  {
    hide OthersSame;
  }

  lemma MainKeeps(s: Session, pick: Pick)
    requires Inv(s) && GuardOf(s, Main) == None && MainEnabled(s, pick)
    ensures Inv(MainApply(s, pick))
  {
    hide LockInv, CallInv, StageInv, Moves, MainApply;
    if s.main.WantLock? || s.main.Closing? || s.main.Unlock? {
      CloseKeeps(s, pick);
    } else if s.main.StartPing? || s.main.StartShut? {
      StartKeeps(s, pick);
    } else {
      CancelKeeps(s);
      MainMoves(s, pick);
      MainStage(s, pick);
      MovesKeeps(Before(s, s.main.Cancel?), MainApply(s, pick), Main);
    }
  }

  lemma StartKeeps(s: Session, pick: Pick)
    requires Inv(s) && MainEnabled(s, pick) && (s.main.StartPing? || s.main.StartShut?)
    ensures Inv(MainApply(s, pick))
  {
    var s' := MainApply(s, pick);
    assert Moves(s, s', if s.main.StartPing? then Ping else Shut);
  }

  lemma CloseKeeps(s: Session, pick: Pick)
    requires Inv(s) && MainEnabled(s, pick) && (s.main.WantLock? || s.main.Closing? || s.main.Unlock?)
    ensures Inv(MainApply(s, pick))
  {
    var s' := MainApply(s, pick);
    assert OthersSame(s, s', Main);
    assert InLock(s, Main) <==> s.lock == Some(Main);
    assert forall u :: GuardOf(s, u) in {Some(Checked), Some(Calling)} ==> InLock(s, u) && u != Main;
  }

  lemma PingMoves(s: Session, pick: Pick)
    requires GuardOf(s, Ping) == None && PingEnabled(s, pick) && StageInv(s)
    ensures Moves(Before(s, s.ping.PingCancel?), PingApply(s, pick), Ping) && StageInv(PingApply(s, pick))
  {
  }

  lemma PingKeeps(s: Session, pick: Pick)
    requires Inv(s) && GuardOf(s, Ping) == None && PingEnabled(s, pick)
    ensures Inv(PingApply(s, pick))
  {
    hide LockInv, CallInv, StageInv, Moves, PingApply;
    CancelKeeps(s);
    PingMoves(s, pick);
    MovesKeeps(Before(s, s.ping.PingCancel?), PingApply(s, pick), Ping);
  }

  lemma ShutKeeps(s: Session, pick: Pick)
    requires Inv(s) && GuardOf(s, Shut) == None && ShutEnabled(s, pick)
    ensures Inv(ShutApply(s, pick))
  {
    assert Moves(s, ShutApply(s, pick), Shut);
  }

  lemma CbMoves(s: Session, i: nat, pick: Pick)
    requires GuardOf(s, Callback(i)) == None && CbEnabled(s, i, pick) && StageInv(s)
    ensures var s' := CbApply(s, i, pick);
            Moves(Before(s, s.callbacks[i].CbCancel?), s', Callback(i)) && StageInv(s')
  {
  }

  lemma CbKeeps(s: Session, i: nat, pick: Pick)
    requires Inv(s) && GuardOf(s, Callback(i)) == None && CbEnabled(s, i, pick)
    ensures Inv(CbApply(s, i, pick))
  {
    hide LockInv, CallInv, StageInv, Moves, CbApply;
    CancelKeeps(s);
    CbMoves(s, i, pick);
    MovesKeeps(Before(s, s.callbacks[i].CbCancel?), CbApply(s, i, pick), Callback(i));
  }

  lemma DeliverKeeps(s: Session)
    requires Inv(s) && s.subscribed
    ensures Inv(s.(callbacks := s.callbacks + [CbStart]))
  {
    assert Moves(s, s.(callbacks := s.callbacks + [CbStart]), Callback(|s.callbacks|));
  }

  /** Every step of every thread keeps the invariant. */
  lemma StepKeeps(s: Session, a: Action)
    requires Inv(s) && Enabled(s, a)
    ensures Inv(Apply(s, a))
  {
    hide LockInv, CallInv, StageInv, GuardEnabled, GuardApply, MainApply, PingApply, ShutApply, CbApply, DoCancel;
    match a
    case Go(t, pick) =>
      if GuardOf(s, t).Some? {
        GuardKeeps(s, t, pick);
      } else {
        match t
        case Main => MainKeeps(s, pick);
        case Ping => PingKeeps(s, pick);
        case Shut => ShutKeeps(s, pick);
        case Callback(i) => CbKeeps(s, i, pick);
      }
    case Deliver => DeliverKeeps(s);
    case ServerStops => ServerStopsKeeps(s);
    case Propagate => CancelKeeps(s);
  }

  lemma ServerStopsKeeps(s: Session)
    requires Inv(s)
    ensures Inv(s.(serverDone := true))
  {
    assert Moves(s, s.(serverDone := true), Callback(|s.callbacks|));
  }

  // ---------------------------------------------------------------------------
  // Runs
  // ---------------------------------------------------------------------------

  predicate Runnable(s: Session, acts: seq<Action>)
    decreases |acts|
  {
    acts == [] || (Enabled(s, acts[0]) && Runnable(Apply(s, acts[0]), acts[1..]))
  }

  function Exec(s: Session, acts: seq<Action>): Session
    requires Runnable(s, acts)
    decreases |acts|
  {
    if acts == [] then s else Exec(Apply(s, acts[0]), acts[1..])
  }

  /** The invariant holds after every interleaving. */
  lemma {:induction false} RunKeeps(s: Session, acts: seq<Action>)
    requires Inv(s) && Runnable(s, acts)
    ensures Inv(Exec(s, acts))
    decreases |acts|
  {
    hide Inv, Enabled, Apply;
    if acts == [] {
    } else {
      StepKeeps(s, acts[0]);
      RunKeeps(Apply(s, acts[0]), acts[1..]);
    }
  }

  // ---------------------------------------------------------------------------
  // The socket
  // ---------------------------------------------------------------------------

  /** The step calls into the socket, or is inside a call to it. */
  predicate TouchesSocket(s: Session, a: Action) {
    a.Go? && ((GuardOf(s, a.t).Some? && GuardOf(s, a.t).value in {Checked, Calling})
              || (a.t == Main && (s.main.SetDeadline? || s.main.Reading? || s.main.Closing?)))
  }

  predicate StartsCall(s: Session, a: Action) {
    a.Go? && AboutToCall(s, a.t)
  }

  /** In every interleaving: at most one thread is inside a guarded socket call; nothing
      touches the socket once it has been closed; nobody is inside a call while it is being
      closed; and it is closed at most once, before the slot is released. And every message read
      is handed on before the next one is read. */
  lemma SocketSafety(acts: seq<Action>)
    requires Runnable(FRESH, acts)
    ensures var s := Exec(FRESH, acts);
            && (forall t, u :: GuardOf(s, t) == Some(Calling) && GuardOf(s, u) == Some(Calling) ==> t == u)
            && (forall a :: Enabled(s, a) && TouchesSocket(s, a) ==> s.closes == 0)
            && (s.main.Closing? ==> forall t :: GuardOf(s, t) !in {Some(Checked), Some(Calling)})
            && s.releases <= s.closes <= 1
            && (s.main.Finished? ==> s.releases == s.closes == 1)
            && s.received == s.published + (if s.main.Publishing? then 1 else 0)
  {
    FreshInv();
    RunKeeps(FRESH, acts);
    var s := Exec(FRESH, acts);
    hide Exec, Runnable;
    forall t | GuardOf(s, t) in {Some(Checked), Some(Calling)} ensures s.lock == Some(t) && InLock(s, t) {
      assert InLock(s, t);
    }
    assert InLock(s, Main) <==> s.lock == Some(Main);
  }

  /** A guarded call, WriteMessage or SetReadDeadline, can start after cancellation in exactly
      one way: its thread was already past its own check, holding the mutex, when cancellation
      came. So at most one ever does, and over a whole session one does if and only if there
      was such a thread. */
  lemma LateCalls(acts: seq<Action>)
    requires Runnable(FRESH, acts)
    ensures var s := Exec(FRESH, acts);
            && s.lateCalls <= 1
            && (forall a :: Enabled(s, a) && StartsCall(s, a) && s.cancelled ==>
                  s.racer == Some(a.t) && s.lateCalls == 0)
            && (s.main.Finished? ==> (s.lateCalls == 1 <==> s.racer.Some?))
  {
    FreshInv();
    RunKeeps(FRESH, acts);
    var s := Exec(FRESH, acts);
    hide Exec, Runnable;
    if s.main.Finished? && s.racer.Some? {
      assert !AboutToCall(s, s.racer.value);
    }
  }

  lemma {:induction false} Extend(s: Session, acts: seq<Action>, a: Action)
    requires Runnable(s, acts) && Enabled(Exec(s, acts), a)
    ensures Runnable(s, acts + [a]) && Exec(s, acts + [a]) == Apply(Exec(s, acts), a)
    decreases |acts|
  {
    hide Enabled, Apply;
    if acts == [] {
      assert [a][1..] == [];
    } else {
      Extend(Apply(s, acts[0]), acts[1..], a);
      assert (acts + [a])[1..] == acts[1..] + [a];
    }
  }

  /** A subscribed session with both goroutines running. */
  const READY := Session(LoopTop, PingSelect, ShutSelect, [], true, false, false, None, 0, 0, 0, None, 0, 0)

  /** A ping past its cancellation check. */
  const PING_OVERDUE := READY.(ping := PingWrite(Checked), lock := Some(Ping))

  /** The shutdown goroutine inside its close frame, and past the check of its read deadline. */
  const SAYING_GOODBYE := READY.(shut := ShutWrite(Calling), serverDone := true, lock := Some(Shut))
  const DEADLINE_OVERDUE := READY.(shut := ShutDeadline(Checked), serverDone := true, lock := Some(Shut))

  lemma GetsReady() returns (acts: seq<Action>)
    ensures Runnable(FRESH, acts) && Exec(FRESH, acts) == READY
  {
    hide Runnable, Exec;
    acts := NoSteps(FRESH);
    Extend(FRESH, acts, Go(Main, Ok)); acts := acts + [Go(Main, Ok)];  // ack
    Extend(FRESH, acts, Go(Main, Ok)); acts := acts + [Go(Main, Ok)];  // subscription
    Extend(FRESH, acts, Go(Main, Ok)); acts := acts + [Go(Main, Ok)];  // ping goroutine
    Extend(FRESH, acts, Go(Main, Ok)); acts := acts + [Go(Main, Ok)];  // shutdown goroutine
  }

  lemma PingGetsThere() returns (acts: seq<Action>)
    ensures Runnable(FRESH, acts) && Exec(FRESH, acts) == PING_OVERDUE
  {
    acts := GetsReady();
    hide Runnable, Exec;
    Extend(FRESH, acts, Go(Ping, Ok)); acts := acts + [Go(Ping, Ok)];  // tick
    Extend(FRESH, acts, Go(Ping, Ok)); acts := acts + [Go(Ping, Ok)];  // mutex
    Extend(FRESH, acts, Go(Ping, Ok)); acts := acts + [Go(Ping, Ok)];  // check passed
  }

  lemma SaysGoodbye() returns (acts: seq<Action>)
    ensures Runnable(FRESH, acts) && Exec(FRESH, acts) == SAYING_GOODBYE
  {
    acts := GetsReady();
    hide Runnable, Exec;
    Extend(FRESH, acts, ServerStops); acts := acts + [ServerStops];
    Extend(FRESH, acts, Go(Shut, Ok)); acts := acts + [Go(Shut, Ok)];  // gw.ctx is over
    Extend(FRESH, acts, Go(Shut, Ok)); acts := acts + [Go(Shut, Ok)];  // mutex
    Extend(FRESH, acts, Go(Shut, Ok)); acts := acts + [Go(Shut, Ok)];  // check passed
    Extend(FRESH, acts, Go(Shut, Ok)); acts := acts + [Go(Shut, Ok)];  // close frame starts
  }

  lemma DeadlineGetsThere() returns (acts: seq<Action>)
    ensures Runnable(FRESH, acts) && Exec(FRESH, acts) == DEADLINE_OVERDUE
  {
    acts := SaysGoodbye();
    hide Runnable, Exec;
    Extend(FRESH, acts, Go(Shut, Ok)); acts := acts + [Go(Shut, Ok)];  // close frame out
    Extend(FRESH, acts, Go(Shut, Ok)); acts := acts + [Go(Shut, Ok)];  // mutex released
    Extend(FRESH, acts, Go(Shut, Ok)); acts := acts + [Go(Shut, Ok)];  // mutex again
    Extend(FRESH, acts, Go(Shut, Ok)); acts := acts + [Go(Shut, Ok)];  // check passed
  }

  lemma NoSteps(s: Session) returns (acts: seq<Action>)
    ensures acts == [] && Runnable(s, acts) && Exec(s, acts) == s
  {
    acts := [];
  }

  /** The check and the write are two steps, so "no write after cancel" does not hold as it
      stands: a ping overtaken by a CLOSE message still goes out. */
  lemma LateWriteHappens() returns (acts: seq<Action>)
    ensures Runnable(FRESH, acts)
    ensures var s := Exec(FRESH, acts);
            s.cancelled && GuardOf(s, Ping) == Some(Calling) && s.lateCalls == 1
  {
    acts := PingGetsThere();
    hide Runnable, Exec;
    Extend(FRESH, acts, Deliver); acts := acts + [Deliver];
    Extend(FRESH, acts, Go(Callback(0), Ok)); acts := acts + [Go(Callback(0), Ok)];      // not cancelled yet
    Extend(FRESH, acts, Go(Callback(0), Fail)); acts := acts + [Go(Callback(0), Fail)];  // Control: CLOSE
    Extend(FRESH, acts, Go(Callback(0), Ok)); acts := acts + [Go(Callback(0), Ok)];      // cancel()
    Extend(FRESH, acts, Go(Ping, Ok)); acts := acts + [Go(Ping, Ok)];                    // WriteMessage starts
  }

  /** The same for a read deadline, overtaken by the server's own cancellation. */
  lemma LateDeadlineHappens() returns (acts: seq<Action>)
    ensures Runnable(FRESH, acts)
    ensures var s := Exec(FRESH, acts);
            s.cancelled && s.shut == ShutDeadline(Calling) && s.lateCalls == 1
  {
    acts := DeadlineGetsThere();
    hide Runnable, Exec;
    Extend(FRESH, acts, Propagate); acts := acts + [Propagate];
    Extend(FRESH, acts, Go(Shut, Ok)); acts := acts + [Go(Shut, Ok)];
  }
}
