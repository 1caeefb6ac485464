/** The session registry of the xws service as interleaved steps: opening, incoming messages,
    the inactivity timer, explicit disconnects and the shutdown sweep, all racing under the
    registry's mutex and one mutex per session. */
module XwsRegistry {
  import opened Options

  type Sid = nat
  type Tid = nat

  /** How far `Open` has taken a session. */
  datatype Phase = Connecting | Refused | Subscribed | Registered

  /** One session. `opener`, `closer` and `heard` are history: the thread that opens it, the one
      that set `closed`, and when the latest message came in whose `resetTimer` is through. */
  datatype Sess = Sess(
    phase: Phase,
    closed: bool,
    armed: bool,           // the inactivity timer is running
    since: nat,            // when it was last started
    heard: nat,
    lock: Option<Tid>,     // the session's mutex
    closes: nat,           // Control CLOSE messages published
    unsubs: nat,           // Unsubscribe calls
    opener: Tid,
    closer: Option<Tid>)

  /** `session.close()`; the mutex is held from `Check` to `Unlock`. */
  datatype ClosePc = WantSession | Check | Mark | StopTimer | Unlock(won: bool) | Publish | Unsub

  /** What follows `close()`: `remove(sid)`, or the rest of a `CloseAll` loop. */
  datatype After = ThenRemove | ThenRest(snap: set<Sid>, rest: set<Sid>)

  /** `Open`; the registry's mutex is held from `LookUp` to `LeaveOpen`. */
  datatype OpenPc = WantOpen | LookUp | ArmTimer | Subscribe | Abort | Register | LeaveOpen

  /** `resetTimer`; the session's mutex is held from `SeeClosed` to `LeaveReset`. */
  datatype ResetPc = WantReset | SeeClosed | Rearm | LeaveReset

  /** `remove`; the registry's mutex is held at `Delete` and `LeaveRemove`. */
  datatype RemovePc = WantRemove | Delete | LeaveRemove

  datatype Thread =
    | Open(sid: Sid, opening: OpenPc)
    | Reset(sid: Sid, resetting: ResetPc, at: nat)   // for a message that came in at `at`
    | Dispatch(sid: Sid)                    // the message's type decides what is next
    | Disconnect(sid: Sid)                  // its first act: timer.Stop()
    | Close(sid: Sid, closing: ClosePc, after: After)
    | Remove(sid: Sid, removing: RemovePc)
    | WantAll                               // CloseAll; the registry's mutex is held at
    | Snapshot                              //   Snapshot,
    | Replace(snap: set<Sid>)               //   Replace
    | LeaveAll(snap: set<Sid>)              //   and LeaveAll
    | Each(snap: set<Sid>, rest: set<Sid>)
    | StopEach(sid: Sid, snap: set<Sid>, rest: set<Sid>)
    | Done
    | AllDone(snap: set<Sid>)

  datatype State = State(
    lock: Option<Tid>,         // the registry's mutex
    registry: set<Sid>,
    sess: map<Sid, Sess>,      // every session anyone ever tried to open
    threads: seq<Thread>,
    now: nat,
    timeout: nat)

  datatype Pick = First | Second | Choose(x: Sid)

  datatype Action =
    | Connect(x: Sid)          // a connect message with a fresh sid
    | Message(x: Sid)
    | Fire(x: Sid)             // the timer runs out
    | Shutdown
    | Pass(d: nat)             // time passes
    | Go(t: Tid, pick: Pick)

  function Empty(timeout: nat): State {
    State(None, {}, map[], [], 0, timeout)
  }

  function NewSess(t: Tid, now: nat): Sess {
    Sess(Connecting, false, false, now, now, None, 0, 0, t, None)
  }

  // ---------------------------------------------------------------------------
  // Steps
  // ---------------------------------------------------------------------------

  predicate HasSid(th: Thread) {
    th.Open? || th.Reset? || th.Dispatch? || th.Disconnect? || th.Close? || th.Remove? || th.StopEach?
  }

  function Put(s: State, t: Tid, th: Thread): State
    requires t < |s.threads|
  {
    s.(threads := s.threads[t := th])
  }

  function With(s: State, x: Sid, e: Sess): State {
    s.(sess := s.sess[x := e])
  }

  predicate WaitsForTable(th: Thread) {
    th.WantAll? || (th.Open? && th.opening.WantOpen?) || (th.Remove? && th.removing.WantRemove?)
  }

  predicate WaitsForSession(th: Thread) {
    (th.Close? && th.closing.WantSession?) || (th.Reset? && th.resetting.WantReset?)
  }

  predicate CanGo(s: State, t: Tid, pick: Pick) {
    && t < |s.threads|
    && var th := s.threads[t];
       && (HasSid(th) ==> th.sid in s.sess)
       && !th.Done? && !th.AllDone?
       && (WaitsForTable(th) ==> s.lock == None)
       && (WaitsForSession(th) ==> s.sess[th.sid].lock == None)
       && (if th.Each? && th.rest != {} then pick.Choose? && pick.x in th.rest else !pick.Choose?)
       && (th.Dispatch? || (th.Open? && th.opening.Subscribe?) || pick != Second)
  }

  function CloseNext(th: Thread, e: Sess): Thread
    requires th.Close?
  {
    match th.closing
    case WantSession => th.(closing := Check)
    case Check => th.(closing := if e.closed then Unlock(false) else Mark)
    case Mark => th.(closing := StopTimer)
    case StopTimer => th.(closing := Unlock(true))
    case Unlock(won) => if won then th.(closing := Publish) else AfterClose(th.sid, th.after)
    case Publish => th.(closing := Unsub)
    case Unsub => AfterClose(th.sid, th.after)
  }

  function CloseSess(th: Thread, e: Sess, t: Tid): Sess
    requires th.Close?
  {
    match th.closing
    case WantSession => e.(lock := Some(t))
    case Check => e
    case Mark => e.(closed := true, closer := Some(t))
    case StopTimer => e.(armed := false)
    case Unlock(_) => e.(lock := None)
    case Publish => e.(closes := e.closes + 1)
    case Unsub => e.(unsubs := e.unsubs + 1)
  }

  function CloseStep(s: State, t: Tid): State
    requires t < |s.threads| && s.threads[t].Close? && s.threads[t].sid in s.sess
  {
    var th := s.threads[t];
    var e := s.sess[th.sid];
    With(Put(s, t, CloseNext(th, e)), th.sid, CloseSess(th, e, t))
  }

  function AfterClose(x: Sid, after: After): Thread {
    match after
    case ThenRemove => Remove(x, WantRemove)
    case ThenRest(snap, rest) => Each(snap, rest)
  }

  function OpenStep(s: State, t: Tid, pick: Pick): State
    requires CanGo(s, t, pick) && s.threads[t].Open?
  {
    var th := s.threads[t];
    var x, e := th.sid, s.sess[th.sid];
    match th.opening
    case WantOpen => Put(s, t, th.(opening := LookUp)).(lock := Some(t))
    case LookUp => Put(s, t, th.(opening := if x in s.registry then LeaveOpen else ArmTimer))
    case ArmTimer => With(Put(s, t, th.(opening := Subscribe)), x, e.(armed := true, since := s.now))
    case Subscribe =>
      if pick == First then With(Put(s, t, th.(opening := Register)), x, e.(phase := Subscribed))
      else With(Put(s, t, th.(opening := Abort)), x, e.(phase := Refused))
    case Abort => With(Put(s, t, th.(opening := LeaveOpen)), x, e.(armed := false))
    case Register =>
      With(Put(s, t, th.(opening := LeaveOpen)), x, e.(phase := Registered)).(registry := s.registry + {x})
    case LeaveOpen => Put(s, t, Done).(lock := None)
  }

  function ResetNext(th: Thread, e: Sess): Thread
    requires th.Reset?
  {
    match th.resetting
    case WantReset => th.(resetting := SeeClosed)
    case SeeClosed => th.(resetting := if e.closed then LeaveReset else Rearm)
    case Rearm => th.(resetting := LeaveReset)
    case LeaveReset => Dispatch(th.sid)
  }

  function ResetSess(th: Thread, e: Sess, t: Tid, now: nat): Sess
    requires th.Reset?
  {
    match th.resetting
    case WantReset => e.(lock := Some(t))
    case SeeClosed => e
    case Rearm => e.(armed := true, since := now)
    case LeaveReset => e.(lock := None, heard := if e.heard < th.at then th.at else e.heard)
  }

  function ResetStep(s: State, t: Tid): State
    requires t < |s.threads| && s.threads[t].Reset? && s.threads[t].sid in s.sess
  {
    var th := s.threads[t];
    var e := s.sess[th.sid];
    With(Put(s, t, ResetNext(th, e)), th.sid, ResetSess(th, e, t, s.now))
  }

  function RemoveStep(s: State, t: Tid): State
    requires CanGo(s, t, First) && s.threads[t].Remove?
  {
    var th := s.threads[t];
    match th.removing
    case WantRemove => Put(s, t, th.(removing := Delete)).(lock := Some(t))
    case Delete => Put(s, t, th.(removing := LeaveRemove)).(registry := s.registry - {th.sid})
    case LeaveRemove => Put(s, t, Done).(lock := None)
  }

  function AllStep(s: State, t: Tid, pick: Pick): State
    requires CanGo(s, t, pick)
  {
    match s.threads[t]
    case Dispatch(x) => Put(s, t, if pick == Second then Disconnect(x) else Done)
    case Disconnect(x) => With(Put(s, t, Close(x, WantSession, ThenRemove)), x, s.sess[x].(armed := false))
    case WantAll => Put(s, t, Snapshot).(lock := Some(t))
    case Snapshot => Put(s, t, Replace(s.registry))
    case Replace(snap) => Put(s, t, LeaveAll(snap)).(registry := {})
    case LeaveAll(snap) => Put(s, t, Each(snap, snap)).(lock := None)
    case Each(snap, rest) =>
      Put(s, t, if rest == {} then AllDone(snap) else StopEach(pick.x, snap, rest - {pick.x}))
    case StopEach(x, snap, rest) =>
      With(Put(s, t, Close(x, WantSession, ThenRest(snap, rest))), x, s.sess[x].(armed := false))
    case _ => s
  }

  predicate Enabled(s: State, a: Action) {
    match a
    case Connect(x) => x !in s.sess
    case Message(x) => x in s.sess && (s.sess[x].phase.Subscribed? || s.sess[x].phase.Registered?)
    case Fire(x) =>
      && x in s.sess && (s.sess[x].phase.Subscribed? || s.sess[x].phase.Registered?)
      && s.sess[x].armed && s.sess[x].since + s.timeout <= s.now
    case Shutdown => true
    case Pass(_) => true
    case Go(t, pick) => CanGo(s, t, pick)
  }

  function Spawn(s: State, th: Thread): State {
    s.(threads := s.threads + [th])
  }

  function Apply(s: State, a: Action): State
    requires Enabled(s, a)
  {
    match a
    case Connect(x) => With(Spawn(s, Open(x, WantOpen)), x, NewSess(|s.threads|, s.now))
    case Message(x) => Spawn(s, Reset(x, WantReset, s.now))
    case Fire(x) => With(Spawn(s, Close(x, WantSession, ThenRemove)), x, s.sess[x].(armed := false))
    case Shutdown => Spawn(s, WantAll)
    case Pass(d) => s.(now := s.now + d)
    case Go(t, pick) =>
      var th := s.threads[t];
      if th.Close? then CloseStep(s, t)
      else if th.Reset? then ResetStep(s, t)
      else if th.Open? then OpenStep(s, t, pick)
      else if th.Remove? then RemoveStep(s, t)
      else AllStep(s, t, pick)
  }

  // ---------------------------------------------------------------------------
  // The invariant
  // ---------------------------------------------------------------------------

  /** The thread is inside the critical section of session `x`. */
  predicate InSession(th: Thread, x: Sid) {
    (th.Close? && th.sid == x && (th.closing.Check? || th.closing.Mark? || th.closing.StopTimer? || th.closing.Unlock?))
    || (th.Reset? && th.sid == x && !th.resetting.WantReset?)
  }

  /** The thread is inside the critical section of the registry. */
  predicate InTable(th: Thread) {
    (th.Open? && !th.opening.WantOpen?) || (th.Remove? && !th.removing.WantRemove?)
    || th.Snapshot? || th.Replace? || th.LeaveAll?
  }

  /** The thread set `closed` on `x` and still has `CLOSE` to publish. */
  predicate BeforePublish(th: Thread, x: Sid) {
    th.Close? && th.sid == x && (th.closing.StopTimer? || th.closing == Unlock(true) || th.closing.Publish?)
  }

  /** The thread set `closed` on `x` and still has to unsubscribe. */
  predicate BeforeUnsub(th: Thread, x: Sid) {
    BeforePublish(th, x) || (th.Close? && th.sid == x && th.closing.Unsub?)
  }

  /** The thread is between setting `closed` on `x` and taking `x` out of the registry. */
  predicate WillRemove(th: Thread, x: Sid) {
    || (BeforeUnsub(th, x) && th.after.ThenRemove?)
    || (th.Remove? && th.sid == x && !th.removing.LeaveRemove?)
  }

  /** What a `CloseAll` took out of the registry. */
  function SnapOf(th: Thread): set<Sid> {
    match th
    case LeaveAll(snap) => snap
    case Each(snap, _) => snap
    case StopEach(_, snap, _) => snap
    case Close(_, _, ThenRest(snap, _)) => snap
    case AllDone(snap) => snap
    case _ => {}
  }

  /** What of that it still has to close. */
  function Pending(th: Thread): set<Sid> {
    match th
    case LeaveAll(snap) => snap
    case Each(_, rest) => rest
    case StopEach(x, _, rest) => rest + {x}
    case Close(x, pc, ThenRest(_, rest)) => if pc.WantSession? || pc.Check? || pc.Mark? then rest + {x} else rest
    case _ => {}
  }

  predicate Live(e: Sess) {
    e.phase.Subscribed? || e.phase.Registered?
  }

  ghost predicate ThreadSid(th: Thread, t: Tid, e: Sess)
    requires HasSid(th)
  {
    && (th.Open? ==>
          && e.opener == t
          && (match th.opening
              case WantOpen | LookUp | ArmTimer => e.phase.Connecting?
              case Subscribe => e.phase.Connecting? && e.armed
              case Abort => e.phase.Refused?
              case Register => e.phase.Subscribed?
              case LeaveOpen => e.phase.Refused? || e.phase.Registered?))
    && (!th.Open? ==> Live(e))
    && (InSession(th, th.sid) ==> e.lock == Some(t))
    && (th.Close? && th.closing.Mark? ==> !e.closed)
    && (th.Reset? && th.resetting.Rearm? ==> !e.closed)
    && (th.Reset? && th.resetting.LeaveReset? && !e.closed ==> th.at <= e.since)
    && (th.Close? && !(th.closing.WantSession? || th.closing.Check? || th.closing.Mark?) ==> e.closed)
    && (th.Remove? ==> e.closed)
    && (BeforeUnsub(th, th.sid) ==> e.closer == Some(t))
  }

  ghost predicate ThreadOk(s: State, t: Tid)
    requires t < |s.threads|
  {
    var th := s.threads[t];
    && (HasSid(th) ==> th.sid in s.sess && ThreadSid(th, t, s.sess[th.sid]))
    && (InTable(th) ==> s.lock == Some(t))
    && (th.Replace? ==> s.registry == th.snap)
    && (th.Reset? ==> th.at <= s.now)
    && (forall x :: x in SnapOf(th) ==>
          && x in s.sess && s.sess[x].phase.Registered? && x !in s.registry
          && (x in Pending(th) || s.sess[x].closed))
    && Pending(th) <= SnapOf(th)
  }

  ghost predicate SessOk(s: State, x: Sid)
    requires x in s.sess
  {
    var e := s.sess[x];
    && e.opener < |s.threads|
    && (e.lock.Some? ==> e.lock.value < |s.threads| && InSession(s.threads[e.lock.value], x))
    && (!Live(e) ==> !e.closed && e.lock == None)
    && (!e.phase.Registered? ==> x !in s.registry)
    && (e.phase.Subscribed? ==> s.threads[e.opener] == Open(x, Register))
    && (!e.closed ==> e.closer == None && e.closes == 0 && e.unsubs == 0)
    && (e.closed ==>
          && e.closer.Some? && e.closer.value < |s.threads|
          && var th := s.threads[e.closer.value];
             && e.closes == (if BeforePublish(th, x) then 0 else 1)
             && e.unsubs == (if BeforeUnsub(th, x) then 0 else 1)
             && (e.armed ==> th.Close? && th.sid == x && th.closing.StopTimer?)
             && (e.phase.Subscribed? || x in s.registry ==> WillRemove(th, x)))
    && (e.phase.Registered? && x !in s.registry && !e.closed ==> Swept(s, x))
    && (Live(e) && !e.closed ==> e.armed || Closing(s, x))
    && e.since <= s.now && e.heard <= s.now
    && (e.armed && !e.closed ==> e.heard <= e.since)
    && (e.phase.Refused? && e.armed ==> s.threads[e.opener] == Open(x, Abort))
  }

  /** Some `CloseAll` took `x` out of the registry and still has to close it. */
  ghost predicate Swept(s: State, x: Sid) {
    exists t :: 0 <= t < |s.threads| && x in Pending(s.threads[t])
  }

  /** The thread is inside `close()` on `x` and has not got as far as setting the flag. */
  predicate AboutToClose(th: Thread, x: Sid) {
    th.Close? && th.sid == x && (th.closing.WantSession? || th.closing.Check? || th.closing.Mark?)
  }

  ghost predicate Closing(s: State, x: Sid) {
    exists t :: 0 <= t < |s.threads| && AboutToClose(s.threads[t], x)
  }

  ghost predicate TableOk(s: State) {
    && (s.lock.Some? ==> s.lock.value < |s.threads| && InTable(s.threads[s.lock.value]))
    && (forall x :: x in s.registry ==> x in s.sess)
  }

  ghost predicate Inv(s: State) {
    && TableOk(s)
    && (forall t :: 0 <= t < |s.threads| ==> ThreadOk(s, t))
    && (forall x :: x in s.sess ==> SessOk(s, x))
  }

  // ---------------------------------------------------------------------------
  // What a step of one thread leaves alone
  // ---------------------------------------------------------------------------

  /** Only thread `t` moved; it may be new. And no time passed. */
  ghost predicate OnlyThread(s: State, s': State, t: Tid) {
    && s'.now == s.now
    && t <= |s.threads| && t < |s'.threads|
    && |s'.threads| == (if t < |s.threads| then |s.threads| else t + 1)
    && forall u :: 0 <= u < |s.threads| && u != t ==> s'.threads[u] == s.threads[u]
  }

  /** How a session may change under a step of thread `t`. */
  ghost predicate Evolves(e: Sess, e': Sess, t: Tid) {
    && e'.opener == e.opener
    && (e'.phase == e.phase || e.opener == t) && (Live(e) ==> Live(e'))
    && (e'.lock == e.lock || e.lock == None || e.lock == Some(t))
    && (e.closed ==> e'.closed && e'.closer == e.closer)
    && (e'.closed ==> e.closed || e.lock == Some(t))
    && (e.phase.Registered? ==> e'.phase.Registered?)
    && (e.armed && !Live(e) ==> e'.armed || e.opener == t)
    && (e'.since == e.since || !Live(e) || e.lock == Some(t))
  }

  /** The registry is only touched by whoever holds its mutex, and only a session that has
      just been subscribed comes in. */
  ghost predicate TableEvolves(s: State, s': State, t: Tid) {
    && ((s'.lock == s.lock && s'.registry == s.registry) || s.lock == None || s.lock == Some(t))
    && (forall x :: x in s'.registry ==> x in s.registry || (x in s.sess && s.sess[x].phase.Subscribed?))
  }

  ghost predicate SessEvolve(s: State, s': State, t: Tid) {
    forall y :: y in s.sess ==> y in s'.sess && Evolves(s.sess[y], s'.sess[y], t)
  }

  lemma OtherThread(s: State, s': State, t: Tid, u: Tid)
    requires OnlyThread(s, s', t) && TableEvolves(s, s', t) && SessEvolve(s, s', t)
    requires u < |s.threads| && u != t && ThreadOk(s, u)
    ensures ThreadOk(s', u)
  {
    var th := s.threads[u];
    assert s'.threads[u] == th;
    hide InSession, InTable, BeforeUnsub, SnapOf, Pending, HasSid;
    if HasSid(th) {
      var e := s.sess[th.sid];
      assert Evolves(e, s'.sess[th.sid], t);
    }
  }

  /** Thread `t` means the same to session `y` after its step. */
  ghost predicate SameTo(th: Thread, th': Thread, y: Sid) {
    && (InSession(th, y) ==> InSession(th', y))
    && BeforePublish(th, y) == BeforePublish(th', y) && BeforeUnsub(th, y) == BeforeUnsub(th', y)
    && (th.Close? && th.sid == y ==> th' == th)
    && (WillRemove(th, y) ==> WillRemove(th', y))
    && (th == Open(y, Register) || th == Open(y, Abort) ==> th' == th)
    && (y in Pending(th) ==> y in Pending(th'))
  }

  /** At most, its timer was stopped. */
  lemma OtherSess(s: State, s': State, t: Tid, y: Sid)
    requires OnlyThread(s, s', t) && y in s.sess && SessOk(s, y)
    requires y in s'.sess && (y in s'.registry <==> y in s.registry)
    requires s'.sess[y] == s.sess[y]
          || (s'.sess[y] == s.sess[y].(armed := false) && AboutToClose(s'.threads[t], y))
    requires t < |s.threads| ==> SameTo(s.threads[t], s'.threads[t], y)
    ensures SessOk(s', y)
  {
    if Swept(s, y) {
      SweptStill(s, s', t, y);
    }
    if Closing(s, y) {
      ClosingStill(s, s', t, y);
    }
    hide InSession, BeforePublish, BeforeUnsub, WillRemove, Pending, Swept, AboutToClose;
  }

  lemma SweptStill(s: State, s': State, t: Tid, y: Sid)
    requires OnlyThread(s, s', t) && Swept(s, y)
    requires t < |s.threads| && y in Pending(s.threads[t]) ==> y in Pending(s'.threads[t])
    ensures Swept(s', y)
  {
    hide Pending;
    var u :| 0 <= u < |s.threads| && y in Pending(s.threads[u]);
    assert y in Pending(s'.threads[u]);
  }

  lemma ClosingStill(s: State, s': State, t: Tid, y: Sid)
    requires OnlyThread(s, s', t) && Closing(s, y)
    requires t < |s.threads| && AboutToClose(s.threads[t], y) ==> AboutToClose(s'.threads[t], y)
    ensures Closing(s', y)
  {
    hide AboutToClose;
    var u :| 0 <= u < |s.threads| && AboutToClose(s.threads[u], y);
    assert AboutToClose(s'.threads[u], y);
  }

  lemma Assemble(s: State, s': State, t: Tid)
    requires Inv(s) && OnlyThread(s, s', t) && TableEvolves(s, s', t) && SessEvolve(s, s', t)
    requires TableOk(s') && ThreadOk(s', t)
    requires forall y :: y in s'.sess ==> SessOk(s', y)
    ensures Inv(s')
  {
    hide ThreadOk, SessOk, SessEvolve, TableEvolves, TableOk;
    forall u | 0 <= u < |s'.threads| && u != t ensures ThreadOk(s', u) {
      OtherThread(s, s', t, u);
    }
  }

  /** A thread that works on session `x` looks the same to every other session. */
  lemma BusyWith(th: Thread, th': Thread, y: Sid)
    requires HasSid(th) ==> th.sid != y
    requires HasSid(th') ==> th'.sid != y
    requires y in Pending(th) ==> y in Pending(th')
    ensures SameTo(th, th', y)
  {
  }

  /** A step of thread `t` that touches session `x` only. */
  lemma KeepsOneSession(s: State, s': State, t: Tid, x: Sid)
    requires Inv(s) && OnlyThread(s, s', t) && x in s.sess && s'.sess.Keys == s.sess.Keys
    requires TableEvolves(s, s', t) && TableOk(s')
    requires forall y :: y in s.sess && y != x ==> s'.sess[y] == s.sess[y] && (y in s'.registry <==> y in s.registry)
    requires Evolves(s.sess[x], s'.sess[x], t)
    requires t < |s.threads| ==> forall y :: y in s.sess && y != x ==> SameTo(s.threads[t], s'.threads[t], y)
    requires ThreadOk(s', t) && SessOk(s', x)
    ensures Inv(s')
  {
    hide ThreadOk, SessOk, TableOk, SameTo, TableEvolves;
    forall y | y in s'.sess && y != x ensures SessOk(s', y) {
      OtherSess(s, s', t, y);
    }
    Assemble(s, s', t);
  }

  /** A step of thread `t` that touches no session. */
  lemma KeepsEverySession(s: State, s': State, t: Tid)
    requires Inv(s) && OnlyThread(s, s', t) && s'.sess == s.sess && s'.registry == s.registry
    requires TableEvolves(s, s', t) && TableOk(s')
    requires t < |s.threads| ==> forall y :: y in s.sess ==> SameTo(s.threads[t], s'.threads[t], y)
    requires ThreadOk(s', t)
    ensures Inv(s')
  {
    hide ThreadOk, SessOk, TableOk, SameTo, TableEvolves;
    forall y | y in s'.sess ensures SessOk(s', y) {
      OtherSess(s, s', t, y);
    }
    Assemble(s, s', t);
  }

  /** What a step confined to one thread and its session has to respect. */
  ghost predicate LocalStep(th: Thread, th': Thread, e: Sess, e': Sess, t: Tid)
    requires HasSid(th)
  {
    && Evolves(e, e', t)
    && !InTable(th) && !InTable(th')
    && SnapOf(th') == SnapOf(th) && Pending(th') <= Pending(th) <= Pending(th') + {th.sid}
    && (th.sid in Pending(th) && th.sid !in Pending(th') ==> e'.closed)
    && (HasSid(th') ==> th'.sid == th.sid && ThreadSid(th', t, e'))
    && (th'.Reset? ==> th.Reset? && th'.at == th.at)
  }

  function Local(s: State, t: Tid, th': Thread, e': Sess): State
    requires t < |s.threads| && HasSid(s.threads[t])
  {
    With(Put(s, t, th'), s.threads[t].sid, e')
  }

  lemma LocalThread(s: State, t: Tid, th': Thread, e': Sess)
    requires t < |s.threads| && HasSid(s.threads[t]) && s.threads[t].sid in s.sess && ThreadOk(s, t)
    requires LocalStep(s.threads[t], th', s.sess[s.threads[t].sid], e', t)
    ensures ThreadOk(Local(s, t, th', e'), t)
  {
    hide ThreadSid, SnapOf, Pending, Live;
  }

  lemma LocalTable(s: State, t: Tid, th': Thread, e': Sess)
    requires t < |s.threads| && HasSid(s.threads[t]) && TableOk(s) && !InTable(s.threads[t])
    ensures TableOk(Local(s, t, th', e'))
  {
    hide InTable;
  }

  lemma LocalKeeps(s: State, t: Tid, th': Thread, e': Sess)
    requires Inv(s) && t < |s.threads| && HasSid(s.threads[t]) && s.threads[t].sid in s.sess
    requires LocalStep(s.threads[t], th', s.sess[s.threads[t].sid], e', t)
    requires SessOk(Local(s, t, th', e'), s.threads[t].sid)
    ensures Inv(Local(s, t, th', e'))
  {
    var s', th := Local(s, t, th', e'), s.threads[t];
    assert ThreadOk(s, t);
    LocalThread(s, t, th', e');
    LocalTable(s, t, th', e');
    hide ThreadOk, SessOk, TableOk, Evolves, ThreadSid, InTable;
    forall y | y in s.sess && y != th.sid ensures SameTo(th, th', y) {
      BusyWith(th, th', y);
    }
    hide Inv, SameTo, SnapOf, Pending;
    KeepsOneSession(s, s', t, th.sid);
  }

  // ---------------------------------------------------------------------------
  // Steps confined to one session
  // ---------------------------------------------------------------------------

  lemma CloseLocal(th: Thread, e: Sess, t: Tid)
    requires th.Close? && ThreadSid(th, t, e) && (th.closing.WantSession? ==> e.lock == None)
    ensures LocalStep(th, CloseNext(th, e), e, CloseSess(th, e, t), t)
  {
  }

  lemma CloseSessOk(s: State, t: Tid)
    requires CanGo(s, t, First) && s.threads[t].Close? && ThreadOk(s, t) && SessOk(s, s.threads[t].sid)
    ensures SessOk(CloseStep(s, t), s.threads[t].sid)
  {
    var x, s' := s.threads[t].sid, CloseStep(s, t);
    if Swept(s, x) && !s'.sess[x].closed {
      SweptStill(s, s', t, x);
    }
    if Closing(s, x) && !s'.sess[x].closed {
      ClosingStill(s, s', t, x);
    }
    hide InTable, Swept, Closing;
  }

  lemma CloseKeeps(s: State, t: Tid)
    requires Inv(s) && CanGo(s, t, First) && s.threads[t].Close?
    ensures Inv(CloseStep(s, t))
  {
    var th := s.threads[t];
    var e := s.sess[th.sid];
    assert ThreadOk(s, t);
    assert SessOk(s, th.sid);
    CloseLocal(th, e, t);
    CloseSessOk(s, t);
    hide Inv, SessOk, CloseNext, CloseSess, LocalStep, ThreadOk;
    LocalKeeps(s, t, CloseNext(th, e), CloseSess(th, e, t));
  }

  lemma ResetLocal(th: Thread, e: Sess, t: Tid, now: nat)
    requires th.Reset? && th.at <= now && ThreadSid(th, t, e) && (th.resetting.WantReset? ==> e.lock == None)
    ensures LocalStep(th, ResetNext(th, e), e, ResetSess(th, e, t, now), t)
  {
  }

  lemma ResetSessOk(s: State, t: Tid)
    requires CanGo(s, t, First) && s.threads[t].Reset? && ThreadOk(s, t) && SessOk(s, s.threads[t].sid)
    ensures SessOk(ResetStep(s, t), s.threads[t].sid)
  {
    var x, s' := s.threads[t].sid, ResetStep(s, t);
    if Swept(s, x) {
      SweptStill(s, s', t, x);
    }
    if Closing(s, x) {
      ClosingStill(s, s', t, x);
    }
    hide InTable, Swept, Closing;
  }

  lemma ResetKeeps(s: State, t: Tid)
    requires Inv(s) && CanGo(s, t, First) && s.threads[t].Reset?
    ensures Inv(ResetStep(s, t))
  {
    var th := s.threads[t];
    var e := s.sess[th.sid];
    assert ThreadOk(s, t);
    assert SessOk(s, th.sid);
    ResetLocal(th, e, t, s.now);
    ResetSessOk(s, t);
    hide Inv, SessOk, ResetNext, ResetSess, LocalStep, ThreadOk;
    LocalKeeps(s, t, ResetNext(th, e), ResetSess(th, e, t, s.now));
  }

  /** Dispatching a message, and `timer.Stop()` ahead of `close()`. */
  predicate Plain(th: Thread) {
    th.Dispatch? || th.Disconnect? || th.StopEach?
  }

  lemma PlainLocal(s: State, t: Tid, pick: Pick)
    requires CanGo(s, t, pick) && ThreadOk(s, t) && Plain(s.threads[t])
    ensures var th, s' := s.threads[t], AllStep(s, t, pick);
            && s' == Local(s, t, s'.threads[t], s'.sess[th.sid])
            && LocalStep(th, s'.threads[t], s.sess[th.sid], s'.sess[th.sid], t)
            && SameTo(th, s'.threads[t], th.sid)
            && (s'.sess[th.sid] == s.sess[th.sid]
                || (s'.sess[th.sid] == s.sess[th.sid].(armed := false) && AboutToClose(s'.threads[t], th.sid)))
  {
  }

  lemma PlainKeeps(s: State, t: Tid, pick: Pick)
    requires Inv(s) && CanGo(s, t, pick) && Plain(s.threads[t])
    ensures Inv(AllStep(s, t, pick))
  {
    var th := s.threads[t];
    assert ThreadOk(s, t);
    assert SessOk(s, th.sid);
    PlainLocal(s, t, pick);
    hide Inv, SessOk, AllStep, LocalStep, ThreadOk, SameTo;
    var s' := AllStep(s, t, pick);
    OtherSess(s, s', t, th.sid);
    LocalKeeps(s, t, s'.threads[t], s'.sess[th.sid]);
  }

  // ---------------------------------------------------------------------------
  // Steps under the registry's mutex
  // ---------------------------------------------------------------------------

  /** Taking or leaving the mutex, or looking at the table. */
  lemma TableMoveKeeps(s: State, t: Tid, th': Thread, lock: Option<Tid>)
    requires Inv(s) && t < |s.threads|
    requires lock == (if InTable(th') then Some(t) else None)
    requires if InTable(s.threads[t]) then s.lock == Some(t) else s.lock == None
    requires forall y :: y in s.sess ==> SameTo(s.threads[t], th', y)
    requires ThreadOk(Put(s, t, th').(lock := lock), t)
    ensures Inv(Put(s, t, th').(lock := lock))
  {
    var s' := Put(s, t, th').(lock := lock);
    assert TableOk(s');
    hide ThreadOk, TableOk, SameTo, InTable;
    KeepsEverySession(s, s', t);
  }

  lemma OpenKeeps(s: State, t: Tid, pick: Pick)
    requires Inv(s) && CanGo(s, t, pick) && s.threads[t].Open?
    ensures Inv(OpenStep(s, t, pick))
  {
    var th := s.threads[t];
    var s' := OpenStep(s, t, pick);
    var th', x := s'.threads[t], th.sid;
    OpenThread(s, t, pick);
    if th.opening.WantOpen? || th.opening.LookUp? || th.opening.LeaveOpen? {
      assert s' == Put(s, t, th').(lock := s'.lock);
      assert ThreadOk(s, t);
      assert forall y :: SameTo(th, th', y);
      hide Inv, ThreadOk, OpenStep, SameTo;
      TableMoveKeeps(s, t, th', s'.lock);
    } else {
      OpenSess(s, t, pick);
      OpenSame(th, th');
      assert ThreadOk(s, t);
      assert TableOk(s');
      assert Evolves(s.sess[x], s'.sess[x], t);
      hide Inv, ThreadOk, SessOk, TableOk, Evolves, SameTo;
      KeepsOneSession(s, s', t, x);
    }
  }

  lemma OpenSame(th: Thread, th': Thread)
    requires th.Open? && th'.Open? && th'.sid == th.sid
    ensures forall y :: y != th.sid ==> SameTo(th, th', y)
  {
  }

  lemma OpenThread(s: State, t: Tid, pick: Pick)
    requires Inv(s) && CanGo(s, t, pick) && s.threads[t].Open?
    ensures ThreadOk(OpenStep(s, t, pick), t)
  {
    assert ThreadOk(s, t);
    assert SessOk(s, s.threads[t].sid);
  }

  lemma OpenSess(s: State, t: Tid, pick: Pick)
    requires Inv(s) && CanGo(s, t, pick) && s.threads[t].Open?
    requires var o := s.threads[t].opening; o.ArmTimer? || o.Subscribe? || o.Abort? || o.Register?
    ensures SessOk(OpenStep(s, t, pick), s.threads[t].sid)
  {
    var x := s.threads[t].sid;
    assert ThreadOk(s, t);
    assert SessOk(s, x);
    if Closing(s, x) {
      ClosingStill(s, OpenStep(s, t, pick), t, x);
    }
  }

  /** No session is about to be registered while another thread holds the table's mutex. */
  lemma RegisteredByNow(s: State, t: Tid, x: Sid)
    requires Inv(s) && t < |s.threads| && InTable(s.threads[t]) && !s.threads[t].Open? && x in s.sess
    ensures !s.sess[x].phase.Subscribed?
  {
    assert SessOk(s, x);
    assert ThreadOk(s, t);
    assert ThreadOk(s, s.sess[x].opener);
  }

  lemma RemoveKeeps(s: State, t: Tid)
    requires Inv(s) && CanGo(s, t, First) && s.threads[t].Remove?
    ensures Inv(RemoveStep(s, t))
  {
    var th := s.threads[t];
    var s' := RemoveStep(s, t);
    var th', x := s'.threads[t], th.sid;
    assert ThreadOk(s, t);
    assert ThreadOk(s', t);
    if !th.removing.Delete? {
      assert s' == Put(s, t, th').(lock := s'.lock);
      assert forall y :: SameTo(th, th', y);
      hide Inv, ThreadOk, RemoveStep, SameTo;
      TableMoveKeeps(s, t, th', s'.lock);
    } else {
      assert SessOk(s, x);
      RegisteredByNow(s, t, x);
      assert SessOk(s', x);
      forall y | y != x ensures SameTo(th, th', y) {
      }
      assert TableOk(s');
      hide Inv, ThreadOk, SessOk, TableOk, Evolves, SameTo;
      KeepsOneSession(s, s', t, x);
    }
  }

  /** The rest of `CloseAll`, up to its loop. */
  lemma AllKeeps(s: State, t: Tid, pick: Pick)
    requires Inv(s) && CanGo(s, t, pick)
    requires var th := s.threads[t]; th.WantAll? || th.Snapshot? || th.LeaveAll?
    ensures Inv(AllStep(s, t, pick))
  {
    var th := s.threads[t];
    var s' := AllStep(s, t, pick);
    var th' := s'.threads[t];
    assert ThreadOk(s, t);
    assert ThreadOk(s', t);
    assert s' == Put(s, t, th').(lock := s'.lock);
    assert forall y :: SameTo(th, th', y);
    hide Inv, ThreadOk, AllStep, SameTo;
    TableMoveKeeps(s, t, th', s'.lock);
  }

  lemma EachKeeps(s: State, t: Tid, pick: Pick)
    requires Inv(s) && CanGo(s, t, pick) && s.threads[t].Each?
    ensures Inv(AllStep(s, t, pick))
  {
    var th := s.threads[t];
    var s' := AllStep(s, t, pick);
    var th' := s'.threads[t];
    assert Pending(th') == Pending(th);
    assert ThreadOk(s, t);
    if th'.StopEach? {
      assert SessOk(s, th'.sid);
    }
    assert ThreadOk(s', t);
    assert forall y :: SameTo(th, th', y);
    assert TableOk(s');
    hide Inv, ThreadOk, AllStep, SameTo, TableOk;
    KeepsEverySession(s, s', t);
  }

  /** `CloseAll` empties the registry: every session in it goes over to the snapshot. */
  lemma ReplaceKeeps(s: State, t: Tid)
    requires Inv(s) && CanGo(s, t, First) && s.threads[t].Replace?
    ensures Inv(AllStep(s, t, First))
  {
    var th := s.threads[t];
    var s' := AllStep(s, t, First);
    assert ThreadOk(s, t);
    assert ThreadOk(s', t) by {
      hide SessOk, TableOk;
    }
    assert TableOk(s') && SessEvolve(s, s', t);
    hide ThreadOk, SessOk, TableOk, SessEvolve;
    forall y | y in s.sess ensures SessOk(s', y) {
      assert SessOk(s, y);
      RegisteredByNow(s, t, y);
      ReplaceSess(s, t, y);
    }
    hide Inv, AllStep;
    Assemble(s, s', t);
  }

  lemma ReplaceSess(s: State, t: Tid, y: Sid)
    requires CanGo(s, t, First) && s.threads[t].Replace? && ThreadOk(s, t)
    requires y in s.sess && SessOk(s, y) && !s.sess[y].phase.Subscribed?
    ensures SessOk(AllStep(s, t, First), y)
  {
    assert s.threads[t].snap == s.registry;
    var s' := AllStep(s, t, First);
    assert s'.threads[t] == LeaveAll(s.registry);
    if y in s.registry {
      assert y in Pending(s'.threads[t]);
    } else if Swept(s, y) {
      SweptStill(s, s', t, y);
    }
    if Closing(s, y) {
      ClosingStill(s, s', t, y);
    }
  }

  // ---------------------------------------------------------------------------
  // New threads
  // ---------------------------------------------------------------------------

  lemma SpawnKeeps(s: State, x: Sid, th: Thread, e: Sess)
    requires Inv(s) && x in s.sess && Live(s.sess[x])
    requires (th == Reset(x, WantReset, s.now) && e == s.sess[x])
          || (th == Close(x, WantSession, ThenRemove) && e == s.sess[x].(armed := false))
    ensures Inv(With(Spawn(s, th), x, e))
  {
    var s', t := With(Spawn(s, th), x, e), |s.threads|;
    assert ThreadOk(s', t) && TableOk(s');
    assert SessOk(s, x);
    hide Inv, ThreadOk, SessOk, TableOk;
    OtherSess(s, s', t, x);
    KeepsOneSession(s, s', t, x);
  }

  lemma ConnectKeeps(s: State, x: Sid)
    requires Inv(s) && x !in s.sess
    ensures Inv(Apply(s, Connect(x)))
  {
    var s', t := Apply(s, Connect(x)), |s.threads|;
    assert ThreadOk(s', t) && TableOk(s') && SessOk(s', x);
    hide Inv, ThreadOk, SessOk, TableOk;
    forall y | y in s.sess ensures SessOk(s', y) {
      assert SessOk(s, y) by { InvSess(s, y); }
      OtherSess(s, s', t, y);
    }
    Assemble(s, s', t);
  }

  lemma InvSess(s: State, x: Sid)
    requires Inv(s) && x in s.sess
    ensures SessOk(s, x)
  {
  }

  lemma ShutdownKeeps(s: State)
    requires Inv(s)
    ensures Inv(Apply(s, Shutdown))
  {
    var s', t := Apply(s, Shutdown), |s.threads|;
    assert ThreadOk(s', t) && TableOk(s');
    hide Inv, ThreadOk, SessOk, TableOk;
    KeepsEverySession(s, s', t);
  }

  lemma PassKeeps(s: State, d: nat)
    requires Inv(s)
    ensures Inv(Apply(s, Pass(d)))
  {
    var s' := Apply(s, Pass(d));
    hide InSession, InTable, BeforePublish, BeforeUnsub, WillRemove, SnapOf, Pending, ThreadSid, AboutToClose;
    assert TableOk(s');
    forall t | 0 <= t < |s'.threads| ensures ThreadOk(s', t) {
      assert ThreadOk(s, t);
    }
    forall x | x in s'.sess ensures SessOk(s', x) {
      assert SessOk(s, x);
      assert Swept(s, x) == Swept(s', x) && Closing(s, x) == Closing(s', x);
    }
  }

  /** Every step of every thread, and time passing, keeps the invariant. */
  lemma StepKeeps(s: State, a: Action)
    requires Inv(s) && Enabled(s, a)
    ensures Inv(Apply(s, a))
  {
    hide Inv, AllStep, CloseStep, ResetStep, OpenStep, RemoveStep;
    match a
    case Connect(x) => ConnectKeeps(s, x);
    case Message(x) =>
      SpawnKeeps(s, x, Reset(x, WantReset, s.now), s.sess[x]);
      assert s.sess[x := s.sess[x]] == s.sess;
    case Fire(x) => SpawnKeeps(s, x, Close(x, WantSession, ThenRemove), s.sess[x].(armed := false));
    case Shutdown => ShutdownKeeps(s);
    case Pass(d) => PassKeeps(s, d);
    case Go(t, pick) =>
      var th := s.threads[t];
      if th.Close? { CloseKeeps(s, t); }
      else if th.Reset? { ResetKeeps(s, t); }
      else if th.Open? { OpenKeeps(s, t, pick); }
      else if th.Remove? { RemoveKeeps(s, t); }
      else if Plain(th) { PlainKeeps(s, t, pick); }
      else if th.Each? { EachKeeps(s, t, pick); }
      else if th.Replace? { ReplaceKeeps(s, t); }
      else { AllKeeps(s, t, pick); }
  }

  // ---------------------------------------------------------------------------
  // Runs
  // ---------------------------------------------------------------------------

  predicate Runnable(s: State, acts: seq<Action>)
    decreases |acts|
  {
    acts == [] || (Enabled(s, acts[0]) && Runnable(Apply(s, acts[0]), acts[1..]))
  }

  function Exec(s: State, acts: seq<Action>): State
    requires Runnable(s, acts)
    decreases |acts|
  {
    if acts == [] then s else Exec(Apply(s, acts[0]), acts[1..])
  }

  lemma {:induction false} RunKeeps(s: State, acts: seq<Action>)
    requires Inv(s) && Runnable(s, acts)
    ensures Inv(Exec(s, acts))
    decreases |acts|
  {
    hide Inv, Enabled, Apply;
    if acts == [] {
    } else {
      StepKeeps(s, acts[0]);
      RunKeeps(Apply(s, acts[0]), acts[1..]);
    }
  }

  lemma Reached(d: nat, acts: seq<Action>)
    requires Runnable(Empty(d), acts)
    ensures Inv(Exec(Empty(d), acts))
  {
    RunKeeps(Empty(d), acts);
  }

  /** In every interleaving Control CLOSE and Unsubscribe are issued at most once per session,
      and exactly once as soon as the session is closed and nobody is still inside the part of
      `close()` that issues them. */
  lemma OneClose(d: nat, acts: seq<Action>, x: Sid)
    requires Runnable(Empty(d), acts) && x in Exec(Empty(d), acts).sess
    ensures var s := Exec(Empty(d), acts);
            var e := s.sess[x];
            && e.unsubs <= e.closes <= 1
            && (e.closes == 1 ==> e.closed)
            && (e.closed && (forall t :: 0 <= t < |s.threads| ==> !BeforeUnsub(s.threads[t], x)) ==>
                  e.closes == e.unsubs == 1)
  {
    Reached(d, acts);
    var s := Exec(Empty(d), acts);
    hide Runnable, Exec;
    assert SessOk(s, x);
    assert forall th :: BeforePublish(th, x) ==> BeforeUnsub(th, x);
  }

  /** Once `closed` is set no step arms the timer again or reopens the session, and only the
      step right after it can find the timer still armed. */
  lemma NeverRearmed(d: nat, acts: seq<Action>, a: Action, x: Sid)
    requires Runnable(Empty(d), acts) && Enabled(Exec(Empty(d), acts), a)
    requires var s := Exec(Empty(d), acts); x in s.sess && s.sess[x].closed
    ensures var s := Exec(Empty(d), acts);
            var e' := Apply(s, a).sess[x];
            && e'.closed
            && (e'.armed ==> s.sess[x].armed)
            && (s.sess[x].armed ==> exists t :: 0 <= t < |s.threads| && s.threads[t].Close? && s.threads[t].sid == x
                                               && s.threads[t].closing.StopTimer?)
  {
    Reached(d, acts);
    var s := Exec(Empty(d), acts);
    hide Runnable, Exec;
    assert SessOk(s, x);
    if a.Go? {
      hide SessOk, ThreadOk, Apply;
      GoNeverArms(s, a.t, a.pick, x);
    }
  }

  lemma GoNeverArms(s: State, t: Tid, pick: Pick, x: Sid)
    requires Inv(s) && CanGo(s, t, pick) && x in s.sess && s.sess[x].closed
    ensures var s' := Apply(s, Go(t, pick));
            x in s'.sess && s'.sess[x].closed && (s'.sess[x].armed ==> s.sess[x].armed)
  {
    var th := s.threads[t];
    assert ThreadOk(s, t);
    assert SessOk(s, x);
    hide Inv, ThreadOk, SessOk, CanGo, InSession, BeforeUnsub, SnapOf, Pending;
    if th.Close? {
    } else if th.Reset? {
      ThreadAtSid(s, t);
    } else if th.Open? {
      ThreadAtSid(s, t);
      ClosedIsLive(s, x);
    }
  }

  lemma ThreadAtSid(s: State, t: Tid)
    requires t < |s.threads| && HasSid(s.threads[t]) && ThreadOk(s, t)
    ensures s.threads[t].sid in s.sess && ThreadSid(s.threads[t], t, s.sess[s.threads[t].sid])
  {
  }

  lemma ClosedIsLive(s: State, x: Sid)
    requires x in s.sess && SessOk(s, x)
    ensures s.sess[x].closed ==> Live(s.sess[x])
  {
  }

  /** The same over any continuation: a closed session whose timer is stopped stays so. */
  lemma {:induction false} StaysClosed(d: nat, acts: seq<Action>, more: seq<Action>, x: Sid)
    requires Runnable(Empty(d), acts) && Runnable(Exec(Empty(d), acts), more)
    requires var s := Exec(Empty(d), acts); x in s.sess && s.sess[x].closed && !s.sess[x].armed
    ensures var s' := Exec(Exec(Empty(d), acts), more);
            x in s'.sess && s'.sess[x].closed && !s'.sess[x].armed
    decreases |more|
  {
    hide Enabled, Apply;
    if more == [] {
    } else {
      var s := Exec(Empty(d), acts);
      NeverRearmed(d, acts, more[0], x);
      Extend(Empty(d), acts, more[0]);
      NeverForgotten(s, more[0], x);
      StaysClosed(d, acts + [more[0]], more[1..], x);
    }
  }

  lemma NeverForgotten(s: State, a: Action, x: Sid)
    requires Enabled(s, a) && x in s.sess
    ensures x in Apply(s, a).sess
  {
  }

  lemma {:induction false} Extend(s: State, acts: seq<Action>, a: Action)
    requires Runnable(s, acts) && Enabled(Exec(s, acts), a)
    ensures Runnable(s, acts + [a]) && Exec(s, acts + [a]) == Apply(Exec(s, acts), a)
    decreases |acts|
  {
    hide Enabled, Apply;
    if acts == [] {
      assert [a][1..] == [];
    } else {
      Extend(Apply(s, acts[0]), acts[1..], a);
      assert (acts + [a])[1..] == acts[1..] + [a];
    }
  }

  // ---------------------------------------------------------------------------
  // The registry
  // ---------------------------------------------------------------------------

  /** Somebody is about to put `x` into the registry. */
  predicate WillRegister(th: Thread, x: Sid) {
    th == Open(x, Register)
  }

  /** In every state: a session that is open is in the registry, or about to be, or in the
      snapshot of a `CloseAll` that still has to close it; and a session in the registry is
      open, or the very thread that closed it is still to remove it. */
  lemma RegistryTracks(d: nat, acts: seq<Action>, x: Sid)
    requires Runnable(Empty(d), acts) && x in Exec(Empty(d), acts).sess
    ensures var s := Exec(Empty(d), acts);
            && (Live(s.sess[x]) && !s.sess[x].closed ==>
                  || x in s.registry
                  || (exists t :: 0 <= t < |s.threads| && WillRegister(s.threads[t], x))
                  || (exists t :: 0 <= t < |s.threads| && x in Pending(s.threads[t])))
            && (x in s.registry ==>
                  && s.sess[x].phase.Registered?
                  && (s.sess[x].closed ==> exists t :: 0 <= t < |s.threads| && StillRemoving(s, t, x)))
  {
    Reached(d, acts);
    var s := Exec(Empty(d), acts);
    hide Runnable, Exec;
    assert SessOk(s, x);
    var e := s.sess[x];
    if e.phase.Subscribed? {
      assert WillRegister(s.threads[e.opener], x);
    }
    assert x in s.registry && e.closed ==> StillRemoving(s, e.closer.value, x);
  }

  /** Thread `t` set `closed` on `x` and is on its way to `delete`. A `close()` that has not set
      the flag yet, or found it set, does not count. */
  predicate StillRemoving(s: State, t: Tid, x: Sid)
    requires t < |s.threads|
  {
    x in s.sess && s.sess[x].closed && s.sess[x].closer == Some(t) && WillRemove(s.threads[t], x)
  }

  /** Nobody is about to register a session, nobody who closed one still has to remove it, and
      no `CloseAll` has an open one left. */
  ghost predicate Settled(s: State) {
    forall t, x :: 0 <= t < |s.threads| && x in s.sess ==>
      && !WillRegister(s.threads[t], x) && !StillRemoving(s, t, x)
      && (x in Pending(s.threads[t]) ==> s.sess[x].closed)
  }

  /** Then the registry holds exactly the open sessions. */
  lemma RegistryExact(d: nat, acts: seq<Action>)
    requires Runnable(Empty(d), acts) && Settled(Exec(Empty(d), acts))
    ensures var s := Exec(Empty(d), acts);
            s.registry == set x | x in s.sess && Live(s.sess[x]) && !s.sess[x].closed
  {
    Reached(d, acts);
    var s := Exec(Empty(d), acts);
    forall x | x in s.registry ensures x in s.sess {
    }
    forall x | x in s.sess ensures x in s.registry <==> Live(s.sess[x]) && !s.sess[x].closed {
      RegistryTracks(d, acts, x);
    }
  }

  /** What `CloseAll` took a snapshot of was the whole registry, and when it returns every
      session of that snapshot is closed. */
  lemma CloseAllCloses(d: nat, acts: seq<Action>, t: Tid)
    requires Runnable(Empty(d), acts) && t < |Exec(Empty(d), acts).threads|
    ensures var s := Exec(Empty(d), acts);
            && (s.threads[t].Replace? ==> s.threads[t].snap == s.registry)
            && (s.threads[t].AllDone? ==> forall x :: x in s.threads[t].snap ==> x in s.sess && s.sess[x].closed)
  {
    Reached(d, acts);
    var s := Exec(Empty(d), acts);
    hide Runnable, Exec;
    assert ThreadOk(s, t);
    assert s.threads[t].AllDone? ==> SnapOf(s.threads[t]) == s.threads[t].snap;
  }

  // ---------------------------------------------------------------------------
  // The inactivity timer
  // ---------------------------------------------------------------------------

  /** In every state an open session has its timer running, started no later than now, or some
      thread is already inside `close()` on it. So no session is left with nobody and nothing to end
      it: once the timeout has passed its timer can fire, unless such a thread still has to set the
      flag. A session that failed to open keeps no timer. */
  lemma OpenIsWatched(d: nat, acts: seq<Action>, x: Sid)
    requires Runnable(Empty(d), acts) && x in Exec(Empty(d), acts).sess
    ensures var s := Exec(Empty(d), acts);
            var e := s.sess[x];
            && (Live(e) && !e.closed ==> Enabled(Apply(s, Pass(d)), Fire(x)) || Closing(s, x))
            && (e.phase.Refused? && e.armed ==> e.opener < |s.threads| && s.threads[e.opener] == Open(x, Abort))
  {
    Reached(d, acts);
    RunTimeout(Empty(d), acts);
    assert SessOk(Exec(Empty(d), acts), x);
  }

  lemma {:induction false} RunTimeout(s: State, acts: seq<Action>)
    requires Runnable(s, acts)
    ensures Exec(s, acts).timeout == s.timeout
    decreases |acts|
  {
    if acts == [] {
    } else {
      RunTimeout(Apply(s, acts[0]), acts[1..]);
    }
  }

  /** Thread `t` is still inside `resetTimer` for a message that came in at `at`, or that message
      has been heard. */
  predicate Heard(s: State, t: Tid, x: Sid, at: nat) {
    && t < |s.threads| && x in s.sess
    && ((s.threads[t].Reset? && s.threads[t].sid == x && s.threads[t].at == at) || at <= s.sess[x].heard)
  }

  lemma HeardStep(s: State, a: Action, t: Tid, x: Sid, at: nat)
    requires Heard(s, t, x, at) && Enabled(s, a)
    ensures Heard(Apply(s, a), t, x, at)
  {
  }

  lemma {:induction false} HeardRun(s: State, more: seq<Action>, t: Tid, x: Sid, at: nat)
    requires Heard(s, t, x, at) && Runnable(s, more)
    ensures Heard(Exec(s, more), t, x, at)
    decreases |more|
  {
    hide Heard, Enabled, Apply;
    if more == [] {
    } else {
      HeardStep(s, more[0], t, x, at);
      HeardRun(Apply(s, more[0]), more[1..], t, x, at);
    }
  }

  /** And it never ends a session too early: if a message came in after `acts`, and its handler is
      through with `resetTimer`, then the timer of the open session fires no earlier than the whole
      timeout after that message, whatever happened in between. */
  lemma FiresOnlyInSilence(d: nat, acts: seq<Action>, more: seq<Action>, x: Sid)
    requires Runnable(Empty(d), acts) && Enabled(Exec(Empty(d), acts), Message(x))
    requires Runnable(Apply(Exec(Empty(d), acts), Message(x)), more)
    requires var s' := Exec(Apply(Exec(Empty(d), acts), Message(x)), more);
             && x in s'.sess && !s'.sess[x].closed && Enabled(s', Fire(x))
             && |Exec(Empty(d), acts).threads| < |s'.threads|
             && !s'.threads[|Exec(Empty(d), acts).threads|].Reset?
    ensures var s := Exec(Empty(d), acts);
            s.now + d <= Exec(Apply(s, Message(x)), more).now
  {
    var s := Exec(Empty(d), acts);
    var s' := Exec(Apply(s, Message(x)), more);
    Reached(d, acts);
    StepKeeps(s, Message(x));
    RunKeeps(Apply(s, Message(x)), more);
    RunTimeout(Empty(d), acts);
    RunTimeout(Apply(s, Message(x)), more);
    HeardRun(Apply(s, Message(x)), more, |s.threads|, x, s.now);
    hide Runnable, Exec, Inv;
    assert SessOk(s', x) by { InvSess(s', x); }
  }

  predicate Finished(th: Thread) {
    th.Done? || th.AllDone?
  }

  /** Closed and out of the registry, never to come back. */
  predicate Gone(s: State, x: Sid) {
    x in s.sess && s.sess[x].closed && s.sess[x].phase.Registered? && x !in s.registry
  }

  lemma GoneStays(s: State, a: Action, x: Sid)
    requires Inv(s) && Enabled(s, a) && Gone(s, x)
    ensures Gone(Apply(s, a), x)
  {
    if a.Go? {
      var t := a.t;
      var th := s.threads[t];
      hide Inv;
      if th.Open? {
        OpenSpares(s, t, a.pick, x);
      } else if th.Close? {
        CloseSpares(s, t, x);
      } else if th.Reset? {
        ResetSpares(s, t, x);
      } else {
        OthersSpare(s, t, a.pick, x);
      }
      hide Gone, Enabled, CloseStep, ResetStep, OpenStep, RemoveStep, AllStep;
    }
  }

  lemma CloseSpares(s: State, t: Tid, x: Sid)
    requires CanGo(s, t, First) && s.threads[t].Close? && Gone(s, x)
    ensures Gone(CloseStep(s, t), x)
  {
    hide CloseNext;
  }

  lemma ResetSpares(s: State, t: Tid, x: Sid)
    requires CanGo(s, t, First) && s.threads[t].Reset? && Gone(s, x)
    ensures Gone(ResetStep(s, t), x)
  {
    hide ResetNext;
  }

  lemma OthersSpare(s: State, t: Tid, pick: Pick, x: Sid)
    requires CanGo(s, t, pick) && Gone(s, x)
    requires var th := s.threads[t]; !th.Open? && !th.Close? && !th.Reset?
    ensures Gone(if s.threads[t].Remove? then RemoveStep(s, t) else AllStep(s, t, pick), x)
  {
  }

  lemma OpenSpares(s: State, t: Tid, pick: Pick, x: Sid)
    requires Inv(s) && CanGo(s, t, pick) && s.threads[t].Open? && Gone(s, x)
    ensures Gone(OpenStep(s, t, pick), x)
  {
    assert ThreadOk(s, t);
    ThreadAtSid(s, t);
    hide Inv, ThreadOk, SnapOf, Pending;
  }

  /** Thread `t` is on its way to end session `x`, or done with it. */
  predicate Ending(s: State, t: Tid, x: Sid) {
    && t < |s.threads|
    && var th := s.threads[t];
       || th == Disconnect(x)
       || (th.Close? && th.sid == x && th.after.ThenRemove?)
       || (th.Remove? && th.sid == x && !th.removing.LeaveRemove?)
       || (th == Remove(x, LeaveRemove) && Gone(s, x))
       || (th.Done? && Gone(s, x))
  }

  lemma DeleteGoes(s: State, t: Tid, x: Sid)
    requires Inv(s) && CanGo(s, t, First) && s.threads[t] == Remove(x, Delete)
    ensures Gone(Apply(s, Go(t, First)), x)
  {
    assert ThreadOk(s, t);
    RegisteredByNow(s, t, x);
  }

  lemma EndingStep(s: State, a: Action, t: Tid, x: Sid)
    requires Inv(s) && Enabled(s, a) && Ending(s, t, x)
    ensures Ending(Apply(s, a), t, x)
  {
    if Gone(s, x) {
      GoneStays(s, a, x);
    }
    if a.Go? && a.t == t && s.threads[t] == Remove(x, Delete) {
      DeleteGoes(s, t, x);
    }
    hide Inv, Gone;
    if a.Go? && a.t == t {
    } else {
      hide CloseStep, ResetStep, OpenStep, RemoveStep, AllStep;
      StepMovesOne(s, a, t);
    }
  }

  lemma StepMovesOne(s: State, a: Action, u: Tid)
    requires Enabled(s, a) && u < |s.threads| && !(a.Go? && a.t == u)
    ensures u < |Apply(s, a).threads| && Apply(s, a).threads[u] == s.threads[u]
  {
    hide CloseNext, CloseSess, ResetNext, ResetSess;
  }

  lemma {:induction false} EndingRun(s: State, more: seq<Action>, t: Tid, x: Sid)
    requires Inv(s) && Runnable(s, more) && Ending(s, t, x)
    ensures Ending(Exec(s, more), t, x)
    decreases |more|
  {
    hide Inv, Ending, Enabled, Apply;
    if more == [] {
    } else {
      EndingStep(s, more[0], t, x);
      StepKeeps(s, more[0]);
      EndingRun(Apply(s, more[0]), more[1..], t, x);
    }
  }

  /** The timer runs out, or a client's disconnect message is dispatched. */
  predicate Ends(s: State, a: Action, x: Sid) {
    a == Fire(x) || (a.Go? && a.pick.Second? && a.t < |s.threads| && s.threads[a.t] == Dispatch(x))
  }

  /** Either is seen through: when the thread that handles it has finished, whatever else ran beside
      it, the session is closed and out of the registry. */
  lemma EndIsSeenThrough(d: nat, acts: seq<Action>, a: Action, more: seq<Action>, x: Sid)
    requires Runnable(Empty(d), acts) && Enabled(Exec(Empty(d), acts), a) && Ends(Exec(Empty(d), acts), a, x)
    requires Runnable(Apply(Exec(Empty(d), acts), a), more)
    ensures var s := Exec(Empty(d), acts);
            var s' := Exec(Apply(s, a), more);
            var t := if a.Fire? then |s.threads| else a.t;
            && t < |s'.threads|
            && (Finished(s'.threads[t]) ==> x in s'.sess && s'.sess[x].closed && x !in s'.registry)
  {
    var s := Exec(Empty(d), acts);
    var t := if a.Fire? then |s.threads| else a.t;
    Reached(d, acts);
    StepKeeps(s, a);
    assert Ending(Apply(s, a), t, x);
    hide Inv, Enabled, Runnable, Exec, Apply;
    EndingRun(Apply(s, a), more, t, x);
  }

  // ---------------------------------------------------------------------------
  // No deadlock
  // ---------------------------------------------------------------------------

  lemma Unblocked(s: State, t: Tid)
    requires Inv(s) && t < |s.threads| && !Finished(s.threads[t])
    requires !WaitsForTable(s.threads[t]) && !WaitsForSession(s.threads[t])
    ensures exists pick :: CanGo(s, t, pick)
  {
    var th := s.threads[t];
    assert ThreadOk(s, t);
    if th.Each? && th.rest != {} {
      var x :| x in th.rest;
      assert CanGo(s, t, Choose(x));
    } else {
      assert CanGo(s, t, First);
    }
  }

  /** No thread ever waits for a mutex while holding one, so as long as some thread is
      unfinished some thread can take a step. */
  lemma NoDeadlock(d: nat, acts: seq<Action>, t: Tid)
    requires Runnable(Empty(d), acts)
    requires t < |Exec(Empty(d), acts).threads| && !Finished(Exec(Empty(d), acts).threads[t])
    ensures var s := Exec(Empty(d), acts);
            exists u, pick :: CanGo(s, u, pick)
  {
    Reached(d, acts);
    var s := Exec(Empty(d), acts);
    hide Runnable, Exec;
    var th := s.threads[t];
    assert ThreadOk(s, t);
    if WaitsForTable(th) && s.lock.Some? {
      Unblocked(s, s.lock.value);
    } else if WaitsForSession(th) && s.sess[th.sid].lock.Some? {
      assert SessOk(s, th.sid);
      Unblocked(s, s.sess[th.sid].lock.value);
    } else if WaitsForTable(th) || WaitsForSession(th) {
      assert CanGo(s, t, First);
    } else {
      Unblocked(s, t);
    }
  }
}
