/** What a WebSocket session owes its client, and how it comes to an end: whatever goes wrong in any
    of its threads ends it, and every frame it owes is sent unless the session ends first. */
module WsEndings {
  import opened Options
  import opened WsSession

  // ---------------------------------------------------------------------------
  // Whatever goes wrong ends the session
  // ---------------------------------------------------------------------------

  /** Something goes wrong in this step, or asks for the end: no ack, no subscription, a failed or
      overdue read, a failed write of a ping or a message, a CLOSE message, a loop that finds the
      session cancelled. */
  predicate GoesWrong(s: Session, a: Action) {
    a.Go?
    && match a.t
       case Main =>
         || ((s.main.Connecting? || s.main.Subscribing? || s.main.Reading?) && a.pick != Ok)
         || (s.main.LoopTop? && s.cancelled)
       case Ping => s.ping == PingWrite(Calling) && a.pick == Fail
       case Shut => false
       case Callback(i) =>
         i < |s.callbacks| && a.pick == Fail && (s.callbacks[i].CbInspect? || s.callbacks[i] == CbWrite(Calling))
  }

  /** Thread `t` is on its way to cancel the session, or has done so. */
  predicate Quitting(s: Session, t: Tid) {
    match t
    case Main =>
      || s.main.RefuseWrite? || s.main.TimeoutWrite? || s.main.Unsubscribe? || s.main.Cancel?
      || (Stage(s.main) >= 2 && s.cancelled)
    case Ping => s.ping == PingWrite(Leaving(false)) || s.ping.PingCancel? || (s.ping.PingDone? && s.cancelled)
    case Shut => false
    case Callback(i) =>
      i < |s.callbacks|
      && (s.callbacks[i] == CbWrite(Leaving(false)) || s.callbacks[i].CbCancel?
          || (s.callbacks[i].CbDone? && s.cancelled))
  }

  predicate Over(s: Session, t: Tid) {
    match t
    case Main => s.main.Finished?
    case Ping => s.ping.PingDone?
    case Shut => s.shut.ShutDone?
    case Callback(i) => i < |s.callbacks| && s.callbacks[i].CbDone?
  }

  lemma QuittingStarts(s: Session, a: Action)
    requires Enabled(s, a) && GoesWrong(s, a)
    ensures Quitting(Apply(s, a), a.t)
  {
  }

  lemma CancelledStays(s: Session, a: Action)
    requires Enabled(s, a) && s.cancelled
    ensures Apply(s, a).cancelled
  {
    if a.Go? && GuardOf(s, a.t).Some? {
      hide SetGuard, Resume;
      GuardMovesOne(s, a.t, a.pick);
      hide GuardApply;
    } else {
      hide GuardApply, GuardOf;
    }
  }

  lemma GuardQuits(s: Session, u: Tid, pick: Pick, t: Tid)
    requires GuardOf(s, u).Some? && GuardEnabled(s, u, pick) && Quitting(s, t)
    ensures Quitting(GuardApply(s, u, pick), t)
  {
    hide GuardEnabled;
    if u != t {
      hide GuardOf;
      GuardMovesOne(s, u, pick);
    }
  }

  /** Nobody but `u` moved. */
  predicate MovesOne(s: Session, s': Session, u: Tid) {
    && s'.cancelled == s.cancelled && s'.received == s.received
    && (u != Main ==> s'.main == s.main) && (u != Ping ==> s'.ping == s.ping)
    && (u != Shut ==> s'.shut == s.shut)
    && |s'.callbacks| == |s.callbacks|
    && forall i :: 0 <= i < |s.callbacks| && u != Callback(i) ==> s'.callbacks[i] == s.callbacks[i]
  }

  lemma SetGuardMovesOne(s: Session, u: Tid, g: Guarded)
    requires GuardOf(s, u).Some?
    ensures MovesOne(s, SetGuard(s, u, g), u)
  {
  }

  lemma ResumeMovesOne(s: Session, u: Tid, ok: bool)
    requires GuardOf(s, u).Some?
    ensures MovesOne(s, Resume(s, u, ok), u)
  {
  }

  lemma GuardMovesOne(s: Session, u: Tid, pick: Pick)
    requires GuardOf(s, u).Some?
    ensures MovesOne(s, GuardApply(s, u, pick), u)
  {
    hide SetGuard, Resume, GuardOf;
    var g := GuardOf(s, u).value;
    if g.Leaving? {
      ResumeMovesOne(s, u, g.ok);
    } else {
      SetGuardMovesOne(s, u, NextGuard(s, g, pick));
    }
  }

  lemma MainQuits(s: Session, pick: Pick, t: Tid)
    requires StageInv(s) && MainEnabled(s, pick) && Quitting(s, t)
    ensures Quitting(MainApply(s, pick), t)
  {
  }

  lemma SideQuits(s: Session, a: Action, t: Tid)
    requires Enabled(s, a) && Quitting(s, t) && (a.Go? ==> a.t != Main && GuardOf(s, a.t) == None)
    ensures Quitting(Apply(s, a), t)
  {
    hide GuardApply, GuardEnabled, MainApply, MainEnabled, Stage;
  }

  lemma QuittingStep(s: Session, a: Action, t: Tid)
    requires StageInv(s) && Enabled(s, a) && Quitting(s, t)
    ensures Quitting(Apply(s, a), t)
  {
    hide Quitting, StageInv, GuardOf, GuardEnabled, GuardApply, MainApply, PingApply, ShutApply, CbApply, DoCancel;
    if a.Go? && GuardOf(s, a.t).Some? {
      GuardQuits(s, a.t, a.pick, t);
    } else if a.Go? && a.t == Main {
      MainQuits(s, a.pick, t);
    } else {
      SideQuits(s, a, t);
    }
  }

  lemma {:induction false} QuittingRun(s: Session, acts: seq<Action>, t: Tid)
    requires Inv(s) && Runnable(s, acts) && Quitting(s, t)
    ensures Quitting(Exec(s, acts), t)
    decreases |acts|
  {
    hide Quitting, Enabled, Apply, LockInv, CallInv, StageInv;
    if acts == [] {
    } else {
      QuittingStep(s, acts[0], t);
      StepKeeps(s, acts[0]);
      QuittingRun(Apply(s, acts[0]), acts[1..], t);
    }
  }

  /** In every run: once something has gone wrong in a thread, that thread never returns to its work,
      and when it is over the session has been cancelled, whatever else happened meanwhile. */
  lemma EndIsSeenThrough(before: seq<Action>, a: Action, after: seq<Action>)
    requires Runnable(FRESH, before) && Enabled(Exec(FRESH, before), a) && GoesWrong(Exec(FRESH, before), a)
    requires Runnable(Apply(Exec(FRESH, before), a), after)
    ensures var s := Exec(Apply(Exec(FRESH, before), a), after);
            && Quitting(s, a.t)
            && (Over(s, a.t) ==> s.cancelled)
  {
    var s := Exec(FRESH, before);
    FreshInv();
    RunKeeps(FRESH, before);
    StepKeeps(s, a);
    QuittingStarts(s, a);
    QuittingRun(Apply(s, a), after, a.t);
    hide Exec, Runnable, Apply, Enabled;
  }

  // ---------------------------------------------------------------------------
  // A cancelled session winds down
  // ---------------------------------------------------------------------------

  function GuardSteps(g: Guarded): nat {
    match g
    case Waiting => 5
    case Holding => 4
    case Checked => 3
    case Calling => 2
    case Leaving(_) => 1
  }

  /** The steps the handler's own goroutine takes at most before `wg.Wait()`, once the session is
      cancelled. */
  function MainSteps(m: MainPc): nat {
    match m
    case Connecting => 20
    case Subscribing => 19
    case StartPing => 18
    case StartShut => 17
    case SetDeadline => 16
    case Reading => 15
    case Publishing => 14
    case RefuseWrite(g) => 2 + GuardSteps(g)
    case TimeoutWrite(g) => 2 + GuardSteps(g)
    case LoopTop => 3
    case Unsubscribe => 2
    case Cancel => 1
    case _ => 0
  }

  /** Whether it still gets to read a message. */
  function MayRead(m: MainPc): nat {
    if Stage(m) < 1 && !m.Publishing? && !m.LoopTop? && !m.Unsubscribe? then 1 else 0
  }

  function StepsOf(acts: seq<Action>, t: Tid): nat {
    if acts == [] then 0 else (if acts[0].Go? && acts[0].t == t then 1 else 0) + StepsOf(acts[1..], t)
  }

  /** How a step may change a cancelled session's progress towards `wg.Wait()`. */
  predicate WindsDownBy(s: Session, s': Session, steps: nat) {
    && s'.cancelled && Stage(s.main) <= Stage(s'.main)
    && (Stage(s.main) < 2 ==> MainSteps(s'.main) + steps <= MainSteps(s.main))
    && s'.received + MayRead(s'.main) <= s.received + MayRead(s.main)
  }

  lemma GuardWindsDown(s: Session, u: Tid, pick: Pick)
    requires s.cancelled && GuardOf(s, u).Some? && GuardEnabled(s, u, pick)
    ensures WindsDownBy(s, GuardApply(s, u, pick), if u == Main then 1 else 0)
  {
    GuardMovesOne(s, u, pick);
    if u != Main {
      hide GuardApply, GuardOf;
    }
  }

  lemma MainWindsDown(s: Session, pick: Pick)
    requires s.cancelled && MainEnabled(s, pick)
    ensures WindsDownBy(s, MainApply(s, pick), 1)
  {
  }

  lemma SideWindsDown(s: Session, a: Action)
    requires s.cancelled && Enabled(s, a) && (a.Go? ==> a.t != Main && GuardOf(s, a.t) == None)
    ensures WindsDownBy(s, Apply(s, a), 0)
  {
    hide GuardApply, GuardEnabled, MainApply, MainEnabled, Stage, MainSteps, MayRead;
  }

  lemma WindDownStep(s: Session, a: Action)
    requires s.cancelled && Enabled(s, a)
    ensures WindsDownBy(s, Apply(s, a), if a.Go? && a.t == Main then 1 else 0)
  {
    hide WindsDownBy, GuardOf, GuardEnabled, GuardApply, MainApply, PingApply, ShutApply, CbApply, DoCancel;
    if a.Go? && GuardOf(s, a.t).Some? {
      GuardWindsDown(s, a.t, a.pick);
    } else if a.Go? && a.t == Main {
      MainWindsDown(s, a.pick);
    } else {
      SideWindsDown(s, a);
    }
  }

  /** From cancellation on, whoever did it, the handler's own goroutine takes at most twenty steps
      before its teardown waits for the others: it reads at most one more message. */
  lemma {:induction false} WindsDown(s: Session, acts: seq<Action>)
    requires s.cancelled && Runnable(s, acts) && Stage(Exec(s, acts).main) < 2
    ensures Stage(s.main) < 2
    ensures StepsOf(acts, Main) + MainSteps(Exec(s, acts).main) <= MainSteps(s.main) <= 20
    ensures Exec(s, acts).received + MayRead(Exec(s, acts).main) <= s.received + MayRead(s.main) <= s.received + 1
    decreases |acts|
  {
    assert MainSteps(s.main) <= 20;
    hide Enabled, Apply, Stage, MainSteps;
    if acts == [] {
    } else {
      WindDownStep(s, acts[0]);
      WindsDown(Apply(s, acts[0]), acts[1..]);
    }
  }

  // ---------------------------------------------------------------------------
  // Frames
  // ---------------------------------------------------------------------------

  predicate Fresh(g: Guarded) {
    g.Waiting? || g.Holding? || g.Checked?
  }

  /** A frame becomes due: a message for the client is delivered, the ack fails to come, the client
      has been silent for too long, the ping ticker ticks, or the server stops. */
  predicate FrameDue(s: Session, a: Action) {
    || a.Deliver?
    || (a == Go(Main, Fail) && s.main.Connecting?)
    || (a == Go(Main, Timeout) && s.main.Reading?)
    || (a == Go(Ping, Ok) && s.ping.PingSelect?)
    || (a == Go(Shut, Ok) && s.shut.ShutSelect?)
  }

  /** Whose frame it is. */
  function Writer(s: Session, a: Action): Tid {
    if a.Go? then a.t else Callback(|s.callbacks|)
  }

  /** Thread `t` has yet to call `WriteMessage`. */
  predicate Owes(s: Session, t: Tid) {
    match t
    case Main => (s.main.RefuseWrite? || s.main.TimeoutWrite?) && Fresh(s.main.g)
    case Ping => s.ping.PingWrite? && Fresh(s.ping.g)
    case Shut => s.shut.ShutWrite? && Fresh(s.shut.g)
    case Callback(i) =>
      i < |s.callbacks|
      && (s.callbacks[i].CbStart? || s.callbacks[i].CbInspect?
          || (s.callbacks[i].CbWrite? && Fresh(s.callbacks[i].g)))
  }

  /** The message was no message but a CLOSE. */
  predicate Closes(s: Session, t: Tid) {
    t.Callback? && t.id < |s.callbacks| && s.callbacks[t.id].CbCancel?
  }

  /** Thread `t` still owes its frame, or the session is over or about to be. */
  predicate DueOrOver(s: Session, t: Tid) {
    Owes(s, t) || Closes(s, t) || s.cancelled
  }

  lemma GuardOwes(s: Session, u: Tid, pick: Pick, t: Tid)
    requires GuardOf(s, u).Some? && GuardEnabled(s, u, pick) && DueOrOver(s, t)
    ensures DueOrOver(GuardApply(s, u, pick), t) || (AboutToCall(s, u) && u == t)
  {
    if u != t {
      hide GuardOf;
      GuardMovesOne(s, u, pick);
    }
  }

  lemma MainOwes(s: Session, pick: Pick, t: Tid)
    requires StageInv(s) && MainEnabled(s, pick) && DueOrOver(s, t)
    ensures DueOrOver(MainApply(s, pick), t)
  {
  }

  lemma SideOwes(s: Session, a: Action, t: Tid)
    requires Enabled(s, a) && DueOrOver(s, t) && (a.Go? ==> a.t != Main && GuardOf(s, a.t) == None)
    ensures DueOrOver(Apply(s, a), t)
  {
    hide GuardApply, GuardEnabled, MainApply, MainEnabled;
  }

  lemma OwesStep(s: Session, a: Action, t: Tid)
    requires StageInv(s) && Enabled(s, a) && DueOrOver(s, t)
    ensures DueOrOver(Apply(s, a), t) || (StartsCall(s, a) && a.t == t)
  {
    hide DueOrOver, StageInv, GuardOf, GuardEnabled, GuardApply, MainApply, PingApply, ShutApply, CbApply, DoCancel;
    if a.Go? && GuardOf(s, a.t).Some? {
      GuardOwes(s, a.t, a.pick, t);
    } else if a.Go? && a.t == Main {
      MainOwes(s, a.pick, t);
    } else {
      SideOwes(s, a, t);
    }
  }

  /** Step `k` of the run is the socket call of `t`. */
  predicate CallsAt(s: Session, acts: seq<Action>, k: nat, t: Tid) {
    k < |acts| && acts[k].Go? && acts[k].t == t && Runnable(s, acts[..k]) && AboutToCall(Exec(s, acts[..k]), t)
  }

  lemma {:induction false} OwesRun(s: Session, acts: seq<Action>, t: Tid)
    requires Inv(s) && Runnable(s, acts) && DueOrOver(s, t)
    ensures DueOrOver(Exec(s, acts), t) || exists k :: CallsAt(s, acts, k, t)
    decreases |acts|
  {
    if acts == [] {
    } else {
      var a, s1 := acts[0], Apply(s, acts[0]);
      OwesStep(s, a, t);
      StepKeeps(s, a);
      hide DueOrOver, AboutToCall, Enabled, Apply, Inv;
      if DueOrOver(s1, t) {
        OwesRun(s1, acts[1..], t);
        if !DueOrOver(Exec(s, acts), t) {
          var k: nat :| CallsAt(s1, acts[1..], k, t);
          assert acts[..k + 1][1..] == acts[1..][..k];
          assert CallsAt(s, acts, k + 1, t);
        }
      } else {
        assert CallsAt(s, acts, 0, t);
      }
    }
  }

  /** In every run: a frame that is due is sent by the thread it fell to, unless that thread still
      has it before it or the session was cancelled, or is about to be by that thread. */
  lemma FramesGoOut(before: seq<Action>, a: Action, after: seq<Action>)
    requires Runnable(FRESH, before) && Enabled(Exec(FRESH, before), a) && FrameDue(Exec(FRESH, before), a)
    requires Runnable(Apply(Exec(FRESH, before), a), after)
    ensures var s := Exec(FRESH, before);
            var s' := Exec(Apply(s, a), after);
            var t := Writer(s, a);
            DueOrOver(s', t) || exists k :: CallsAt(Apply(s, a), after, k, t)
  {
    var s := Exec(FRESH, before);
    FreshInv();
    RunKeeps(FRESH, before);
    StepKeeps(s, a);
    assert Owes(Apply(s, a), Writer(s, a));
    OwesRun(Apply(s, a), after, Writer(s, a));
  }
}
