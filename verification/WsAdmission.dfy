/** The global limit on WebSocket connections: any number of handlers sharing one atomic
    counter, each running its own session once upgraded. */
module WsAdmission {
  import opened Options
  import opened WsSession

  datatype Handler =
    | Rejecting              // counted, over the limit, about to take its count back
    | Rejected
    | Reserved               // counted and admitted; session id and upgrade still to come
    | Failing                // no session id, or no upgrade: about to release
    | Failed
    | Live(session: Session) // upgraded

  datatype Hub = Hub(counter: int, handlers: seq<Handler>)

  datatype Move =
    | Arrive
    | BackOff(i: nat)
    | NoUpgrade(i: nat)
    | GiveUp(i: nat)
    | Upgrade(i: nat)
    | Within(i: nat, action: Action)

  const EMPTY := Hub(0, [])

  predicate Can(h: Hub, m: Move) {
    if m.Arrive? then true
    else m.i < |h.handlers| && match m
         case BackOff(i) => h.handlers[i].Rejecting?
         case NoUpgrade(i) => h.handlers[i].Reserved?
         case GiveUp(i) => h.handlers[i].Failing?
         case Upgrade(i) => h.handlers[i].Reserved?
         case Within(i, a) => h.handlers[i].Live? && Enabled(h.handlers[i].session, a)
  }

  /** The handler's own `releaseConn()`, its last deferred call. */
  predicate Releases(s: Session, a: Action) {
    a.Go? && a.t == Main && s.main.Release?
  }

  function Step(h: Hub, max: nat, m: Move): Hub
    requires Can(h, m)
  {
    match m
    case Arrive =>
      Hub(h.counter + 1, h.handlers + [if h.counter + 1 > max then Rejecting else Reserved])
    case BackOff(i) => Hub(h.counter - 1, h.handlers[i := Rejected])
    case NoUpgrade(i) => h.(handlers := h.handlers[i := Failing])
    case GiveUp(i) => Hub(h.counter - 1, h.handlers[i := Failed])
    case Upgrade(i) => h.(handlers := h.handlers[i := Live(FRESH)])
    case Within(i, a) =>
      var s := h.handlers[i].session;
      Hub(if Releases(s, a) then h.counter - 1 else h.counter, h.handlers[i := Live(Apply(s, a))])
  }

  predicate CanAll(h: Hub, max: nat, ms: seq<Move>)
    decreases |ms|
  {
    ms == [] || (Can(h, ms[0]) && CanAll(Step(h, max, ms[0]), max, ms[1..]))
  }

  function Run(h: Hub, max: nat, ms: seq<Move>): Hub
    requires CanAll(h, max, ms)
    decreases |ms|
  {
    if ms == [] then h else Run(Step(h, max, ms[0]), max, ms[1..])
  }

  // ---------------------------------------------------------------------------
  // Counting handlers
  // ---------------------------------------------------------------------------

  predicate IsAdmitted(h: Handler) {
    h.Reserved? || h.Failing? || (h.Live? && h.session.releases == 0)
  }

  predicate IsOpen(h: Handler) {
    h.Live? && h.session.closes == 0
  }

  function One(b: bool): nat { if b then 1 else 0 }

  function Admitted(hs: seq<Handler>): nat {
    if hs == [] then 0 else One(IsAdmitted(hs[0])) + Admitted(hs[1..])
  }

  function Rejecters(hs: seq<Handler>): nat {
    if hs == [] then 0 else One(hs[0].Rejecting?) + Rejecters(hs[1..])
  }

  function OpenSockets(hs: seq<Handler>): nat {
    if hs == [] then 0 else One(IsOpen(hs[0])) + OpenSockets(hs[1..])
  }

  lemma {:induction false} CountsUpdate(hs: seq<Handler>, i: nat, h: Handler)
    requires i < |hs|
    ensures Admitted(hs[i := h]) + One(IsAdmitted(hs[i])) == Admitted(hs) + One(IsAdmitted(h))
    ensures Rejecters(hs[i := h]) + One(hs[i].Rejecting?) == Rejecters(hs) + One(h.Rejecting?)
    decreases i
  {
    hide IsAdmitted, One;
    if i == 0 {
      assert hs[0 := h][1..] == hs[1..];
    } else {
      CountsUpdate(hs[1..], i - 1, h);
      assert hs[i := h][1..] == hs[1..][i - 1 := h];
    }
  }

  lemma {:induction false} CountsAppend(hs: seq<Handler>, h: Handler)
    ensures Admitted(hs + [h]) == Admitted(hs) + One(IsAdmitted(h))
    ensures Rejecters(hs + [h]) == Rejecters(hs) + One(h.Rejecting?)
    decreases |hs|
  {
    hide IsAdmitted, One;
    if hs == [] {
      assert [h][1..] == [];
    } else {
      CountsAppend(hs[1..], h);
      assert (hs + [h])[1..] == hs[1..] + [h];
    }
  }

  /** An open socket belongs to a handler that still holds its slot. */
  lemma {:induction false} OpenHoldsSlot(hs: seq<Handler>)
    requires forall i :: 0 <= i < |hs| && hs[i].Live? ==> Inv(hs[i].session)
    ensures OpenSockets(hs) <= Admitted(hs)
    decreases |hs|
  {
    if hs == [] {
    } else {
      OpenHoldsSlot(hs[1..]);
      assert hs[0].Live? ==> Inv(hs[0].session);
    }
  }

  lemma {:induction false} NobodyLeft(hs: seq<Handler>)
    requires forall i :: 0 <= i < |hs| ==> !IsAdmitted(hs[i]) && !hs[i].Rejecting?
    ensures Admitted(hs) == Rejecters(hs) == 0
    decreases |hs|
  {
    if hs == [] {
    } else {
      NobodyLeft(hs[1..]);
    }
  }

  // ---------------------------------------------------------------------------
  // The invariant over every run
  // ---------------------------------------------------------------------------

  ghost predicate HubInv(h: Hub, max: nat) {
    && h.counter == Admitted(h.handlers) + Rejecters(h.handlers)
    && Admitted(h.handlers) <= max
    && forall i :: 0 <= i < |h.handlers| && h.handlers[i].Live? ==> Inv(h.handlers[i].session)
  }

  lemma GuardNeverReleases(s: Session, t: Tid, pick: Pick)
    requires GuardOf(s, t).Some? && GuardEnabled(s, t, pick)
    ensures GuardApply(s, t, pick).releases == s.releases && (t == Main ==> !s.main.Release?)
  {
  }

  lemma AtRelease(s: Session)
    requires StageInv(s)
    ensures s.main.Release? ==> s.releases == 0 && s.closes == 1
  {
  }

  /** Only `releaseConn()` counts as a release, and it happens once. */
  lemma ReleaseCounts(s: Session, a: Action)
    requires Inv(s) && Enabled(s, a)
    ensures Apply(s, a).releases == s.releases + One(Releases(s, a))
    ensures Releases(s, a) ==> s.releases == 0 && s.closes == 1
  {
    hide LockInv, CallInv, StageInv;
    if a.Go? && GuardOf(s, a.t).Some? {
      GuardNeverReleases(s, a.t, a.pick);
    } else if a.Go? && a.t == Main {
      AtRelease(s);
    }
  }

  lemma HubKeeps(h: Hub, max: nat, m: Move)
    requires HubInv(h, max) && Can(h, m)
    ensures HubInv(Step(h, max, m), max)
  {
    hide Inv, Enabled, Apply, Releases, Admitted, Rejecters;
    if m.Arrive? {
      CountsAppend(h.handlers, if h.counter + 1 > max then Rejecting else Reserved);
    } else {
      var h' := Step(h, max, m);
      CountsUpdate(h.handlers, m.i, h'.handlers[m.i]);
      if m.Upgrade? {
        FreshInv();
      } else if m.Within? {
        StepKeeps(h.handlers[m.i].session, m.action);
        ReleaseCounts(h.handlers[m.i].session, m.action);
      }
    }
  }

  lemma {:induction false} HubRunKeeps(h: Hub, max: nat, ms: seq<Move>)
    requires HubInv(h, max) && CanAll(h, max, ms)
    ensures HubInv(Run(h, max, ms), max)
    decreases |ms|
  {
    hide HubInv, Can, Step;
    if ms == [] {
    } else {
      HubKeeps(h, max, ms[0]);
      HubRunKeeps(Step(h, max, ms[0]), max, ms[1..]);
    }
  }

  /** In every state of every run, with any number of handlers: the counter is exactly the
      admitted handlers that have not released plus the rejected ones that have not taken
      their count back, so it may overshoot; yet neither the admitted handlers nor the open
      sockets ever exceed the limit. */
  lemma OpenSocketsBounded(max: nat, ms: seq<Move>)
    requires CanAll(EMPTY, max, ms)
    ensures var h := Run(EMPTY, max, ms);
            && h.counter == Admitted(h.handlers) + Rejecters(h.handlers)
            && OpenSockets(h.handlers) <= Admitted(h.handlers) <= max
  {
    HubRunKeeps(EMPTY, max, ms);
    OpenHoldsSlot(Run(EMPTY, max, ms).handlers);
  }

  /** Every slot comes back exactly once: a session releases only after closing its socket
      and never twice, and once every handler has returned the counter is zero again. */
  lemma SlotsComeBack(max: nat, ms: seq<Move>)
    requires CanAll(EMPTY, max, ms)
    ensures var h := Run(EMPTY, max, ms);
            && (forall i :: 0 <= i < |h.handlers| && h.handlers[i].Live? ==>
                  h.handlers[i].session.releases <= h.handlers[i].session.closes <= 1)
            && (forall i, a :: 0 <= i < |h.handlers| && Can(h, Within(i, a)) && Releases(h.handlers[i].session, a) ==>
                  h.handlers[i].session.closes == 1 && h.handlers[i].session.releases == 0)
            && ((forall i :: 0 <= i < |h.handlers| ==>
                  h.handlers[i].Rejected? || h.handlers[i].Failed?
                  || (h.handlers[i].Live? && h.handlers[i].session.main.Finished?)) ==> h.counter == 0)
  {
    HubRunKeeps(EMPTY, max, ms);
    var h := Run(EMPTY, max, ms);
    hide Run, CanAll;
    if forall i :: 0 <= i < |h.handlers| ==>
         h.handlers[i].Rejected? || h.handlers[i].Failed?
         || (h.handlers[i].Live? && h.handlers[i].session.main.Finished?)
    {
      NobodyLeft(h.handlers);
    }
  }

  /** Who is turned away, exactly: a newcomer is, if and only if the admitted handlers and
      the rejected ones still holding a count fill the limit between them. */
  lemma TurnedAway(max: nat, ms: seq<Move>)
    requires CanAll(EMPTY, max, ms)
    ensures var h := Run(EMPTY, max, ms);
            var h' := Step(h, max, Arrive);
            h'.handlers[|h.handlers|].Rejecting? <==> Admitted(h.handlers) + Rejecters(h.handlers) >= max
  {
    HubRunKeeps(EMPTY, max, ms);
  }

  /** So a newcomer can be turned away although every slot is free. */
  lemma TurnedAwayWithFreeSlots() returns (ms: seq<Move>)
    ensures CanAll(EMPTY, 1, ms)
    ensures var h := Run(EMPTY, 1, ms);
            Admitted(h.handlers) == 0 && Step(h, 1, Arrive).handlers[|h.handlers|].Rejecting?
  {
    ms := [Arrive, Arrive, NoUpgrade(0), GiveUp(0)];
    var h1 := Hub(1, [Reserved]);
    var h2 := Hub(2, [Reserved, Rejecting]);
    var h3 := Hub(2, [Failing, Rejecting]);
    var h4 := Hub(1, [Failed, Rejecting]);
    assert Step(EMPTY, 1, Arrive) == h1 && Step(h1, 1, Arrive) == h2;
    assert Step(h2, 1, NoUpgrade(0)) == h3 && Step(h3, 1, GiveUp(0)) == h4;
    assert ms[1..] == [Arrive, NoUpgrade(0), GiveUp(0)];
    assert ms[1..][1..] == [NoUpgrade(0), GiveUp(0)];
    assert ms[1..][1..][1..] == [GiveUp(0)];
    assert ms[1..][1..][1..][1..] == [];
    assert h4.handlers[1..] == [Rejecting] && [Rejecting][1..] == [];
  }
}
