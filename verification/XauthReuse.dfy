/** When one refresh token is exchanged more than once. The log records, for a run of the racing
    handlers, when each refresh came in, asked the store and was answered, and when each id was
    first revoked; it is a function of the run and changes nothing in it. */
module XauthReuse {
  import opened Decimals
  import opened Options
  import opened XauthTokens
  import opened XauthSteps

  /** Times are numbers of steps. */
  datatype Log = Log(
    clock: nat,
    begun: map<nat, nat>,     // by thread: the refresh came in
    asked: map<nat, nat>,     // by thread: its read of the store succeeded
    ended: map<nat, nat>,     // by thread: it was answered with new cookies
    unstored: set<nat>,       // threads whose write of the new id reported an error
    unrevoked: set<nat>,      // threads whose revocation had no effect
    revoked: map<Jti, nat>)   // by id: the first revocation that took effect

  const NO_LOG := Log(0, map[], map[], map[], {}, {}, map[])

  /** The step is one of a thread that satisfies this. */
  predicate Moves(s: State, a: Action, t: nat) {
    a.Go? && a.t == t && t < |s.threads|
  }

  predicate Asks(s: State, a: Action, t: nat) {
    Moves(s, a, t) && s.threads[t].RefreshCheck? && a.pick.Good?
  }

  predicate CannotStore(s: State, a: Action, t: nat) {
    Moves(s, a, t) && s.threads[t].RefreshStore? && !a.pick.Good?
  }

  predicate Answers(s: State, a: Action, t: nat) {
    Moves(s, a, t) && s.threads[t].RefreshRevoke?
  }

  /** The id whose revocation takes effect in this step, if any. */
  function Revokes(s: State, a: Action): Option<Jti> {
    if a.Go? && a.t < |s.threads| && !a.pick.Bad? && (s.threads[a.t].RefreshRevoke? || s.threads[a.t].LogoutRevoke?)
    then Some(s.threads[a.t].given)
    else None
  }

  function At(times: map<nat, nat>, now: bool, t: nat, clock: nat): map<nat, nat> {
    if now then times[t := clock] else times
  }

  /** Only the first revocation counts. */
  function RevokedBy(log: Log, id: Option<Jti>): map<Jti, nat> {
    if id.Some? && id.value !in log.revoked then log.revoked[id.value := log.clock] else log.revoked
  }

  function Note(s: State, a: Action, log: Log): Log {
    var t := Mover(s, a);
    Log(
      log.clock + 1,
      At(log.begun, a.Refresh?, t, log.clock),
      At(log.asked, Asks(s, a, t), t, log.clock),
      At(log.ended, Answers(s, a, t), t, log.clock),
      if CannotStore(s, a, t) then log.unstored + {t} else log.unstored,
      if Answers(s, a, t) && a.pick.Bad? then log.unrevoked + {t} else log.unrevoked,
      RevokedBy(log, Revokes(s, a)))
  }

  function LogOf(s: State, log: Log, acts: seq<Action>): Log
    requires Runnable(s, acts)
    decreases |acts|
  {
    if acts == [] then log else LogOf(Apply(s, acts[0]), Note(s, acts[0], log), acts[1..])
  }

  /** The refresh asked the store before any revocation of its token took effect. */
  predicate InTime(log: Log, t: nat, j: Jti) {
    t in log.asked && (j in log.revoked ==> log.asked[t] < log.revoked[j])
  }

  // ---------------------------------------------------------------------------
  // The invariant
  // ---------------------------------------------------------------------------

  /** An id is revoked in the store exactly if the log says so. */
  ghost predicate RevokedLogged(s: State, log: Log) {
    && (forall j :: j in log.revoked <==> j in s.kv && s.kv[j] == REVOKED)
    && (forall j :: j in log.revoked ==> log.revoked[j] < log.clock)
  }

  ghost predicate RefreshLogged(s: State, log: Log, t: nat)
    requires t < |s.threads|
  {
    var th := s.threads[t];
    && (t in log.asked ==> log.asked[t] < log.clock)
    && (t in log.ended ==> log.ended[t] < log.clock)
    && (IsRefresh(th) ==>
          && t in log.begun && log.begun[t] < log.clock
          && (t in log.asked ==> log.begun[t] < log.asked[t])
          && (match th
              case RefreshCheck(_) => t !in log.asked && t !in log.unstored
              case RefreshStore(j, _) => InTime(log, t, j) && t !in log.unstored
              case RefreshRevoke(j, _) => InTime(log, t, j) && t !in log.unstored
              case RefreshDone(j, _) =>
                && InTime(log, t, j) && t !in log.unstored && t in log.ended
                && (t !in log.unrevoked ==> j in log.revoked && log.revoked[j] <= log.ended[t])
              case RefreshRefused(j) => !InTime(log, t, j) || t in log.unstored))
  }

  /** The log speaks of no thread that does not exist yet. */
  ghost predicate LogBounded(s: State, log: Log) {
    && (forall t :: t in log.asked || t in log.ended || t in log.unstored || t in log.unrevoked ==> t < |s.threads|)
    && (forall t :: t in log.asked ==> log.asked[t] < log.clock)
  }

  ghost predicate Logged(s: State, log: Log) {
    && RevokedLogged(s, log) && LogBounded(s, log)
    && forall t :: 0 <= t < |s.threads| ==> RefreshLogged(s, log, t)
  }

  // ---------------------------------------------------------------------------
  // Steps keep it
  // ---------------------------------------------------------------------------

  predicate IsRevoked(s: State, j: Jti) {
    j in s.kv && s.kv[j] == REVOKED
  }

  lemma RevokeEffect(s: State, a: Action, j: Jti)
    requires Enabled(s, a) && (a.Go? ==> ThreadOk(s, a.t))
    ensures IsRevoked(Apply(s, a), j) <==> IsRevoked(s, j) || Revokes(s, a) == Some(j)
  {
    if a.Go? {
      NeverTheWord(a.exp);
    }
    hide Decimal;
  }

  lemma RevokedStep(s: State, a: Action, log: Log)
    requires Inv(s) && Enabled(s, a) && RevokedLogged(s, log)
    ensures RevokedLogged(Apply(s, a), Note(s, a, log))
  {
    assert a.Go? ==> ThreadOk(s, a.t);
    var s', log' := Apply(s, a), Note(s, a, log);
    hide Inv, ThreadOk, Apply, Revokes;
    forall j ensures j in log'.revoked <==> IsRevoked(s', j) {
      RevokeEffect(s, a, j);
      assert IsRevoked(s, j) <==> j in log.revoked;
    }
  }

  /** What a step of thread `t` may do to the log: note its own times, and that some id is
      revoked from now on. */
  ghost predicate LogEvolves(log: Log, log': Log, t: nat) {
    && log'.clock == log.clock + 1
    && (forall u :: u != t ==> (u in log'.begun <==> u in log.begun) && (u in log'.asked <==> u in log.asked))
    && (forall u :: u != t ==> (u in log'.ended <==> u in log.ended))
    && (forall u :: u != t && u in log.begun ==> log'.begun[u] == log.begun[u])
    && (forall u :: u != t && u in log.asked ==> log'.asked[u] == log.asked[u])
    && (t in log'.asked ==> log'.asked[t] == log.clock || (t in log.asked && log'.asked[t] == log.asked[t]))
    && (forall u :: u != t && u in log.ended ==> log'.ended[u] == log.ended[u])
    && (forall u :: u != t ==> (u in log'.unstored <==> u in log.unstored))
    && (forall u :: u != t ==> (u in log'.unrevoked <==> u in log.unrevoked))
    && RevokedEvolves(log, log')
  }

  ghost predicate RevokedEvolves(log: Log, log': Log) {
    && (forall j :: j in log.revoked ==> j in log'.revoked && log'.revoked[j] == log.revoked[j])
    && (forall j :: j in log'.revoked ==> j in log.revoked || log'.revoked[j] == log.clock)
  }

  lemma NoteEvolves(s: State, a: Action, log: Log)
    ensures LogEvolves(log, Note(s, a, log), Mover(s, a))
  {
    hide Asks, CannotStore, Answers, Revokes, Mover;
  }

  /** A question asked in time stays so: a revocation is later than every question so far. */
  lemma InTimeKept(log: Log, log': Log, t: nat, u: nat, j: Jti)
    requires LogEvolves(log, log', t) && u != t && (u in log.asked ==> log.asked[u] < log.clock)
    ensures InTime(log', u, j) == InTime(log, u, j)
  {
  }

  lemma OtherLogged(s: State, s': State, log: Log, log': Log, t: nat, u: nat)
    requires LogEvolves(log, log', t) && u < |s.threads| && u != t && RefreshLogged(s, log, u)
    requires u < |s'.threads| && s'.threads[u] == s.threads[u]
    ensures RefreshLogged(s', log', u)
  {
    if IsRefresh(s.threads[u]) {
      InTimeKept(log, log', t, u, s.threads[u].given);
    }
    hide InTime;
  }

  lemma GoLogged(s: State, t: nat, pick: Pick, made: Jti, exp: int, log: Log)
    requires Enabled(s, Go(t, pick, made, exp)) && ThreadOk(s, t) && Accounted(s)
    requires RevokedLogged(s, log) && RefreshLogged(s, log, t)
    ensures RefreshLogged(Apply(s, Go(t, pick, made, exp)), Note(s, Go(t, pick, made, exp), log), t)
  {
    hide Decimal;
  }

  lemma NewLogged(s: State, a: Action, log: Log)
    requires Enabled(s, a) && !a.Go? && LogBounded(s, log)
    ensures RefreshLogged(Apply(s, a), Note(s, a, log), |s.threads|)
  {
  }

  lemma LogStaysBounded(s: State, s': State, log: Log, log': Log, t: nat)
    requires LogBounded(s, log) && LogEvolves(log, log', t) && t < |s'.threads| && |s.threads| <= |s'.threads|
    ensures LogBounded(s', log')
  {
    hide RevokedEvolves;
  }

  lemma LoggedStep(s: State, a: Action, log: Log)
    requires Inv(s) && Enabled(s, a) && Logged(s, log)
    ensures Logged(Apply(s, a), Note(s, a, log))
  {
    var s', log', t := Apply(s, a), Note(s, a, log), Mover(s, a);
    RevokedStep(s, a, log);
    NoteEvolves(s, a, log);
    assert a.Go? ==> ThreadOk(s, a.t);
    HistoryStep(s, a);
    SameCount(s, a);
    LogStaysBounded(s, s', log, log', t);
    hide Inv, Apply, Note, RevokedLogged, LogBounded, RefreshLogged, LogEvolves, ThreadOk, Enabled;
    if a.Go? {
      GoLogged(s, a.t, a.pick, a.made, a.exp, log);
    } else {
      NewLogged(s, a, log);
    }
    forall u | 0 <= u < |s'.threads| ensures RefreshLogged(s', log', u) {
      if u != t {
        OtherLogged(s, s', log, log', t, u);
      }
    }
  }

  lemma {:induction false} LoggedRun(s: State, log: Log, acts: seq<Action>)
    requires Inv(s) && Logged(s, log) && Runnable(s, acts)
    ensures Inv(Exec(s, acts)) && Logged(Exec(s, acts), LogOf(s, log, acts))
    decreases |acts|
  {
    hide Inv, Logged, Enabled, Apply, Note;
    if acts == [] {
    } else {
      StepKeeps(s, acts[0]);
      LoggedStep(s, acts[0], log);
      LoggedRun(Apply(s, acts[0]), Note(s, acts[0], log), acts[1..]);
    }
  }

  lemma Reached(acts: seq<Action>)
    requires Runnable(EMPTY, acts)
    ensures Logged(Exec(EMPTY, acts), LogOf(EMPTY, NO_LOG, acts))
  {
    LoggedRun(EMPTY, NO_LOG, acts);
  }

  // ---------------------------------------------------------------------------
  // How often a token is exchanged
  // ---------------------------------------------------------------------------

  /** Thread `t` is a refresh with token `j`. */
  predicate Refreshes(s: State, t: nat, j: Jti) {
    t < |s.threads| && IsRefresh(s.threads[t]) && s.threads[t].given == j
  }

  /** It was answered with new cookies. */
  predicate Exchanged(s: State, t: nat, j: Jti) {
    t < |s.threads| && s.threads[t].RefreshDone? && s.threads[t].given == j
  }

  /** Which refreshes succeed, in every interleaving: an answered refresh exchanged its token if
      and only if it asked the store before any revocation of the token took effect, and its
      new id could be stored. */
  lemma ExchangedExactly(acts: seq<Action>, t: nat, j: Jti)
    requires Runnable(EMPTY, acts)
    requires var s := Exec(EMPTY, acts); Refreshes(s, t, j) && Finished(s.threads[t])
    ensures var s, log := Exec(EMPTY, acts), LogOf(EMPTY, NO_LOG, acts);
            Exchanged(s, t, j) <==> InTime(log, t, j) && t !in log.unstored
  {
    Reached(acts);
    var s, log := Exec(EMPTY, acts), LogOf(EMPTY, NO_LOG, acts);
    hide Runnable, Exec, LogOf;
    assert RefreshLogged(s, log, t);
  }

  /** Every refresh with token `j` has been answered. */
  ghost predicate Answered(s: State, j: Jti) {
    forall t :: 0 <= t < |s.threads| && Refreshes(s, t, j) ==> Finished(s.threads[t])
  }

  ghost predicate ExchangedTwice(s: State, j: Jti) {
    exists t, u :: t != u && Exchanged(s, t, j) && Exchanged(s, u, j)
  }

  /** A second refresh asks no earlier than a first, both can store their new ids, and still no
      revocation of the token has taken effect: the first one's is on its way, or failed. */
  ghost predicate AskedAgainInTime(s: State, log: Log, j: Jti) {
    exists t, u :: && t != u && Refreshes(s, t, j) && Refreshes(s, u, j)
                   && t in log.asked && InTime(log, u, j) && log.asked[t] <= log.asked[u]
                   && t !in log.unstored && u !in log.unstored
  }

  /** A token is exchanged twice if and only if a second refresh asks the store before the first
      revocation of the token takes effect. */
  lemma UsedTwiceExactly(acts: seq<Action>, j: Jti)
    requires Runnable(EMPTY, acts) && Answered(Exec(EMPTY, acts), j)
    ensures var s, log := Exec(EMPTY, acts), LogOf(EMPTY, NO_LOG, acts);
            ExchangedTwice(s, j) <==> AskedAgainInTime(s, log, j)
  {
    var s, log := Exec(EMPTY, acts), LogOf(EMPTY, NO_LOG, acts);
    forall t | Refreshes(s, t, j) ensures Exchanged(s, t, j) <==> InTime(log, t, j) && t !in log.unstored {
      ExchangedExactly(acts, t, j);
    }
    hide Runnable, Exec, LogOf;
    if ExchangedTwice(s, j) {
      var t, u :| t != u && Exchanged(s, t, j) && Exchanged(s, u, j);
      assert Refreshes(s, t, j) && Refreshes(s, u, j);
      if log.asked[t] > log.asked[u] {
        t, u := u, t;
      }
      assert AskedAgainInTime(s, log, j);
    }
    if AskedAgainInTime(s, log, j) {
      var t, u :| && t != u && Refreshes(s, t, j) && Refreshes(s, u, j)
                  && t in log.asked && InTime(log, u, j) && log.asked[t] <= log.asked[u]
                  && t !in log.unstored && u !in log.unstored;
      assert InTime(log, t, j);
      assert Exchanged(s, t, j) && Exchanged(s, u, j);
    }
  }

  /** One refresh came in after the other was answered. */
  predicate After(log: Log, t: nat, u: nat) {
    t in log.ended && u in log.begun && log.ended[t] <= log.begun[u]
  }

  /** Exchanged twice without overlapping: then the earlier refresh's revocation had failed. */
  lemma SecondUseNeedsFailure(acts: seq<Action>, t: nat, u: nat, j: Jti)
    requires Runnable(EMPTY, acts)
    requires var s, log := Exec(EMPTY, acts), LogOf(EMPTY, NO_LOG, acts);
             Exchanged(s, t, j) && Exchanged(s, u, j) && After(log, t, u)
    ensures t in LogOf(EMPTY, NO_LOG, acts).unrevoked
  {
    Reached(acts);
    var s, log := Exec(EMPTY, acts), LogOf(EMPTY, NO_LOG, acts);
    hide Runnable, Exec, LogOf;
    assert RefreshLogged(s, log, t) && RefreshLogged(s, log, u);
  }

  /** So when refreshes with a token do not overlap and their revocations take effect, it is
      exchanged at most once. */
  lemma UsedOnce(acts: seq<Action>, j: Jti)
    requires Runnable(EMPTY, acts)
    requires var s, log := Exec(EMPTY, acts), LogOf(EMPTY, NO_LOG, acts);
             && (forall t, u :: t != u && Exchanged(s, t, j) && Exchanged(s, u, j) ==>
                   After(log, t, u) || After(log, u, t))
             && (forall t :: Exchanged(s, t, j) ==> t !in log.unrevoked)
    ensures !ExchangedTwice(Exec(EMPTY, acts), j)
  {
    var s := Exec(EMPTY, acts);
    if ExchangedTwice(s, j) {
      var t, u :| t != u && Exchanged(s, t, j) && Exchanged(s, u, j);
      if After(LogOf(EMPTY, NO_LOG, acts), t, u) {
        SecondUseNeedsFailure(acts, t, u, j);
      } else {
        SecondUseNeedsFailure(acts, u, t, j);
      }
    }
  }

  // ---------------------------------------------------------------------------
  // And a failed revocation does allow a second exchange
  // ---------------------------------------------------------------------------

  lemma {:induction false} ExtendLog(s: State, log: Log, acts: seq<Action>, a: Action)
    requires Runnable(s, acts) && Enabled(Exec(s, acts), a)
    ensures Runnable(s, acts + [a]) && Exec(s, acts + [a]) == Apply(Exec(s, acts), a)
    ensures LogOf(s, log, acts + [a]) == Note(Exec(s, acts), a, LogOf(s, log, acts))
    decreases |acts|
  {
    hide Enabled, Apply, Note;
    if acts == [] {
      assert [a][1..] == [];
    } else {
      ExtendLog(Apply(s, acts[0]), Note(s, acts[0], log), acts[1..], a);
      assert (acts + [a])[1..] == acts[1..] + [a];
    }
  }

  lemma LoggedIn() returns (acts: seq<Action>)
    ensures Runnable(EMPTY, acts)
    ensures Exec(EMPTY, acts) == State(map["a" := Decimal(9)], [LoginDone("a")], map["a" := 0], {"a"}, map[])
    ensures LogOf(EMPTY, NO_LOG, acts) == NO_LOG.(clock := 2)
  {
    acts := [];
    assert Exec(EMPTY, acts) == EMPTY && LogOf(EMPTY, NO_LOG, acts) == NO_LOG;
    hide Runnable, Exec, LogOf, Decimal;
    ExtendLog(EMPTY, NO_LOG, acts, Login("a")); acts := acts + [Login("a")];
    ExtendLog(EMPTY, NO_LOG, acts, Go(0, Good, "", 9)); acts := acts + [Go(0, Good, "", 9)];
  }

  /** One refresh from start to finish, with its revocation lost. */
  lemma RefreshedOnce() returns (acts: seq<Action>)
    ensures Runnable(EMPTY, acts)
    ensures var s, log := Exec(EMPTY, acts), LogOf(EMPTY, NO_LOG, acts);
            && s.threads == [LoginDone("a"), RefreshDone("a", "b")]
            && s.kv == map["a" := Decimal(9), "b" := Decimal(9)]
            && s.sent == {"a", "b"} && s.owner.Keys == {"a", "b"}
            && log.clock == 6 && log.ended == map[1 := 5] && log.unrevoked == {1}
  {
    acts := LoggedIn();
    NeverTheWord(9);
    hide Runnable, Exec, LogOf, Decimal;
    ExtendLog(EMPTY, NO_LOG, acts, Refresh("a")); acts := acts + [Refresh("a")];
    ExtendLog(EMPTY, NO_LOG, acts, Go(1, Good, "b", 9)); acts := acts + [Go(1, Good, "b", 9)];
    ExtendLog(EMPTY, NO_LOG, acts, Go(1, Good, "", 9)); acts := acts + [Go(1, Good, "", 9)];
    ExtendLog(EMPTY, NO_LOG, acts, Go(1, Bad, "", 9)); acts := acts + [Go(1, Bad, "", 9)];
  }

  /** The second refresh comes in after the first was answered, and succeeds. */
  lemma UsedTwiceInTurn() returns (acts: seq<Action>)
    ensures Runnable(EMPTY, acts)
    ensures var s, log := Exec(EMPTY, acts), LogOf(EMPTY, NO_LOG, acts);
            && Exchanged(s, 1, "a") && Exchanged(s, 2, "a") && After(log, 1, 2)
            && Answered(s, "a") && log.unrevoked == {1}
  {
    acts := RefreshedOnce();
    NeverTheWord(9);
    hide Runnable, Exec, LogOf, Decimal;
    ExtendLog(EMPTY, NO_LOG, acts, Refresh("a")); acts := acts + [Refresh("a")];
    ExtendLog(EMPTY, NO_LOG, acts, Go(2, Good, "c", 9)); acts := acts + [Go(2, Good, "c", 9)];
    ExtendLog(EMPTY, NO_LOG, acts, Go(2, Good, "", 9)); acts := acts + [Go(2, Good, "", 9)];
    ExtendLog(EMPTY, NO_LOG, acts, Go(2, Good, "", 9)); acts := acts + [Go(2, Good, "", 9)];
  }
}
