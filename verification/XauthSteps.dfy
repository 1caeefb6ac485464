/** Logins, refreshes and logouts racing each other: every operation on the store of refresh
    ids is a step of its own, and may fail or take effect without the handler learning of it. */
module XauthSteps {
  import opened Decimals
  import opened XauthTokens

  type Jti = string

  datatype Thread =
    | LoginStore(made: Jti)
    | LoginDone(made: Jti)
    | LoginRefused                        // answered with an error
    | RefreshCheck(given: Jti)              // signature and expiry are in order
    | RefreshStore(given: Jti, made: Jti)
    | RefreshRevoke(given: Jti, made: Jti)
    | RefreshDone(given: Jti, made: Jti)
    | RefreshRefused(given: Jti)          // answered with an error
    | LogoutRevoke(given: Jti)
    | LogoutDone(given: Jti)

  /** `owner` (who drew each id), `sent` (ids a client has) and `revoker` are history. */
  datatype State = State(
    kv: KV, threads: seq<Thread>, owner: map<Jti, nat>, sent: set<Jti>, revoker: map<Jti, nat>)

  /** `Lost`: the write takes effect but reports an error. */
  datatype Pick = Good | Bad | Lost

  datatype Action =
    | Login(made: Jti)
    | Refresh(given: Jti)
    | Logout(given: Jti)
    | Go(t: nat, pick: Pick, made: Jti, exp: int)

  const EMPTY := State(map[], [], map[], {}, map[])

  predicate Finished(th: Thread) {
    th.LoginDone? || th.LoginRefused? || th.RefreshDone? || th.RefreshRefused? || th.LogoutDone?
  }

  predicate Enabled(s: State, a: Action) {
    match a
    case Login(made) => made !in s.owner
    case Refresh(given) => given in s.sent
    case Logout(given) => given in s.sent
    case Go(t, pick, made, _) =>
      t < |s.threads| && !Finished(s.threads[t])
      && (s.threads[t].RefreshCheck? ==> made !in s.owner && !pick.Lost?)
  }

  function Put(s: State, t: nat, th: Thread): State
    requires t < |s.threads|
  {
    s.(threads := s.threads[t := th])
  }

  function Store(s: State, made: Jti, exp: int, pick: Pick): State {
    if pick.Bad? then s else s.(kv := s.kv[made := Decimal(exp)])
  }

  function Revoke(s: State, given: Jti, t: nat, pick: Pick): State {
    if pick.Bad? then s
    else s.(kv := s.kv[given := REVOKED], revoker := s.revoker[given := t])
  }

  function Send(s: State, made: Jti): State {
    s.(sent := s.sent + {made})
  }

  function Apply(s: State, a: Action): State
    requires Enabled(s, a)
  {
    match a
    case Login(made) =>
      s.(threads := s.threads + [LoginStore(made)], owner := s.owner[made := |s.threads|])
    case Refresh(given) => s.(threads := s.threads + [RefreshCheck(given)])
    case Logout(given) => s.(threads := s.threads + [LogoutRevoke(given)])
    case Go(t, pick, made, exp) =>
      match s.threads[t]
      case LoginStore(mine) =>
        if pick.Good? then Send(Put(Store(s, mine, exp, pick), t, LoginDone(mine)), mine)
        else Put(Store(s, mine, exp, pick), t, LoginRefused)
      case RefreshCheck(given) =>
        if pick.Good? && Live(s.kv, given) then
          Put(s, t, RefreshStore(given, made)).(owner := s.owner[made := t])
        else Put(s, t, RefreshRefused(given))
      case RefreshStore(given, mine) =>
        Put(Store(s, mine, exp, pick), t, if pick.Good? then RefreshRevoke(given, mine) else RefreshRefused(given))
      case RefreshRevoke(given, mine) => Send(Put(Revoke(s, given, t, pick), t, RefreshDone(given, mine)), mine)
      case LogoutRevoke(given) => Put(Revoke(s, given, t, pick), t, LogoutDone(given))
      case _ => s
  }

  predicate Runnable(s: State, acts: seq<Action>)
    decreases |acts|
  {
    acts == [] || (Enabled(s, acts[0]) && Runnable(Apply(s, acts[0]), acts[1..]))
  }

  function Exec(s: State, acts: seq<Action>): State
    requires Runnable(s, acts)
    decreases |acts|
  {
    if acts == [] then s else Exec(Apply(s, acts[0]), acts[1..])
  }

  // ---------------------------------------------------------------------------
  // The invariant
  // ---------------------------------------------------------------------------

  predicate HasMade(th: Thread) {
    th.LoginStore? || th.LoginDone? || th.RefreshStore? || th.RefreshRevoke? || th.RefreshDone?
  }

  predicate IsRefresh(th: Thread) {
    th.RefreshCheck? || th.RefreshStore? || th.RefreshRevoke? || th.RefreshDone? || th.RefreshRefused?
  }

  predicate HasGiven(th: Thread) {
    IsRefresh(th) || th.LogoutRevoke? || th.LogoutDone?
  }

  ghost predicate ThreadOk(s: State, t: nat)
    requires t < |s.threads|
  {
    var th := s.threads[t];
    && (HasMade(th) ==> th.made in s.owner && s.owner[th.made] == t)
    && (HasMade(th) ==> (th.made in s.sent <==> th.LoginDone? || th.RefreshDone?))
    && (HasGiven(th) ==> th.given in s.sent)
    && (th.RefreshRevoke? ==> Live(s.kv, th.made))
    && (th.LoginStore? || th.RefreshStore? ==> th.made !in s.kv)
    && (th.RefreshDone? ==> th.made in s.kv)
  }

  /** A revoked id was revoked by a logout, or by a refresh that has its own new id stored. */
  ghost predicate RevokedOk(s: State, j: Jti)
    requires j in s.kv
  {
    s.kv[j] == REVOKED ==>
      && j in s.revoker && s.revoker[j] < |s.threads|
      && var th := s.threads[s.revoker[j]];
         th == LogoutDone(j) || (th.RefreshDone? && th.given == j && th.made in s.kv)
  }

  /** Who owns which id, and what clients have, are all accounted for. */
  ghost predicate Accounted(s: State) {
    && (forall j :: j in s.kv ==> j in s.owner)
    && (forall j :: j in s.sent ==> j in s.kv)
    && (forall j :: j in s.owner ==> s.owner[j] < |s.threads|)
  }

  ghost predicate Inv(s: State) {
    && Accounted(s)
    && (forall t :: 0 <= t < |s.threads| ==> ThreadOk(s, t))
    && (forall j :: j in s.kv ==> RevokedOk(s, j))
  }

  /** The thread a step belongs to; a new one for a new request. */
  function Mover(s: State, a: Action): nat {
    if a.Go? then a.t else |s.threads|
  }

  /** What a step of thread `t` may do to everyone else: its own id may appear and be sent, and
      an id that a client has may end. */
  ghost predicate StoreEvolves(s: State, s': State, t: nat) {
    && (forall j :: j in s.kv ==> j in s'.kv && (Live(s.kv, j) ==> Live(s'.kv, j) || j in s.sent))
    && (forall j :: j in s'.kv ==> j in s.kv || (j in s.owner && s.owner[j] == t))
  }

  ghost predicate HistoryEvolves(s: State, s': State, t: nat) {
    && (forall j :: j in s.owner ==> j in s'.owner && s'.owner[j] == s.owner[j])
    && s.sent <= s'.sent
    && (forall j :: j in s'.sent ==> j in s.sent || (j in s.owner && s.owner[j] == t))
    && (forall u :: 0 <= u < |s.threads| && u != t ==> u < |s'.threads| && s'.threads[u] == s.threads[u])
  }

  ghost predicate Evolves(s: State, s': State, t: nat) {
    StoreEvolves(s, s', t) && HistoryEvolves(s, s', t)
  }

  lemma HistoryStep(s: State, a: Action)
    requires Enabled(s, a) && (a.Go? ==> ThreadOk(s, a.t))
    ensures HistoryEvolves(s, Apply(s, a), Mover(s, a))
  {
    hide Decimal, Live;
  }

  lemma StoreStep(s: State, a: Action)
    requires Accounted(s) && Enabled(s, a) && (a.Go? ==> ThreadOk(s, a.t))
    ensures StoreEvolves(s, Apply(s, a), Mover(s, a))
  {
    hide Decimal;
    if a.Go? {
      NeverTheWord(a.exp);
    }
  }

  lemma StepEvolves(s: State, a: Action)
    requires Accounted(s) && Enabled(s, a) && (a.Go? ==> ThreadOk(s, a.t))
    ensures Evolves(s, Apply(s, a), Mover(s, a))
  {
    hide Apply, Accounted, ThreadOk, StoreEvolves, HistoryEvolves;
    HistoryStep(s, a);
    StoreStep(s, a);
  }

  lemma OtherKept(s: State, s': State, t: nat, u: nat)
    requires Evolves(s, s', t) && u < |s.threads| && u != t && ThreadOk(s, u)
    ensures u < |s'.threads| && ThreadOk(s', u)
  {
    assert s'.threads[u] == s.threads[u];
  }

  lemma MoverKept(s: State, a: Action)
    requires Accounted(s) && Enabled(s, a) && (a.Go? ==> ThreadOk(s, a.t))
    ensures ThreadOk(Apply(s, a), Mover(s, a))
  {
    hide Decimal;
    if a.Go? {
      NeverTheWord(a.exp);
    }
  }

  lemma RevokedKept(s: State, a: Action, j: Jti)
    requires Accounted(s) && Enabled(s, a) && (a.Go? ==> ThreadOk(s, a.t))
    requires j in Apply(s, a).kv && (j in s.kv ==> RevokedOk(s, j))
    ensures RevokedOk(Apply(s, a), j)
  {
    if a.Go? {
      NeverTheWord(a.exp);
      hide Decimal, ThreadOk, Accounted, HasMade, HasGiven;
      RevokedByGo(s, a, j);
    }
  }

  lemma RevokedByGo(s: State, a: Action, j: Jti)
    requires a.Go? && Enabled(s, a) && ThreadOk(s, a.t) && Accounted(s) && Decimal(a.exp) != REVOKED
    requires j in Apply(s, a).kv && (j in s.kv ==> RevokedOk(s, j))
    ensures RevokedOk(Apply(s, a), j)
  {
    hide Decimal;
    var s' := Apply(s, a);
    if s'.kv[j] == REVOKED && j in s.kv && s.kv[j] == REVOKED {
      assert Finished(s.threads[s.revoker[j]]);
    }
  }

  lemma AccountedKept(s: State, a: Action)
    requires Accounted(s) && Enabled(s, a) && (a.Go? ==> ThreadOk(s, a.t))
    ensures Accounted(Apply(s, a))
  {
    hide Decimal;
  }

  lemma StepKeeps(s: State, a: Action)
    requires Inv(s) && Enabled(s, a)
    ensures Inv(Apply(s, a))
  {
    hide Decimal, ThreadOk, RevokedOk, Accounted, Apply, Evolves;
    AccountedKept(s, a);
    StepEvolves(s, a);
    MoverKept(s, a);
    SameCount(s, a);
    var s' := Apply(s, a);
    forall u | 0 <= u < |s'.threads| ensures ThreadOk(s', u) {
      if u != Mover(s, a) {
        OtherKept(s, s', Mover(s, a), u);
      }
    }
    forall j | j in s'.kv ensures RevokedOk(s', j) {
      RevokedKept(s, a, j);
    }
  }

  lemma SameCount(s: State, a: Action)
    requires Enabled(s, a)
    ensures |Apply(s, a).threads| == if a.Go? then |s.threads| else |s.threads| + 1
  {
  }

  lemma {:induction false} RunKeeps(s: State, acts: seq<Action>)
    requires Inv(s) && Runnable(s, acts)
    ensures Inv(Exec(s, acts))
    decreases |acts|
  {
    hide Inv, Enabled, Apply;
    if acts == [] {
    } else {
      StepKeeps(s, acts[0]);
      RunKeeps(Apply(s, acts[0]), acts[1..]);
    }
  }

  // ---------------------------------------------------------------------------
  // Rotation never loses the session
  // ---------------------------------------------------------------------------

  /** In every state of every interleaving: a refresh about to revoke the id it was given has
      its own new id in the store, live; and every revoked id was revoked by a logout with that
      very id or by a refresh that went through, never by one that ended in an error. */
  lemma RotationKeepsSession(acts: seq<Action>)
    requires Runnable(EMPTY, acts)
    ensures var s := Exec(EMPTY, acts);
            && (forall t :: 0 <= t < |s.threads| && s.threads[t].RefreshRevoke? ==> Live(s.kv, s.threads[t].made))
            && (forall j :: j in s.kv && s.kv[j] == REVOKED ==>
                  exists t :: 0 <= t < |s.threads|
                    && (s.threads[t] == LogoutDone(j)
                        || (s.threads[t].RefreshDone? && s.threads[t].given == j && s.threads[t].made in s.kv)))
  {
    RunKeeps(EMPTY, acts);
    var s := Exec(EMPTY, acts);
    hide Runnable, Exec;
    forall t | 0 <= t < |s.threads| && s.threads[t].RefreshRevoke? ensures Live(s.kv, s.threads[t].made) {
      assert ThreadOk(s, t);
    }
    forall j | j in s.kv && s.kv[j] == REVOKED
      ensures exists t :: 0 <= t < |s.threads|
                && (s.threads[t] == LogoutDone(j)
                    || (s.threads[t].RefreshDone? && s.threads[t].given == j && s.threads[t].made in s.kv))
    {
      assert RevokedOk(s, j);
      assert 0 <= s.revoker[j] < |s.threads|;
    }
  }

  lemma RevokedStep(s: State, a: Action, j: Jti)
    requires Inv(s) && Enabled(s, a) && j in s.kv && s.kv[j] == REVOKED
    ensures var s' := Apply(s, a); j in s'.kv && s'.kv[j] == REVOKED
  {
    if a.Go? {
      assert ThreadOk(s, a.t);
    }
  }

  /** A revoked id never becomes live again, in any interleaving. */
  lemma {:induction false} RevokedForGood(s: State, acts: seq<Action>, j: Jti)
    requires Inv(s) && Runnable(s, acts) && j in s.kv && s.kv[j] == REVOKED
    ensures var s' := Exec(s, acts); j in s'.kv && s'.kv[j] == REVOKED
    decreases |acts|
  {
    hide Inv, Enabled, Apply;
    if acts == [] {
    } else {
      StepKeeps(s, acts[0]);
      RevokedStep(s, acts[0], j);
      RevokedForGood(Apply(s, acts[0]), acts[1..], j);
    }
  }

  // ---------------------------------------------------------------------------
  // What rotation does not promise
  // ---------------------------------------------------------------------------

  lemma {:induction false} Extend(s: State, acts: seq<Action>, a: Action)
    requires Runnable(s, acts) && Enabled(Exec(s, acts), a)
    ensures Runnable(s, acts + [a]) && Exec(s, acts + [a]) == Apply(Exec(s, acts), a)
    decreases |acts|
  {
    hide Enabled, Apply;
    if acts == [] {
      assert [a][1..] == [];
    } else {
      Extend(Apply(s, acts[0]), acts[1..], a);
      assert (acts + [a])[1..] == acts[1..] + [a];
    }
  }

  /** The check and the revocation are separate operations, so two refreshes that overlap can
      both succeed with the same token, leaving two live ids. */
  lemma TokenUsedTwice() returns (acts: seq<Action>)
    ensures Runnable(EMPTY, acts)
    ensures var s := Exec(EMPTY, acts);
            && s.threads == [LoginDone("a"), RefreshDone("a", "b"), RefreshDone("a", "c")]
            && !Live(s.kv, "a") && Live(s.kv, "b") && Live(s.kv, "c")
  {
    acts := BothChecked();
    NeverTheWord(9);
    hide Runnable, Exec, Decimal;
    Extend(EMPTY, acts, Go(1, Good, "", 9)); acts := acts + [Go(1, Good, "", 9)];   // first stores
    Extend(EMPTY, acts, Go(1, Good, "", 9)); acts := acts + [Go(1, Good, "", 9)];   // first revokes
    Extend(EMPTY, acts, Go(2, Good, "", 9)); acts := acts + [Go(2, Good, "", 9)];   // second stores
    Extend(EMPTY, acts, Go(2, Good, "", 9)); acts := acts + [Go(2, Good, "", 9)];   // second revokes
  }

  lemma BothChecked() returns (acts: seq<Action>)
    ensures Runnable(EMPTY, acts)
    ensures var s := Exec(EMPTY, acts);
            && s.threads == [LoginDone("a"), RefreshStore("a", "b"), RefreshStore("a", "c")]
            && s.kv == map["a" := Decimal(9)] && s.sent == {"a"}
  {
    acts := [];
    NeverTheWord(9);
    assert Runnable(EMPTY, acts) && Exec(EMPTY, acts) == EMPTY;
    hide Runnable, Exec, Decimal;
    Extend(EMPTY, acts, Login("a")); acts := acts + [Login("a")];
    Extend(EMPTY, acts, Go(0, Good, "", 9)); acts := acts + [Go(0, Good, "", 9)];   // stored and sent
    Extend(EMPTY, acts, Refresh("a")); acts := acts + [Refresh("a")];
    Extend(EMPTY, acts, Refresh("a")); acts := acts + [Refresh("a")];
    Extend(EMPTY, acts, Go(1, Good, "b", 9)); acts := acts + [Go(1, Good, "b", 9)]; // first check
    Extend(EMPTY, acts, Go(2, Good, "c", 9)); acts := acts + [Go(2, Good, "c", 9)]; // second check
  }
}
