/** The gateway's retry loop around a NATS request. */
module RetryLoop {

  datatype Outcome = Reply | NoResponders | CtxDone | OtherError

  /** What the surroundings do on one attempt: the answer, if the context allows one; how long
      it takes; how long the goroutine is then held up before its `select` looks at the two
      channels, and how much later than due it goes on; and which way the `select` falls when
      it finds both ready at once. */
  datatype Trial = Trial(outcome: Outcome, took: nat, stall: nat, slack: nat, prefersTimer: bool)

  type Trials = nat -> Trial

  /** All times count from the creation of the request context. It ends at `doneAt`: at its
      own timeout, or earlier if the client goes away or the server stops. */
  datatype Clock = Clock(delay: nat, timeout: nat, doneAt: nat)

  ghost predicate ClockOk(c: Clock) {
    c.delay > 0 && c.doneAt <= c.timeout
  }

  function Later(a: nat, b: nat): nat {
    if a < b then b else a
  }

  /** When attempt `i` (from 0) starts, if all before it led on. */
  function StartOf(env: Trials, c: Clock, i: nat): nat
    decreases i, 0
  {
    if i == 0 then 0
    else Later(TimerOf(env, c, i - 1), LooksAt(env, c, i - 1)) + env(i - 1).slack
  }

  /** When the delay after attempt `i` is over: it counts from the attempt's answer. */
  function TimerOf(env: Trials, c: Clock, i: nat): nat
    decreases i, 1
  {
    StartOf(env, c, i) + env(i).took + c.delay
  }

  /** When the `select` after attempt `i` first looks. */
  function LooksAt(env: Trials, c: Clock, i: nat): nat
    decreases i, 1
  {
    StartOf(env, c, i) + env(i).took + env(i).stall
  }

  /** A request on a context that is already over fails at once. */
  function OutcomeOf(env: Trials, c: Clock, i: nat): Outcome {
    if StartOf(env, c, i) >= c.doneAt then CtxDone else env(i).outcome
  }

  /** The `select` finds timer and context both ready: at the same instant, or because it was
      held up until both were. */
  predicate Tie(timer: nat, looks: nat, doneAt: nat) {
    timer == doneAt || (timer <= looks && doneAt <= looks)
  }

  /** The `select` comes back by the timer: the one that is ready first wins. */
  predicate TimerWins(timer: nat, looks: nat, doneAt: nat, prefersTimer: bool) {
    if Tie(timer, looks, doneAt) then prefersTimer else timer < doneAt
  }

  predicate Continues(env: Trials, c: Clock, i: nat) {
    TimerWins(TimerOf(env, c, i), LooksAt(env, c, i), c.doneAt, env(i).prefersTimer)
  }

  /** The loop makes exactly `n` attempts: each but the last found no responders and led on,
      and the last found something else or had no time left. */
  ghost predicate Makes(env: Trials, c: Clock, n: nat) {
    && n >= 1
    && (forall i :: 0 <= i < n - 1 ==> OutcomeOf(env, c, i) == NoResponders && Continues(env, c, i))
    && (OutcomeOf(env, c, n - 1) != NoResponders || !Continues(env, c, n - 1))
  }

  /** Whole delays in the timeout, rounded up. */
  function Rounds(c: Clock): nat
    requires c.delay > 0
  {
    (c.timeout + c.delay - 1) / c.delay
  }

  lemma {:induction false} StartsApart(env: Trials, c: Clock, i: nat)
    ensures StartOf(env, c, i) >= i * c.delay
    decreases i
  {
    if i == 0 {
    } else {
      StartsApart(env, c, i - 1);
      assert i * c.delay == (i - 1) * c.delay + c.delay;
    }
  }

  lemma FewerThan(i: nat, d: nat, t: nat)
    requires d > 0 && i * d < t
    ensures i < (t + d - 1) / d
  {
    var q := (t + d - 1) / d;
    assert q * d > t - 1;
    if i >= q {
      MulMonotone(q, i, d);
    }
  }

  lemma MulMonotone(a: nat, b: nat, d: nat)
    requires a <= b
    ensures a * d <= b * d
  {
  }

  /** An attempt that found no responders started in time, so there are not many of them. */
  lemma NoRespondersEarly(env: Trials, c: Clock, i: nat)
    requires ClockOk(c) && OutcomeOf(env, c, i) == NoResponders
    ensures i < Rounds(c)
  {
    StartsApart(env, c, i);
    FewerThan(i, c.delay, c.timeout);
  }

  method Request(env: Trials, c: Clock) returns (attempts: nat, outcome: Outcome)
    requires ClockOk(c)
    ensures Makes(env, c, attempts) && outcome == OutcomeOf(env, c, attempts - 1)
    ensures attempts <= Rounds(c) + 1
    ensures outcome == NoResponders ==>
              Later(TimerOf(env, c, attempts - 1), LooksAt(env, c, attempts - 1)) >= c.doneAt
  {
    var now := 0;
    attempts := 0;
    while true
      invariant attempts <= Rounds(c) && now == StartOf(env, c, attempts)
      invariant forall i :: 0 <= i < attempts ==> OutcomeOf(env, c, i) == NoResponders && Continues(env, c, i)
      decreases Rounds(c) - attempts
    {
      attempts := attempts + 1;
      var trial := env(attempts - 1);
      outcome := if now >= c.doneAt then CtxDone else trial.outcome;
      if outcome != NoResponders {
        return;
      }
      NoRespondersEarly(env, c, attempts - 1);
      var answered := now + trial.took;
      var timer, looks := answered + c.delay, answered + trial.stall;
      if !TimerWins(timer, looks, c.doneAt, trial.prefersTimer) {
        return;
      }
      now := Later(timer, looks) + trial.slack;
    }
  }

  /** How many attempts there are is settled by the surroundings alone, and is bounded. */
  lemma AttemptsSettled(env: Trials, c: Clock, m: nat, n: nat)
    requires ClockOk(c) && Makes(env, c, m) && Makes(env, c, n)
    ensures m == n <= Rounds(c) + 1
  {
    if m > 1 {
      NoRespondersEarly(env, c, m - 2);
    }
    var i: nat, j: nat := m - 1, n - 1;
    assert i < n - 1 ==> OutcomeOf(env, c, i) == NoResponders && Continues(env, c, i);
    assert j < m - 1 ==> OutcomeOf(env, c, j) == NoResponders && Continues(env, c, j);
  }

  /** Every attempt but the last starts while there is time; and from its answer to the next attempt
      a whole delay goes by, exactly one if nothing holds the goroutine up. */
  lemma AttemptsSpaced(env: Trials, c: Clock, n: nat, i: nat)
    requires ClockOk(c) && Makes(env, c, n) && i < n - 1
    ensures StartOf(env, c, i) < c.doneAt
    ensures var answered := StartOf(env, c, i) + env(i).took;
            && StartOf(env, c, i + 1) >= answered + c.delay
            && (env(i).stall <= c.delay && env(i).slack == 0 ==> StartOf(env, c, i + 1) == answered + c.delay)
  {
    assert OutcomeOf(env, c, i) == NoResponders;
  }

  /** No goroutine is ever held up before its `select`. */
  ghost predicate Unstalled(env: Trials) {
    forall i :: env(i).stall == 0
  }

  /** Without a stall only whole delays inside the timeout count. */
  lemma UnstalledBound(env: Trials, c: Clock, n: nat)
    requires ClockOk(c) && Unstalled(env) && Makes(env, c, n)
    ensures n <= c.timeout / c.delay + 1
  {
    if n > 1 {
      var i: nat := n - 2;
      assert OutcomeOf(env, c, i) == NoResponders && Continues(env, c, i);
      assert env(i).stall == 0;
      StartsApart(env, c, i);
      WholeDelays(i + 1, c.delay, c.timeout);
    }
  }

  lemma WholeDelays(i: nat, d: nat, t: nat)
    requires d > 0 && i * d <= t
    ensures i <= t / d
  {
    var q := t / d;
    assert (q + 1) * d > t;
    if i > q {
      MulMonotone(q + 1, i, d);
    }
  }

  /** Nobody ever answers, instantly; the timer wins every tie. */
  function Nobody(stall: nat): Trials {
    (i: nat) => Trial(NoResponders, 0, stall, 0, true)
  }

  lemma {:induction false} NobodyStarts(stall: nat, c: Clock, i: nat)
    requires stall <= c.delay
    ensures StartOf(Nobody(stall), c, i) == i * c.delay
    decreases i
  {
    if i == 0 {
    } else {
      NobodyStarts(stall, c, i - 1);
      assert i * c.delay == (i - 1) * c.delay + c.delay;
    }
  }

  /** As long as the context lasts it goes on: up to the next delay, or, held up for a whole
      delay, past the end. */
  lemma NobodyGoesOn(stall: nat, c: Clock, i: nat)
    requires stall <= c.delay && StartOf(Nobody(stall), c, i) < c.doneAt
    requires stall == c.delay || StartOf(Nobody(stall), c, i) + c.delay <= c.doneAt
    ensures OutcomeOf(Nobody(stall), c, i) == NoResponders && Continues(Nobody(stall), c, i)
  {
    hide StartOf;
  }

  // Whole delays, by multiplication.

  lemma OneMore(i: nat, d: nat)
    ensures (i + 1) * d == i * d + d
  {
  }

  lemma Quotient(x: nat, d: nat)
    requires d > 0
    ensures x / d * d <= x < x / d * d + d
  {
  }

  lemma QuotientOf(x: nat, d: nat, q: nat)
    requires d > 0 && q * d <= x < q * d + d
    ensures x / d == q
  {
    var p := x / d;
    Quotient(x, d);
    OneMore(p, d);
    OneMore(q, d);
    if p < q {
      MulMonotone(p + 1, q, d);
    } else if p > q {
      MulMonotone(q + 1, p, d);
    }
  }

  /** That bound is met for every delay and every timeout. */
  lemma UnstalledBoundIsMet(delay: nat, timeout: nat)
    requires delay > 0
    ensures Unstalled(Nobody(0)) && Makes(Nobody(0), Clock(delay, timeout, timeout), timeout / delay + 1)
  {
    hide StartOf, OutcomeOf, Continues;
    var c := Clock(delay, timeout, timeout);
    var q := timeout / delay;
    Quotient(timeout, delay);
    forall i | 0 <= i < q
      ensures OutcomeOf(Nobody(0), c, i) == NoResponders && Continues(Nobody(0), c, i)
    {
      NobodyStarts(0, c, i);
      MulMonotone(i + 1, q, delay);
      OneMore(i, delay);
      NobodyGoesOn(0, c, i);
    }
    NobodyStarts(0, c, q);
    NobodyStops(0, c, q);
  }

  lemma NobodyStops(stall: nat, c: Clock, i: nat)
    requires StartOf(Nobody(stall), c, i) >= c.doneAt
          || (stall == 0 && StartOf(Nobody(stall), c, i) + c.delay > c.doneAt)
    ensures OutcomeOf(Nobody(stall), c, i) != NoResponders || !Continues(Nobody(stall), c, i)
  {
    hide StartOf;
  }

  /** The general bound is met for every delay and every timeout by a goroutine held up until
      both channels are ready; with the delay dividing the timeout, without any stall. */
  lemma BoundIsMet(delay: nat, timeout: nat)
    requires delay > 0
    ensures var c := Clock(delay, timeout, timeout);
            && Makes(Nobody(delay), c, Rounds(c) + 1)
            && (timeout % delay == 0 ==> Makes(Nobody(0), c, Rounds(c) + 1))
  {
    hide StartOf, OutcomeOf, Continues;
    var c := Clock(delay, timeout, timeout);
    var n := Rounds(c);
    Quotient(timeout + delay - 1, delay);
    forall i | 0 <= i < n
      ensures OutcomeOf(Nobody(delay), c, i) == NoResponders && Continues(Nobody(delay), c, i)
    {
      NobodyStarts(delay, c, i);
      MulMonotone(i + 1, n, delay);
      OneMore(i, delay);
      NobodyGoesOn(delay, c, i);
    }
    NobodyStarts(delay, c, n);
    NobodyStops(delay, c, n);
    if timeout % delay == 0 {
      UnstalledBoundIsMet(delay, timeout);
      QuotientOf(timeout + delay - 1, delay, timeout / delay);
    }
  }
}
