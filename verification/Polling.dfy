/** The polling fallback of the client: bounded, backed-off task fetches until the task settles. */
module Polling {
  import opened Basics
  import opened TaskStates

  datatype Task = Task(id: string, state: TaskState)

  datatype Policy = Policy(initial: real, max: real, multiplier: real, timeout: real)

  datatype PolicyError = InitialNotPositive | MaxNotPositive | MultiplierBelowOne | TimeoutNotPositive | MaxBelowInitial

  predicate Valid(p: Policy) { 0.0 < p.initial <= p.max && p.multiplier >= 1.0 && p.timeout > 0.0 }

  function Validate(p: Policy): (error: Option<PolicyError>)
    ensures error.None? <==> Valid(p)
  {
    if p.initial <= 0.0 then Some(InitialNotPositive)
    else if p.max <= 0.0 then Some(MaxNotPositive)
    else if p.multiplier < 1.0 then Some(MultiplierBelowOne)
    else if p.timeout <= 0.0 then Some(TimeoutNotPositive)
    else if p.max < p.initial then Some(MaxBelowInitial)
    else None
  }

  function Max(a: real, b: real): real { if a >= b then a else b }

  function NextInterval(p: Policy, current: real): real { Min(Max(current, 0.0) * p.multiplier, p.max) }

  // ---- The peer and the clock ----

  datatype Reply = Fetched(task: Task) | Raised

  /** What the n-th fetch answers, and how much more time than the requested sleep passes before the n-th look at
   *  the clock: sleeps overrun and fetches take time. */
  datatype World = World(reply: (nat, string) -> Reply, lag: nat -> real)

  ghost predicate Forward(w: World) { forall n :: w.lag(n) >= 0.0 }

  /** The n-th polling interval. */
  function Interval(p: Policy, n: nat): real {
    if n == 0 then p.initial else NextInterval(p, Interval(p, n - 1))
  }

  /** Time from the deadline's computation to the n-th look at the clock, if polling gets that far. */
  function Elapsed(p: Policy, w: World, n: nat): real
    decreases n, 0
  {
    if n == 0 then w.lag(0) else Elapsed(p, w, n - 1) + Sleep(p, w, n - 1) + w.lag(n)
  }

  function Sleep(p: Policy, w: World, n: nat): real
    decreases n, 1
  {
    Min(Interval(p, n), p.timeout - Elapsed(p, w, n))
  }

  function SleepTotal(p: Policy, w: World, n: nat): real {
    if n == 0 then 0.0 else SleepTotal(p, w, n - 1) + Sleep(p, w, n - 1)
  }

  /** The task known after n fetches. */
  function Known(w: World, task: Task, n: nat): Reply {
    if n == 0 then Fetched(task)
    else
      match Known(w, task, n - 1)
      case Raised => Raised
      case Fetched(t) => w.reply(n - 1, t.id)
  }

  /** Round n goes on to another fetch. */
  ghost predicate GoesOn(p: Policy, w: World, task: Task, n: nat) {
    Known(w, task, n).Fetched? && AutoPolled(Known(w, task, n).task.state) && Elapsed(p, w, n) < p.timeout
  }

  // ---- The loop ----

  datatype Outcome = Settled(task: Task) | TimedOut | FetchFailed

  /** Polling stops at the first round that does not go on, and its outcome is what stopped it. */
  method PollTaskUntilTerminal(p: Policy, w: World, task: Task) returns (outcome: Outcome, fetches: nat)
    requires Valid(p) && Forward(w)
    ensures forall n :: 0 <= n < fetches ==> GoesOn(p, w, task, n)
    ensures !GoesOn(p, w, task, fetches)
    ensures fetches <= Bound(p) && SleepTotal(p, w, fetches) <= p.timeout
    ensures outcome == TimedOut ==>
              && Elapsed(p, w, fetches) >= p.timeout
              && Known(w, task, fetches).Fetched? && !Terminal(Known(w, task, fetches).task.state)
    ensures match Known(w, task, fetches)
            case Raised => outcome == FetchFailed
            case Fetched(t) => outcome == if AutoPolled(t.state) then TimedOut else Settled(t)
  {
    var currentTask, interval, now := task, p.initial, w.lag(0);
    var deadline := p.timeout;
    fetches := 0;
    PollingIsBounded(p, w, task, 0);
    while true
      invariant Known(w, task, fetches) == Fetched(currentTask)
      invariant interval == Interval(p, fetches) && now == Elapsed(p, w, fetches)
      invariant forall n :: 0 <= n < fetches ==> GoesOn(p, w, task, n)
      invariant fetches <= Bound(p) && SleepTotal(p, w, fetches) <= p.timeout
      decreases Bound(p) - fetches
    {
      if Terminal(currentTask.state) {
        return Settled(currentTask), fetches;
      }
      if !AutoPolled(currentTask.state) {
        return Settled(currentTask), fetches;
      }
      var remaining := deadline - now;
      if remaining <= 0.0 {
        return TimedOut, fetches;
      }
      RoundsAreBounded(p, w, task, fetches);
      var delay := Min(interval, remaining);
      var reply := w.reply(fetches, currentTask.id);
      fetches := fetches + 1;
      PollingIsBounded(p, w, task, fetches);
      if reply.Raised? {
        return FetchFailed, fetches;
      }
      now := now + delay + w.lag(fetches);
      currentTask := reply.task;
      interval := NextInterval(p, interval);
    }
  }

  // ---- Intervals ----

  lemma Scale(x: real, a: real, b: real)
    requires x >= 0.0 && a <= b
    ensures x * a <= x * b
  {
  }

  lemma NextGrows(p: Policy, x: real)
    requires Valid(p) && p.initial <= x <= p.max
    ensures x <= NextInterval(p, x) <= p.max
  {
    Scale(x, 1.0, p.multiplier);
  }

  lemma {:induction false} IntervalIsWithin(p: Policy, n: nat)
    requires Valid(p)
    ensures p.initial <= Interval(p, n) <= p.max
  {
    if n > 0 {
      IntervalIsWithin(p, n - 1);
      NextGrows(p, Interval(p, n - 1));
    }
  }

  /** Intervals never shrink and stay between the initial and the maximal one. */
  lemma IntervalsGrow(p: Policy, n: nat)
    requires Valid(p)
    ensures p.initial <= Interval(p, n) <= Interval(p, n + 1) <= p.max
  {
    IntervalIsWithin(p, n);
    NextGrows(p, Interval(p, n));
  }

  /** Each interval is the one before times the multiplier, until that would exceed the maximal one; a valid policy
      never meets the clamp at zero. */
  lemma IntervalMultiplies(p: Policy, n: nat)
    requires Valid(p)
    ensures Interval(p, 0) == p.initial
    ensures var x := Interval(p, n); Interval(p, n + 1) == if x * p.multiplier <= p.max then x * p.multiplier else p.max
  {
    IntervalIsWithin(p, n);
  }

  // ---- The bound ----

  /** The least number of initial intervals that covers the timeout. */
  function Bound(p: Policy): int
    requires p.initial > 0.0
  {
    -((-(p.timeout / p.initial)).Floor)
  }

  function Times(n: nat, x: real): real { if n == 0 then 0.0 else Times(n - 1, x) + x }

  lemma {:induction false} TimesIs(n: nat, x: real)
    ensures Times(n, x) == n as real * x
  {
    if n > 0 {
      TimesIs(n - 1, x);
    }
  }

  /** A round that is followed by another look before the deadline slept a full interval. */
  lemma FullSleep(p: Policy, w: World, n: nat)
    requires Valid(p) && Forward(w) && Elapsed(p, w, n + 1) < p.timeout
    ensures Sleep(p, w, n) == Interval(p, n) >= p.initial
    ensures Elapsed(p, w, n + 1) >= Elapsed(p, w, n) + Sleep(p, w, n)
  {
    IntervalIsWithin(p, n);
    assert w.lag(n + 1) >= 0.0;
  }

  /** While polling goes on, at least n initial intervals have passed: every sleep but the last is a full interval. */
  lemma {:induction false} RoundsTakeTime(p: Policy, w: World, n: nat)
    requires Valid(p) && Forward(w) && forall i :: 0 <= i <= n ==> Elapsed(p, w, i) < p.timeout
    ensures Times(n, p.initial) <= SleepTotal(p, w, n) <= Elapsed(p, w, n)
  {
    if n > 0 {
      RoundsTakeTime(p, w, n - 1);
      FullSleep(p, w, n - 1);
    } else {
      assert w.lag(0) >= 0.0;
    }
  }

  lemma RoundsAreBounded(p: Policy, w: World, task: Task, n: nat)
    requires Valid(p) && Forward(w) && forall i :: 0 <= i <= n ==> GoesOn(p, w, task, i)
    ensures n < Bound(p)
  {
    forall i | 0 <= i <= n
      ensures Elapsed(p, w, i) < p.timeout
    {
      assert GoesOn(p, w, task, i);
    }
    RoundsTakeTime(p, w, n);
    TimesIs(n, p.initial);
    Below(n as real, p.initial, p.timeout);
  }

  lemma Below(n: real, d: real, t: real)
    requires d > 0.0 && n * d < t
    ensures n < t / d
  {
    var q := t / d;
    assert q * d == t;
    if n >= q {
      Scale(d, q, n);
    }
  }

  /** Whatever the peer answers: at most ceil(timeout / initial) fetches, and the requested sleeps fit the timeout. */
  lemma PollingIsBounded(p: Policy, w: World, task: Task, fetches: nat)
    requires Valid(p) && Forward(w) && forall n :: 0 <= n < fetches ==> GoesOn(p, w, task, n)
    ensures fetches <= Bound(p)
    ensures SleepTotal(p, w, fetches) <= p.timeout
    ensures forall n :: 0 <= n < fetches ==> 0.0 < Sleep(p, w, n) <= Interval(p, n)
  {
    if fetches > 0 {
      var last := fetches - 1;
      RoundsAreBounded(p, w, task, last);
      forall i | 0 <= i <= last
        ensures Elapsed(p, w, i) < p.timeout
      {
        assert GoesOn(p, w, task, i);
      }
      RoundsTakeTime(p, w, last);
      forall n | 0 <= n < fetches
        ensures 0.0 < Sleep(p, w, n) <= Interval(p, n)
      {
        IntervalsGrow(p, n);
      }
    } else {
      assert p.timeout / p.initial > 0.0;
    }
  }
}
