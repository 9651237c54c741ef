/**
The scheduler that drains the outbox: an event-driven object with a timer, an in-flight run and promise
continuations.

`timer` and `inFlight` are the object's own variables; `armed` and `running` are what the runtime really holds,
so that a lost timer or a doubled run would show.
*/
module OutboxScheduler {
  import opened Wrappers
  import opened Powers

  datatype Config = Config(disabled: bool, intervalMs: int, backoffMs: int, maxBackoffMs: int)

  const DAY := 24 * 60 * 60 * 1000

  /** What the configuration reader guarantees by clamping. */
  predicate ValidConfig(c: Config) {
    1 <= c.intervalMs <= DAY && 1 <= c.backoffMs <= c.maxBackoffMs <= DAY
  }

  function BackoffDelay(c: Config, streak: int): int {
    if streak <= 0 then c.intervalMs
    else
      var delay := c.backoffMs * Pow2(if streak - 1 < 12 then streak - 1 else 12);
      if delay < c.maxBackoffMs then delay else c.maxBackoffMs
  }

  function ClampDelay(delay: int): int { if delay < 1 then 1 else if delay > DAY then DAY else delay }

  datatype State = State(
    started: bool, stopped: bool, timer: Option<nat>, inFlight: bool, failureStreak: nat, lastDelayMs: int,
    tickCount: nat, skippedInFlight: nat,
    armed: map<nat, int>, nextTimer: nat, running: nat, waiting: nat, ready: nat)

  /**
  `TimerFires`, `RunEnds` and `Continue` come from the runtime: a timeout elapses, the worker's promise settles,
  a `finally` callback whose promise has settled is called. The others are calls on the object.
  */
  datatype Event =
    | Start(immediate: bool) | Stop | Tick(allowAfterStop: bool) | TimerFires(id: nat) | RunEnds(failed: bool) | Continue

  function Initial(c: Config): State {
    State(false, false, None, false, 0, c.intervalMs, 0, 0, map[], 0, 0, 0, 0)
  }

  function ClearTimer(s: State): State {
    s.(armed := if s.timer.Some? then s.armed - {s.timer.value} else s.armed, timer := None)
  }

  function Schedule(c: Config, s: State, delay: int): State {
    var t := ClearTimer(s);
    if !t.started || t.stopped || c.disabled then t
    else t.(armed := t.armed[t.nextTimer := ClampDelay(delay)], timer := Some(t.nextTimer), nextTimer := t.nextTimer + 1)
  }

  /** Does a tick start a worker run now? */
  predicate StartsRun(c: Config, s: State, allowAfterStop: bool) {
    !c.disabled && (!s.stopped || allowAfterStop) && !s.inFlight
  }

  function TickStep(c: Config, s: State, allowAfterStop: bool): State {
    if StartsRun(c, s, allowAfterStop) then s.(inFlight := true, running := s.running + 1, tickCount := s.tickCount + 1)
    else if !c.disabled && (!s.stopped || allowAfterStop) then s.(skippedInFlight := s.skippedInFlight + 1)
    else s
  }

  /** `tick().finally(reschedule)`: the callback waits for the run, or is ready at once if none was started. */
  function TickThenReschedule(c: Config, s: State): State {
    var t := TickStep(c, s, false);
    if StartsRun(c, s, false) then t.(waiting := t.waiting + 1) else t.(ready := t.ready + 1)
  }

  function Step(c: Config, s: State, e: Event): State {
    match e
    case Start(immediate) =>
      if c.disabled || (s.started && !s.stopped) then s
      else
        var t := s.(started := true, stopped := false);
        if immediate then TickThenReschedule(c, t) else Schedule(c, t, c.intervalMs)
    case Stop => ClearTimer(s.(stopped := true, started := false))
    case Tick(allow) => TickStep(c, s, allow)
    case TimerFires(id) =>
      if id !in s.armed then s else TickThenReschedule(c, s.(armed := s.armed - {id}, timer := None))
    case RunEnds(failed) =>
      if s.running == 0 then s
      else
        var streak := if failed then s.failureStreak + 1 else 0;
        s.(failureStreak := streak, lastDelayMs := if failed then BackoffDelay(c, streak) else c.intervalMs,
           inFlight := false, running := s.running - 1, ready := s.ready + s.waiting, waiting := 0)
    case Continue =>
      if s.ready == 0 then s
      else
        var t := s.(ready := s.ready - 1);
        if t.started && !t.stopped then Schedule(c, t, t.lastDelayMs) else t
  }

  function Run(c: Config, events: seq<Event>): State {
    if events == [] then Initial(c) else Step(c, Run(c, events[..|events| - 1]), events[|events| - 1])
  }

  // ----- the object as the source writes it -----

  class Scheduler {
    const config: Config
    var started: bool
    var stopped: bool
    var timer: Option<nat>
    var inFlight: bool
    var failureStreak: nat
    var lastDelayMs: int
    var tickCount: nat
    var skippedInFlight: nat
    var armed: map<nat, int>
    var nextTimer: nat
    var running: nat
    var waiting: nat
    var ready: nat

    ghost function Model(): State
      reads this
    {
      State(started, stopped, timer, inFlight, failureStreak, lastDelayMs, tickCount, skippedInFlight,
            armed, nextTimer, running, waiting, ready)
    }

    constructor (config: Config)
      ensures this.config == config && Model() == Initial(config)
    {
      this.config := config;
      started, stopped, timer, inFlight := false, false, None, false;
      failureStreak, lastDelayMs, tickCount, skippedInFlight := 0, config.intervalMs, 0, 0;
      armed, nextTimer, running, waiting, ready := map[], 0, 0, 0, 0;
    }

    method ClearTimerVariable()
      modifies this
      ensures Model() == ClearTimer(old(Model()))
    {
      if timer.Some? { armed := armed - {timer.value}; }
      timer := None;
    }

    method ScheduleNext(delayMs: int)
      modifies this
      ensures Model() == Schedule(config, old(Model()), delayMs)
    {
      ClearTimerVariable();
      if !started || stopped || config.disabled { return; }
      armed := armed[nextTimer := ClampDelay(delayMs)];
      timer := Some(nextTimer);
      nextTimer := nextTimer + 1;
    }

    method TickNow(allowAfterStop: bool) returns (startedRun: bool)
      modifies this
      ensures Model() == Step(config, old(Model()), Tick(allowAfterStop))
      ensures startedRun <==> StartsRun(config, old(Model()), allowAfterStop)
    {
      if config.disabled { return false; }
      if stopped && !allowAfterStop { return false; }
      if inFlight {
        skippedInFlight := skippedInFlight + 1;
        return false;
      }
      tickCount := tickCount + 1;
      inFlight := true;
      running := running + 1;
      startedRun := true;
    }

    method StartNow(immediate: bool)
      modifies this
      ensures Model() == Step(config, old(Model()), Start(immediate))
    {
      if config.disabled { return; }
      if started && !stopped { return; }
      started := true;
      stopped := false;
      if immediate {
        var began := TickNow(false);
        if began { waiting := waiting + 1; } else { ready := ready + 1; }
      } else {
        ScheduleNext(config.intervalMs);
      }
    }

    method StopNow()
      modifies this
      ensures Model() == Step(config, old(Model()), Stop)
    {
      stopped := true;
      started := false;
      ClearTimerVariable();
    }

    method OnTimer(id: nat)
      requires id in armed
      modifies this
      ensures Model() == Step(config, old(Model()), TimerFires(id))
    {
      armed := armed - {id};
      timer := None;
      var began := TickNow(false);
      if began { waiting := waiting + 1; } else { ready := ready + 1; }
    }

    method OnRunEnd(failed: bool)
      requires running > 0
      modifies this
      ensures Model() == Step(config, old(Model()), RunEnds(failed))
    {
      if failed {
        failureStreak := failureStreak + 1;
        lastDelayMs := BackoffDelay(config, failureStreak);
      } else {
        failureStreak := 0;
        lastDelayMs := config.intervalMs;
      }
      inFlight := false;
      running := running - 1;
      ready := ready + waiting;
      waiting := 0;
    }

    method OnContinue()
      requires ready > 0
      modifies this
      ensures Model() == Step(config, old(Model()), Continue)
    {
      ready := ready - 1;
      if started && !stopped { ScheduleNext(lastDelayMs); }
    }
  }

  // ----- every interleaving -----

  predicate Inv(c: Config, s: State) {
    && (s.started ==> !s.stopped && !c.disabled)
    && s.running == (if s.inFlight then 1 else 0)
    && s.waiting <= s.running
    && s.armed.Keys == (if s.timer.Some? then {s.timer.value} else {})
    && (s.timer.Some? ==> s.started && s.timer.value < s.nextTimer)
    && (s.started ==> s.timer.Some? || s.waiting + s.ready > 0)
    && s.lastDelayMs == BackoffDelay(c, s.failureStreak)
  }

  lemma StepKeeps(c: Config, s: State, e: Event)
    requires Inv(c, s)
    ensures Inv(c, Step(c, s, e))
  {
    assert s.timer.Some? ==> (s.armed - {s.timer.value}).Keys == {};
  }

  lemma {:induction false} Reachable(c: Config, events: seq<Event>)
    ensures Inv(c, Run(c, events))
  {
    if events != [] {
      Reachable(c, events[..|events| - 1]);
      StepKeeps(c, Run(c, events[..|events| - 1]), events[|events| - 1]);
    }
  }

  /** One run, one timer, no timer unless started; and a started scheduler always has its next move pending. */
  lemma NeverDoubledNeverStalled(c: Config, events: seq<Event>)
    ensures var s := Run(c, events);
            && s.running <= 1 && |s.armed| <= 1
            && (s.armed != map[] ==> s.started && !s.stopped && !c.disabled)
            && (s.started ==> s.armed != map[] || s.ready > 0 || (s.waiting > 0 && s.running > 0))
  {
    Reachable(c, events);
    var s := Run(c, events);
    assert |s.armed| == |s.armed.Keys|;
    assert s.timer.Some? ==> s.timer.value in s.armed;
  }

  /** The outcomes of the worker runs that ended, oldest first. */
  function Outcomes(c: Config, events: seq<Event>): seq<bool> {
    if events == [] then []
    else
      var front, e := events[..|events| - 1], events[|events| - 1];
      Outcomes(c, front) + if e.RunEnds? && Run(c, front).running > 0 then [e.failed] else []
  }

  function TrailingFailures(outcomes: seq<bool>): nat {
    if outcomes == [] || !outcomes[|outcomes| - 1] then 0 else 1 + TrailingFailures(outcomes[..|outcomes| - 1])
  }

  lemma StreakStep(c: Config, s: State, e: Event)
    ensures Step(c, s, e).failureStreak
            == if e.RunEnds? && s.running > 0 then (if e.failed then s.failureStreak + 1 else 0) else s.failureStreak
  {}

  lemma TrailingPush(outcomes: seq<bool>, failed: bool)
    ensures TrailingFailures(outcomes + [failed]) == if failed then 1 + TrailingFailures(outcomes) else 0
  {
    assert (outcomes + [failed])[..|outcomes|] == outcomes;
  }

  /** The streak counts the failures since the last success, and the delay is that streak's capped backoff. */
  lemma {:induction false} StreakIsTrailingFailures(c: Config, events: seq<Event>)
    ensures Run(c, events).failureStreak == TrailingFailures(Outcomes(c, events))
    ensures Run(c, events).lastDelayMs == BackoffDelay(c, TrailingFailures(Outcomes(c, events)))
  {
    Reachable(c, events);
    if events != [] {
      var front, e := events[..|events| - 1], events[|events| - 1];
      StreakIsTrailingFailures(c, front);
      StreakStep(c, Run(c, front), e);
      if e.RunEnds? && Run(c, front).running > 0 {
        TrailingPush(Outcomes(c, front), e.failed);
      } else {
        assert Outcomes(c, events) == Outcomes(c, front);
      }
    }
  }

  /** A disabled scheduler does nothing, whatever is called. */
  lemma {:induction false} DisabledDoesNothing(c: Config, events: seq<Event>)
    requires c.disabled
    ensures Run(c, events).(stopped := false) == Initial(c)
  {
    if events != [] { DisabledDoesNothing(c, events[..|events| - 1]); }
  }

  /** Exactly which steps begin a worker run: a timer, a start with a first tick, or a tick, none of them during a run. */
  lemma RunsBeginIff(c: Config, events: seq<Event>, e: Event)
    ensures var s, t := Run(c, events), Step(c, Run(c, events), e);
            && (t.tickCount == s.tickCount + 1 || t.tickCount == s.tickCount)
            && (t.tickCount == s.tickCount + 1
                <==> !c.disabled && s.running == 0
                     && ((e.TimerFires? && e.id in s.armed) || (e.Start? && e.immediate && !s.started)
                         || (e.Tick? && (!s.stopped || e.allowAfterStop))))
            && (t.tickCount == s.tickCount + 1 ==> t.running == 1)
  {
    Reachable(c, events);
  }

  /** When a step arms a timer: on a start without a first tick, and when a run's continuation finds it still started. */
  predicate Arms(s: State, e: Event, c: Config) {
    match e
    case Start(immediate) => !immediate && !c.disabled && (!s.started || s.stopped)
    case Continue => s.ready > 0 && s.started && !s.stopped && !c.disabled
    case _ => false
  }

  /**
  What every timer waits, in every run: a timer armed by a start waits the interval, one armed after a run the backoff
  of the failures since the last success. No other step arms one, no timer is armed again under another delay, and the
  one it replaces is gone.
  */
  lemma TimersWaitTheDelay(c: Config, events: seq<Event>, e: Event)
    ensures var s, t := Run(c, events), Step(c, Run(c, events), e);
            && s.nextTimer !in s.armed
            && (forall id :: id in s.armed && id in t.armed ==> t.armed[id] == s.armed[id])
            && (if Arms(s, e, c)
                then t.armed == map[s.nextTimer := ClampDelay(if e.Start? then c.intervalMs
                                                              else BackoffDelay(c, TrailingFailures(Outcomes(c, events))))]
                else t.armed.Keys <= s.armed.Keys)
  {
    Reachable(c, events);
    StreakIsTrailingFailures(c, events);
    var s := Run(c, events);
    hide BackoffDelay, Outcomes, TrailingFailures, ClampDelay;
    assert s.timer.Some? ==> (s.armed - {s.timer.value}).Keys == {};
    assert s.timer.None? ==> s.armed == map[];
  }

  /** A success is followed by the interval, one failure by the first backoff, and each further one by twice the last wait. */
  lemma DelayDoubles(c: Config, streak: nat)
    requires ValidConfig(c)
    ensures BackoffDelay(c, 0) == c.intervalMs && BackoffDelay(c, 1) == c.backoffMs
    ensures 1 <= streak <= 12
            ==> BackoffDelay(c, streak + 1)
                == if 2 * BackoffDelay(c, streak) < c.maxBackoffMs then 2 * BackoffDelay(c, streak) else c.maxBackoffMs
    ensures streak >= 13 ==> BackoffDelay(c, streak) == BackoffDelay(c, 13)
  {
    if 1 <= streak <= 12 {
      ScaleDoubles(c.backoffMs, streak - 1);
      DelaysAreInRange(c, streak);
    }
  }

  predicate Quiet(e: Event) { !e.Start? && e != Tick(true) }

  function RunFrom(c: Config, s: State, events: seq<Event>): State {
    if events == [] then s else Step(c, RunFrom(c, s, events[..|events| - 1]), events[|events| - 1])
  }

  /** After a stop, until someone starts it or forces a tick, nothing is armed and no run begins. */
  lemma {:induction false} StoppedStaysQuiet(c: Config, before: seq<Event>, after: seq<Event>)
    requires forall e <- after :: Quiet(e)
    ensures var s := Step(c, Run(c, before), Stop);
            var t := RunFrom(c, s, after);
            t.armed == map[] && t.timer.None? && t.stopped && !t.started && t.running <= s.running && t.tickCount == s.tickCount
  {
    Reachable(c, before);
    var s := Step(c, Run(c, before), Stop);
    if after == [] {
      StepKeeps(c, Run(c, before), Stop);
      assert s.armed.Keys == {};
    } else {
      assert after[|after| - 1] in after && forall e <- after[..|after| - 1] :: e in after;
      StoppedStaysQuiet(c, before, after[..|after| - 1]);
    }
  }

  /** A delay the scheduler computes never needs clamping, and a failure never waits less than the first backoff. */
  lemma DelaysAreInRange(c: Config, streak: nat)
    requires ValidConfig(c)
    ensures ClampDelay(BackoffDelay(c, streak)) == BackoffDelay(c, streak)
    ensures streak > 0 ==> c.backoffMs <= BackoffDelay(c, streak) <= c.maxBackoffMs
  {
    if streak > 0 {
      ScaleGrows(c.backoffMs, 1, Pow2(if streak - 1 < 12 then streak - 1 else 12));
    }
  }
}
