/**
  The fixed-window admission rule of `DocumentService.createDocument`.

  The service keeps two fields, `lastRequestTime` (milliseconds) and
  `requestCounter`. A call samples the clock once, resets the counter when
  at least one interval has passed since `lastRequestTime`, and then either
  is admitted (the counter is incremented and `lastRequestTime` becomes the
  sampled time) or parks in `lock.wait()`. A parked caller that is woken
  re-tests only the counter: it neither re-samples the clock nor re-applies
  the reset, and if admitted it stores the time it sampled on entry.

  This module states that rule on values: `Enter` is one entry, `Recheck`
  one wake-up of a parked caller, `Run` a sequential history of both.
*/
module Admission {

  /** java.util.concurrent.TimeUnit, the configured unit of the window. */
  datatype TimeUnit = Nanoseconds | Microseconds | Milliseconds | Seconds | Minutes | Hours | Days

  /**
    `timeUnit.toMillis(1)`: the window length in milliseconds. The
    conversion truncates, so the two sub-millisecond units give 0.
  */
  function IntervalMillis(unit: TimeUnit): (r: int)
    ensures r >= 0
    ensures r == 0 <==> unit == Nanoseconds || unit == Microseconds
    ensures unit == Milliseconds ==> r == 1
    ensures unit == Seconds ==> r == 1000
  {
    match unit
    case Nanoseconds => 1 / 1_000_000
    case Microseconds => 1 / 1_000
    case Milliseconds => 1
    case Seconds => 1_000
    case Minutes => 60 * 1_000
    case Hours => 60 * 60 * 1_000
    case Days => 24 * 60 * 60 * 1_000
  }

  /** The two fields of `DocumentService` that the admission rule reads and writes. */
  datatype GateState = GateState(lastRequestTime: int, requestCounter: int)

  /** Whether a call proceeds past the gate, or parks in `lock.wait()`. */
  datatype Outcome = Admitted | Blocked

  /** One step of the gate: its outcome and the fields afterwards. */
  datatype Step = Step(outcome: Outcome, next: GateState)

  /** Whether a call that sampled `currentTime` finds the window over. */
  predicate WindowElapsed(s: GateState, currentTime: int, interval: int)
  {
    currentTime - s.lastRequestTime >= interval
  }

  /** The reset done on entry, before the limit is tested. */
  function ResetOnEntry(s: GateState, currentTime: int, interval: int): GateState
  {
    if WindowElapsed(s, currentTime, interval) then s.(requestCounter := 0) else s
  }

  /**
    The limit test and, when it passes, the admission. This is also what a
    woken caller does: `sampledTime` is the time it sampled when it entered,
    and the window reset is not applied again.
  */
  function Recheck(s: GateState, sampledTime: int, requestLimit: int): (r: Step)
    ensures r.outcome == Admitted <==> s.requestCounter < requestLimit
    ensures r.outcome == Blocked ==> r.next == s
    ensures r.outcome == Admitted ==>
      r.next.lastRequestTime == sampledTime && r.next.requestCounter == s.requestCounter + 1
  {
    if s.requestCounter >= requestLimit then Step(Blocked, s)
    else Step(Admitted, GateState(sampledTime, s.requestCounter + 1))
  }

  /** A call of `createDocument` that samples the clock at `currentTime`. */
  function Enter(s: GateState, currentTime: int, interval: int, requestLimit: int): (r: Step)
    // the counter is zeroed exactly when the window is over, before the limit test
    ensures WindowElapsed(s, currentTime, interval) ==> (r.outcome == Admitted <==> 0 < requestLimit)
    ensures !WindowElapsed(s, currentTime, interval) ==>
      (r.outcome == Admitted <==> s.requestCounter < requestLimit)
    // an admission counts one and restarts the window at the sampled time
    ensures r.outcome == Admitted ==> r.next.lastRequestTime == currentTime
    ensures r.outcome == Admitted ==>
      r.next.requestCounter == (if WindowElapsed(s, currentTime, interval) then 1 else s.requestCounter + 1)
    // a blocked entry keeps the window start; only the reset can have touched the counter
    ensures r.outcome == Blocked ==> r.next.lastRequestTime == s.lastRequestTime
    ensures r.outcome == Blocked ==>
      r.next.requestCounter == (if WindowElapsed(s, currentTime, interval) then 0 else s.requestCounter)
    ensures 0 < requestLimit && r.outcome == Blocked ==> r.next == s
    ensures requestLimit <= 0 <= s.requestCounter ==> r.outcome == Blocked
  {
    Recheck(ResetOnEntry(s, currentTime, interval), currentTime, requestLimit)
  }

  /**
    What a woken caller does. `AsWritten` is the code: re-test the counter
    with the stale entry time. `Resampling` is the evidently intended
    behaviour: sample the clock again and redo the whole entry.
  */
  datatype WakePolicy = AsWritten | Resampling

  /** An entry at `currentTime`, or the wake-up at `wokenAt` of a caller that entered at `sampledTime`. */
  datatype Event = Arrive(currentTime: int) | Wake(sampledTime: int, wokenAt: int)

  /** One event applied to the gate. */
  function StepOn(s: GateState, e: Event, interval: int, requestLimit: int, policy: WakePolicy): Step
  {
    match e
    case Arrive(t) => Enter(s, t, interval, requestLimit)
    case Wake(t, w) =>
      if policy == AsWritten then Recheck(s, t, requestLimit) else Enter(s, w, interval, requestLimit)
  }

  /** The outcomes of a sequential history of events, and the fields at its end. */
  datatype Trace = Trace(outcomes: seq<Outcome>, final: GateState)

  function Run(s: GateState, events: seq<Event>, interval: int, requestLimit: int, policy: WakePolicy): (r: Trace)
    ensures |r.outcomes| == |events|
    ensures events == [] ==> r.final == s
    decreases |events|
  {
    if events == [] then Trace([], s)
    else
      var st := StepOn(s, events[0], interval, requestLimit, policy);
      var rest := Run(st.next, events[1..], interval, requestLimit, policy);
      Trace([st.outcome] + rest.outcomes, rest.final)
  }

  /** With a positive limit, every history keeps `0 <= requestCounter <= requestLimit`. */
  lemma {:induction false} RunKeepsCounterInBounds(
    s: GateState, events: seq<Event>, interval: int, requestLimit: int, policy: WakePolicy)
    requires 0 < requestLimit
    requires 0 <= s.requestCounter <= requestLimit
    ensures 0 <= Run(s, events, interval, requestLimit, policy).final.requestCounter <= requestLimit
    decreases |events|
  {
    if events != [] {
      var st := StepOn(s, events[0], interval, requestLimit, policy);
      RunKeepsCounterInBounds(st.next, events[1..], interval, requestLimit, policy);
    }
  }

  /**
    With `requestLimit <= 0` nothing is ever admitted (the counter starts
    at 0 and never goes below), and the window start never moves.
  */
  lemma {:induction false} NonPositiveLimitNeverAdmits(
    s: GateState, events: seq<Event>, interval: int, requestLimit: int, policy: WakePolicy)
    requires requestLimit <= 0 <= s.requestCounter
    ensures forall i :: 0 <= i < |events| ==> Run(s, events, interval, requestLimit, policy).outcomes[i] == Blocked
    ensures Run(s, events, interval, requestLimit, policy).final.lastRequestTime == s.lastRequestTime
    decreases |events|
  {
    if events != [] {
      var st := StepOn(s, events[0], interval, requestLimit, policy);
      NonPositiveLimitNeverAdmits(st.next, events[1..], interval, requestLimit, policy);
    }
  }

  /**
    A burst of entries whose times, like the current window start, all lie
    in one interval `[windowStart, windowStart + interval)` never resets the
    counter: exactly the first `requestLimit - requestCounter` of them are
    admitted and every later one blocks.
  */
  lemma {:induction false} BurstWithinWindow(
    s: GateState, events: seq<Event>, windowStart: int, interval: int, requestLimit: int, policy: WakePolicy)
    requires windowStart <= s.lastRequestTime
    requires forall i :: 0 <= i < |events| ==>
      events[i].Arrive? && windowStart <= events[i].currentTime < windowStart + interval
    ensures forall i :: 0 <= i < |events| ==>
      (Run(s, events, interval, requestLimit, policy).outcomes[i] == Admitted <==> i < requestLimit - s.requestCounter)
    ensures Run(s, events, interval, requestLimit, policy).final.requestCounter ==
      if requestLimit <= s.requestCounter then s.requestCounter
      else if |events| <= requestLimit - s.requestCounter then s.requestCounter + |events|
      else requestLimit
    decreases |events|
  {
    if events != [] {
      var st := StepOn(s, events[0], interval, requestLimit, policy);
      assert !WindowElapsed(s, events[0].currentTime, interval);
      BurstWithinWindow(st.next, events[1..], windowStart, interval, requestLimit, policy);
      var r := Run(s, events, interval, requestLimit, policy);
      var rest := Run(st.next, events[1..], interval, requestLimit, policy);
      assert r.outcomes == [st.outcome] + rest.outcomes;
      forall i | 1 <= i < |events|
        ensures r.outcomes[i] == Admitted <==> i < requestLimit - s.requestCounter
      {
        assert r.outcomes[i] == rest.outcomes[i - 1];
      }
    }
  }

  /**
    Woken callers, as the code treats them, only re-test the counter: the
    first `requestLimit - requestCounter` are admitted whatever the times,
    and the counter never goes down, because no reset is applied.
  */
  lemma {:induction false} WakesTestOnlyTheCounter(
    s: GateState, events: seq<Event>, interval: int, requestLimit: int)
    requires forall i :: 0 <= i < |events| ==> events[i].Wake?
    ensures forall i :: 0 <= i < |events| ==>
      (Run(s, events, interval, requestLimit, AsWritten).outcomes[i] == Admitted <==> i < requestLimit - s.requestCounter)
    ensures Run(s, events, interval, requestLimit, AsWritten).final.requestCounter >= s.requestCounter
    decreases |events|
  {
    if events != [] {
      var st := StepOn(s, events[0], interval, requestLimit, AsWritten);
      WakesTestOnlyTheCounter(st.next, events[1..], interval, requestLimit);
      var r := Run(s, events, interval, requestLimit, AsWritten);
      var rest := Run(st.next, events[1..], interval, requestLimit, AsWritten);
      assert r.outcomes == [st.outcome] + rest.outcomes;
      forall i | 1 <= i < |events|
        ensures r.outcomes[i] == Admitted <==> i < requestLimit - s.requestCounter
      {
        assert r.outcomes[i] == rest.outcomes[i - 1];
      }
    }
  }

  /**
    As written, with `requestLimit == 1` a woken caller is never admitted
    once anything has been admitted: a new entry that resets the counter
    takes the freed slot itself, so every wake-up finds the counter at 1.
  */
  lemma {:induction false} LimitOneStarvesWaiters(s: GateState, events: seq<Event>, interval: int)
    requires s.requestCounter >= 1
    ensures forall i :: 0 <= i < |events| && events[i].Wake? ==>
      Run(s, events, interval, 1, AsWritten).outcomes[i] == Blocked
    ensures Run(s, events, interval, 1, AsWritten).final.requestCounter >= 1
    decreases |events|
  {
    if events != [] {
      var st := StepOn(s, events[0], interval, 1, AsWritten);
      LimitOneStarvesWaiters(st.next, events[1..], interval);
      var r := Run(s, events, interval, 1, AsWritten);
      var rest := Run(st.next, events[1..], interval, 1, AsWritten);
      assert r.outcomes == [st.outcome] + rest.outcomes;
      forall i | 1 <= i < |events| && events[i].Wake?
        ensures r.outcomes[i] == Blocked
      {
        assert r.outcomes[i] == rest.outcomes[i - 1];
        assert events[1..][i - 1] == events[i];
      }
    }
  }

  /**
    The scenario `requestLimit = 1`, a one-second window, calls at 0, 500
    and 1500 ms: as written, the call parked at 500 ms is still blocked when
    it is woken at 1500 ms, because the entry at 1500 ms reset the counter
    and took the slot.
  */
  lemma WaiterStarvesInScenario()
    ensures Run(GateState(0, 0), [Arrive(0), Arrive(500), Arrive(1500), Wake(500, 1500)],
                IntervalMillis(Seconds), 1, AsWritten).outcomes
      == [Admitted, Blocked, Admitted, Blocked]
  {
  }

  /**
    Re-reading the clock alone does not rescue the waiter of that scenario:
    the only wake-up comes right after the 1500 ms admission, inside the new
    window, so the resampling waiter is blocked too.
  */
  lemma ResamplingAloneStillBlocksInScenario()
    ensures Run(GateState(0, 0), [Arrive(0), Arrive(500), Arrive(1500), Wake(500, 1500)],
                IntervalMillis(Seconds), 1, Resampling).outcomes
      == [Admitted, Blocked, Admitted, Blocked]
  {
  }

  /**
    The first two calls of that scenario, with the parked caller woken at
    1000 ms, once the window is over and before any later call: when it
    re-reads the clock it is admitted.
  */
  lemma WaiterAdmittedInScenarioWhenResampling()
    ensures Run(GateState(0, 0), [Arrive(0), Arrive(500), Wake(500, 1000)],
                IntervalMillis(Seconds), 1, Resampling).outcomes
      == [Admitted, Blocked, Admitted]
  {
  }

  /** The time a step may store in `lastRequestTime`, under the resampling policy. */
  function StampOf(e: Event): int
  {
    match e
    case Arrive(t) => t
    case Wake(_, w) => w
  }

  /**
    Under the resampling policy the window start is always the initial one
    or the time of some event of the history.
  */
  lemma {:induction false} ResamplingWindowStartIsAnEventTime(
    s: GateState, events: seq<Event>, interval: int, requestLimit: int)
    ensures var last := Run(s, events, interval, requestLimit, Resampling).final.lastRequestTime;
      last == s.lastRequestTime || exists i :: 0 <= i < |events| && last == StampOf(events[i])
    decreases |events|
  {
    if events != [] {
      var st := StepOn(s, events[0], interval, requestLimit, Resampling);
      ResamplingWindowStartIsAnEventTime(st.next, events[1..], interval, requestLimit);
      var last := Run(s, events, interval, requestLimit, Resampling).final.lastRequestTime;
      if last != st.next.lastRequestTime {
        var i :| 0 <= i < |events[1..]| && last == StampOf(events[1..][i]);
        assert last == StampOf(events[i + 1]);
      } else if st.next.lastRequestTime != s.lastRequestTime {
        assert last == StampOf(events[0]);
      }
    }
  }

  /**
    Under the resampling policy, with a positive limit, a caller woken at
    least one interval after the window start and after every earlier event
    is admitted, whatever happened before.
  */
  lemma ResamplingWaiterAdmittedAfterWindow(
    s: GateState, events: seq<Event>, interval: int, requestLimit: int, sampledTime: int, wokenAt: int)
    requires 0 < requestLimit
    requires wokenAt - s.lastRequestTime >= interval
    requires forall i :: 0 <= i < |events| ==> wokenAt - StampOf(events[i]) >= interval
    ensures StepOn(Run(s, events, interval, requestLimit, Resampling).final,
                   Wake(sampledTime, wokenAt), interval, requestLimit, Resampling).outcome == Admitted
  {
    ResamplingWindowStartIsAnEventTime(s, events, interval, requestLimit);
  }

  /**
    Because an admitted waiter stores the time it sampled on entry, the
    window start can move backwards: here it goes from 150 ms back to 50 ms.
  */
  lemma StaleAdmissionMovesWindowBack()
    ensures var before := Run(GateState(0, 0), [Arrive(0), Arrive(10), Arrive(50), Arrive(150)], 100, 2, AsWritten);
      before.outcomes == [Admitted, Admitted, Blocked, Admitted] && before.final == GateState(150, 1)
    ensures Recheck(GateState(150, 1), 50, 2) == Step(Admitted, GateState(50, 2))
  {
  }
}
