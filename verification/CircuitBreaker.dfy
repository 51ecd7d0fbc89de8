/**
 The circuit breaker. `execute` is cut where it awaits its operation, so operations overlap:
 an outcome may arrive in any state, long after the operation was let in. Times are
 milliseconds of one monotone clock.
 */
module CircuitBreakers {
  import opened Basics

  datatype Options = Options(failureThreshold: int, resetTimeoutMs: int, halfOpenSuccessThreshold: Option<int>) {
    function SuccessThreshold(): int {
      if halfOpenSuccessThreshold.Some? then halfOpenSuccessThreshold.value else 1
    }
  }

  datatype State = CLOSED | OPEN | HALF_OPEN

  datatype Breaker = Breaker(state: State, failureCount: int, successCount: int, openedAtMs: Option<int>)

  const INITIAL := Breaker(CLOSED, 0, 0, None)

  // ---------------------------------------------------------------- transitions

  /** `evaluateStateTransition` */
  function Evaluated(o: Options, b: Breaker, now: int): Breaker {
    if b.state == OPEN && b.openedAtMs.Some? && now - b.openedAtMs.value >= o.resetTimeoutMs
    then b.(state := HALF_OPEN, successCount := 0) else b
  }

  function Tripped(now: int): Breaker {
    Breaker(OPEN, 0, 0, Some(now))
  }

  function Succeeded(o: Options, b: Breaker): Breaker {
    if b.state == HALF_OPEN then
      if b.successCount + 1 >= o.SuccessThreshold() then INITIAL else b.(successCount := b.successCount + 1)
    else b.(failureCount := 0)
  }

  predicate Trips(o: Options, b: Breaker) {
    b.state == HALF_OPEN || b.failureCount + 1 >= o.failureThreshold
  }

  function Failed(o: Options, b: Breaker, now: int): Breaker {
    if Trips(o, b) then Tripped(now) else b.(failureCount := b.failureCount + 1)
  }

  /** A call of `execute` begins, or its operation ends; or one of the other public methods is called. */
  datatype Event = Begin(now: int) | Success(now: int) | Failure(now: int) | GetState(now: int) | Reset(now: int)

  /** The breaker, and how many operations are in flight; an outcome needs one. */
  datatype Sys = Sys(breaker: Breaker, inFlight: nat)

  predicate Admits(o: Options, b: Breaker, now: int) {
    Evaluated(o, b, now).state != OPEN
  }

  function Step(o: Options, s: Sys, e: Event): Sys {
    match e
    case Begin(now) => Sys(Evaluated(o, s.breaker, now), if Admits(o, s.breaker, now) then s.inFlight + 1 else s.inFlight)
    case Success(_) => if s.inFlight == 0 then s else Sys(Succeeded(o, s.breaker), s.inFlight - 1)
    case Failure(now) => if s.inFlight == 0 then s else Sys(Failed(o, s.breaker, now), s.inFlight - 1)
    case GetState(now) => s.(breaker := Evaluated(o, s.breaker, now))
    case Reset(_) => s.(breaker := INITIAL)
  }

  function After(o: Options, events: seq<Event>): Sys
    decreases |events|
  {
    if events == [] then Sys(INITIAL, 0) else Step(o, After(o, events[..|events| - 1]), events[|events| - 1])
  }

  ghost predicate Monotone(events: seq<Event>) {
    forall i, j | 0 <= i < j < |events| :: events[i].now <= events[j].now
  }

  /** The object. */
  class CircuitBreaker {
    const options: Options
    var state: State
    var failureCount: int
    var successCount: int
    var openedAtMs: Option<int>

    function Model(): Breaker
      reads this
    {
      Breaker(state, failureCount, successCount, openedAtMs)
    }

    constructor (options: Options)
      ensures this.options == options && Model() == INITIAL
    {
      this.options := options;
      state, failureCount, successCount, openedAtMs := CLOSED, 0, 0, None;
    }

    method EvaluateStateTransition(now: int)
      modifies this
      ensures Model() == Evaluated(options, old(Model()), now)
    {
      if state != OPEN || openedAtMs.None? { return; }
      if now - openedAtMs.value >= options.resetTimeoutMs {
        state := HALF_OPEN;
        successCount := 0;
      }
    }

    method GetState(now: int) returns (r: State)
      modifies this
      ensures Model() == Evaluated(options, old(Model()), now) && r == Model().state
    {
      EvaluateStateTransition(now);
      r := state;
    }

    /** `execute` up to the call of the operation; false when it throws. */
    method Begin(now: int) returns (started: bool)
      modifies this
      ensures forall n: nat :: Step(options, Sys(old(Model()), n), Event.Begin(now)) == Sys(Model(), if started then n + 1 else n)
    {
      EvaluateStateTransition(now);
      started := state != OPEN;
    }

    method Trip(now: int)
      modifies this
      ensures Model() == Tripped(now)
    {
      state := OPEN;
      openedAtMs := Some(now);
      failureCount := 0;
      successCount := 0;
    }

    method Reset()
      modifies this
      ensures Model() == INITIAL
    {
      state := CLOSED;
      failureCount := 0;
      successCount := 0;
      openedAtMs := None;
    }

    method OnSuccess()
      modifies this
      ensures Model() == Succeeded(options, old(Model()))
    {
      if state == HALF_OPEN {
        successCount := successCount + 1;
        if successCount >= options.SuccessThreshold() { Reset(); }
        return;
      }
      failureCount := 0;
    }

    method OnFailure(now: int)
      modifies this
      ensures Model() == Failed(options, old(Model()), now)
    {
      if state == HALF_OPEN {
        Trip(now);
        return;
      }
      failureCount := failureCount + 1;
      if failureCount >= options.failureThreshold { Trip(now); }
    }
  }

  // ---------------------------------------------------------------- what the fields say

  /** The breaker has an opening time unless closed, and is half open only once its timeout has passed. */
  ghost predicate BreakerInv(o: Options, b: Breaker, now: int) {
    && (b.state == CLOSED <==> b.openedAtMs.None?)
    && (b.openedAtMs.Some? ==> b.openedAtMs.value <= now)
    && (b.state == HALF_OPEN ==> now >= b.openedAtMs.value + o.resetTimeoutMs)
  }

  lemma {:induction false} ReachableInv(o: Options, events: seq<Event>, now: int)
    requires Monotone(events) && (events != [] ==> events[|events| - 1].now <= now)
    ensures BreakerInv(o, After(o, events).breaker, now)
    decreases |events|
  {
    if events != [] {
      ReachableInv(o, events[..|events| - 1], events[|events| - 1].now);
    }
  }

  /**
   Whether a call is let in depends on the opening time alone: closed lets it in, and otherwise
   it is let in exactly when the timeout has passed since the last trip. Half open limits nothing.
   */
  lemma AdmittedExactly(o: Options, events: seq<Event>, now: int)
    requires Monotone(events) && (events != [] ==> events[|events| - 1].now <= now)
    ensures var b := After(o, events).breaker;
            Admits(o, b, now) <==> b.openedAtMs.None? || now >= b.openedAtMs.value + o.resetTimeoutMs
  {
    ReachableInv(o, events, now);
  }

  // ---------------------------------------------------------------- after a trip

  predicate TripsAt(o: Options, events: seq<Event>, i: nat)
    requires i < |events|
  {
    var s := After(o, events[..i]);
    events[i].Failure? && s.inFlight > 0 && Trips(o, s.breaker)
  }

  /** Since a trip at `t`: still open, perhaps tripped again, or the timeout is over. */
  ghost predicate Guarded(o: Options, b: Breaker, t: int, now: int) {
    now >= t + o.resetTimeoutMs || (b.state == OPEN && b.openedAtMs.Some? && t <= b.openedAtMs.value <= now)
  }

  lemma {:induction false} StaysGuarded(o: Options, events: seq<Event>, i: nat)
    requires Monotone(events) && i < |events| && TripsAt(o, events, i)
    requires forall k | i < k < |events| :: !events[k].Reset?
    ensures Guarded(o, After(o, events).breaker, events[i].now, events[|events| - 1].now)
    decreases |events|
  {
    var n := |events| - 1;
    if i < n {
      assert events[..n][..i] == events[..i];
      StaysGuarded(o, events[..n], i);
      assert events[n - 1].now <= events[n].now;
    }
  }

  /**
   With any overlap of operations: after a trip, and until `reset` is called from outside, no
   operation starts before the timeout is over, whatever late outcomes arrive in between.
   */
  lemma NoStartBeforeTimeout(o: Options, events: seq<Event>, i: nat, now: int)
    requires Monotone(events) && i < |events| && TripsAt(o, events, i) && events[|events| - 1].now <= now
    requires forall k | i < k < |events| :: !events[k].Reset?
    requires Admits(o, After(o, events).breaker, now)
    ensures now >= events[i].now + o.resetTimeoutMs
  {
    StaysGuarded(o, events, i);
  }

  /** A failure that opens a breaker keeps it shut to calls for exactly the timeout. */
  lemma TripLastsExactly(o: Options, events: seq<Event>, now: int, at: int)
    requires After(o, events).breaker.state != OPEN && After(o, events + [Failure(now)]).breaker.state == OPEN
    ensures Admits(o, After(o, events + [Failure(now)]).breaker, at) <==> at - now >= o.resetTimeoutMs
  {
    assert (events + [Failure(now)])[..|events|] == events;
  }

  /** Late failures counted while open: since the trip, or since the last one that tripped again, or a success. */
  function LateFailures(o: Options, events: seq<Event>): nat
    decreases |events|
  {
    if events == [] then 0 else
      var n := |events| - 1;
      var s, before := After(o, events[..n]), LateFailures(o, events[..n]);
      if s.breaker.state != OPEN then 0
      else if s.inFlight == 0 then before
      else match events[n]
        case Failure(_) => if before + 1 >= o.failureThreshold then 0 else before + 1
        case Success(_) => 0
        case _ => before
  }

  lemma {:induction false} OpenCountsLateFailures(o: Options, events: seq<Event>)
    ensures After(o, events).breaker.state == OPEN ==> After(o, events).breaker.failureCount == LateFailures(o, events)
    decreases |events|
  {
    if events != [] { OpenCountsLateFailures(o, events[..|events| - 1]); }
  }

  /** An open breaker is opened anew by a late failure exactly when it completes the threshold. */
  lemma LateFailureReopensExactly(o: Options, events: seq<Event>, now: int)
    requires After(o, events).breaker.state == OPEN && After(o, events).inFlight > 0
    requires After(o, events).breaker.openedAtMs != Some(now)
    ensures var b := After(o, events + [Failure(now)]).breaker;
            && b.state == OPEN
            && (b.openedAtMs == Some(now) <==> LateFailures(o, events) + 1 >= o.failureThreshold)
            && (b.openedAtMs != Some(now) ==> b.openedAtMs == After(o, events).breaker.openedAtMs)
  {
    OpenCountsLateFailures(o, events);
    assert (events + [Failure(now)])[..|events|] == events;
  }

  /** Without a success threshold one success while half open closes the breaker. */
  lemma OneSuccessCloses(o: Options, events: seq<Event>, now: int)
    requires o.halfOpenSuccessThreshold == None && After(o, events).breaker.state == HALF_OPEN && After(o, events).inFlight > 0
    ensures After(o, events + [Success(now)]).breaker == Breaker(CLOSED, 0, 0, None)
  {
    HalfOpenCountsProbes(o, events);
    assert (events + [Success(now)])[..|events|] == events;
  }

  /** A late failure of an operation let in earlier can trip an open breaker again and move its opening time. */
  lemma LateFailureReopens(t: int)
    ensures var o := Options(1, 10, None);
            var events := [Begin(t), Begin(t), Failure(t), Failure(t + 9)];
            && Monotone(events) && TripsAt(o, events, 2) && TripsAt(o, events, 3)
            && After(o, events[..3]).breaker.state == OPEN
            && !Admits(o, After(o, events).breaker, t + 10) && Admits(o, After(o, events[..3]).breaker, t + 10)
  {
    var o := Options(1, 10, None);
    var events := [Begin(t), Begin(t), Failure(t), Failure(t + 9)];
    assert events[..1] == [events[0]] && events[..1][..0] == [] && events[..2][..1] == events[..1];
    assert events[..3][..2] == events[..2] && events[..4][..3] == events[..3] && events == events[..4];
    assert After(o, events[..1]) == Sys(INITIAL, 1);
    assert After(o, events[..2]) == Sys(INITIAL, 2);
    assert After(o, events[..3]) == Sys(Tripped(t), 1);
    assert After(o, events) == Sys(Tripped(t + 9), 0);
  }

  // ---------------------------------------------------------------- counters

  ghost predicate CountersBelow(o: Options, b: Breaker) {
    0 <= b.failureCount < o.failureThreshold && 0 <= b.successCount < o.SuccessThreshold()
  }

  lemma {:induction false} CountersStayBelow(o: Options, events: seq<Event>)
    requires o.failureThreshold >= 1 && o.SuccessThreshold() >= 1
    ensures CountersBelow(o, After(o, events).breaker)
    decreases |events|
  {
    if events != [] { CountersStayBelow(o, events[..|events| - 1]); }
  }

  /** In every run of events both counters stay below their thresholds, exactly when the thresholds are at least 1. */
  lemma CountersBelowExactly(o: Options)
    ensures (forall events :: CountersBelow(o, After(o, events).breaker))
            <==> o.failureThreshold >= 1 && o.SuccessThreshold() >= 1
  {
    if o.failureThreshold >= 1 && o.SuccessThreshold() >= 1 {
      forall events ensures CountersBelow(o, After(o, events).breaker) { CountersStayBelow(o, events); }
    } else {
      assert !CountersBelow(o, After(o, []).breaker);
    }
  }

  /** How many outcomes in a row have been failures, since the last success or reset from outside. */
  function TrailingFailures(o: Options, events: seq<Event>): nat
    decreases |events|
  {
    if events == [] then 0 else
      var n := |events| - 1;
      var before := TrailingFailures(o, events[..n]);
      match events[n]
      case Reset(_) => 0
      case Success(_) => if After(o, events[..n]).inFlight > 0 then 0 else before
      case Failure(_) => if After(o, events[..n]).inFlight > 0 then before + 1 else before
      case _ => before
  }

  /**
   While the breaker is closed its count is the trailing run of failures, even when operations
   overlap; so a failure while closed opens it exactly when that run reaches the threshold.
   */
  lemma {:induction false} ClosedCountsTrailingFailures(o: Options, events: seq<Event>)
    ensures After(o, events).breaker.state == CLOSED ==> After(o, events).breaker.failureCount == TrailingFailures(o, events)
    decreases |events|
  {
    if events != [] { ClosedCountsTrailingFailures(o, events[..|events| - 1]); }
  }

  lemma ClosedTripsExactly(o: Options, events: seq<Event>, now: int)
    requires After(o, events).breaker.state == CLOSED && After(o, events).inFlight > 0
    ensures var more := events + [Failure(now)];
            After(o, more).breaker.state == OPEN <==> TrailingFailures(o, more) >= o.failureThreshold
  {
    ClosedCountsTrailingFailures(o, events);
    var more := events + [Failure(now)];
    assert more[..|more| - 1] == events;
  }

  /** How many operations have succeeded since the breaker was last anything but half open. */
  function ProbesPassed(o: Options, events: seq<Event>): nat
    decreases |events|
  {
    if events == [] then 0 else
      var n := |events| - 1;
      if After(o, events[..n]).breaker.state != HALF_OPEN then 0
      else ProbesPassed(o, events[..n])
           + if events[n].Success? && After(o, events[..n]).inFlight > 0 then 1 else 0
  }

  lemma {:induction false} HalfOpenCountsProbes(o: Options, events: seq<Event>)
    ensures After(o, events).breaker.state == HALF_OPEN ==> After(o, events).breaker.successCount == ProbesPassed(o, events)
    decreases |events|
  {
    if events != [] { HalfOpenCountsProbes(o, events[..|events| - 1]); }
  }

  /** Half open, an outcome decides: a failure opens the breaker, the success that completes the threshold closes it. */
  lemma HalfOpenDecidesExactly(o: Options, events: seq<Event>, now: int)
    requires After(o, events).breaker.state == HALF_OPEN && After(o, events).inFlight > 0
    ensures After(o, events + [Failure(now)]).breaker.state == OPEN
    ensures After(o, events + [Success(now)]).breaker.state == CLOSED
            <==> ProbesPassed(o, events + [Success(now)]) >= o.SuccessThreshold()
  {
    HalfOpenCountsProbes(o, events);
    assert (events + [Failure(now)])[..|events|] == events;
    assert (events + [Success(now)])[..|events|] == events;
  }
}
