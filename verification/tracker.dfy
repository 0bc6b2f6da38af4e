/**
 The live tracking state of the step counter and its transitions.

 Each transition is a pure function from the old state to the new one. The
 clock reading `now` and the distance function are parameters; the timer is
 only the `active` flag.
 */
module Tracker {
  import opened Optional
  import opened Geo

  /** Average stride length, in meters, used to turn distance into steps. */
  const StepMeters: real := 0.8

  /**
   The tracker's fields: the last sample (position and clock reading), the
   distance walked so far in meters, the last computed speed in m/s, the
   estimated step count, and whether the polling timer is running.
   */
  datatype State = State(
    prevCoord: Option<Coord>,
    prevTime: Option<real>,
    totalDistance: real,
    speed: real,
    steps: int,
    active: bool)

  /** The previous position and the previous time are set and cleared together. */
  predicate SampleConsistent(s: State) {
    s.prevCoord.None? <==> s.prevTime.None?
  }

  /** `steps` is the number of whole strides that fit in `totalDistance`. */
  predicate StepsMatch(s: State) {
    s.steps as real * StepMeters <= s.totalDistance < (s.steps + 1) as real * StepMeters
  }

  /** The invariant every reachable state keeps. */
  predicate Valid(s: State) {
    && SampleConsistent(s)
    && s.totalDistance >= 0.0
    && s.speed >= 0.0
    && StepsMatch(s)
  }

  /** Python's `int(x)` on a float: truncation toward zero. */
  function Trunc(x: real): (r: int)
    ensures 0.0 <= x ==> r as real <= x < r as real + 1.0
    ensures x < 0.0 ==> r as real - 1.0 < x <= r as real
  {
    if x >= 0.0 then x.Floor else -((-x).Floor)
  }

  /** The step estimate for a distance: `int(total / STEP_METERS)`. */
  function StepsFor(total: real): (r: int)
    requires total >= 0.0
    ensures r >= 0
    ensures r as real * StepMeters <= total < (r + 1) as real * StepMeters
  {
    Trunc(total / StepMeters)
  }

  /** On the distances the tracker sees, truncation is the floor the step count is meant to be. */
  lemma StepsForIsFloor(total: real)
    requires total >= 0.0
    ensures StepsFor(total) == (total / StepMeters).Floor
  {
  }

  /** A state with no previous sample and every accumulator at zero. */
  function Zeroed(active: bool): State {
    State(None, None, 0.0, 0.0, 0, active)
  }

  /**
   The state right after construction: accumulators at zero and the timer
   already started.
   */
  function Init(): (s: State)
    ensures Valid(s)
    ensures s.active
    ensures s.prevCoord.None? && s.totalDistance == 0.0 && s.speed == 0.0 && s.steps == 0
  {
    Zeroed(true)
  }

  /**
   Seconds since the previous sample, or 1.0 when the previous time is falsy
   in Python, that is absent or exactly 0.0.
   */
  function Elapsed(prevTime: Option<real>, now: real): (e: real)
    ensures prevTime.Some? && prevTime.value != 0.0 ==> e + prevTime.value == now
    ensures prevTime.None? || prevTime.value == 0.0 ==> e == 1.0
  {
    if prevTime.Some? && prevTime.value != 0.0 then now - prevTime.value else 1.0
  }

  /** Speed over one tick: distance over elapsed time, or 0 when no time has passed. */
  function TickSpeed(meters: real, elapsed: real): (v: real)
    ensures elapsed > 0.0 ==> v * elapsed == meters
    ensures elapsed <= 0.0 ==> v == 0.0
    ensures meters >= 0.0 ==> v >= 0.0
  {
    if elapsed > 0.0 then meters / elapsed else 0.0
  }

  /**
   One poll of the timer: take the position `coord` read at time `now`.
   The first sample of a session is only remembered; every later one adds its
   distance from the previous sample. The timer flag is neither read nor changed.
   */
  function Tick(s: State, coord: Coord, now: real, dist: Distance): (r: State)
    ensures r.active == s.active
    ensures r.prevCoord == Some(coord) && r.prevTime == Some(now)
    ensures s.prevCoord.None? ==>
      r.speed == 0.0 && r.totalDistance == s.totalDistance && r.steps == s.steps
    ensures s.prevCoord.Some? ==>
      r.totalDistance == s.totalDistance + dist(s.prevCoord.value, coord)
  {
    match s.prevCoord
    case None =>
      s.(prevCoord := Some(coord), prevTime := Some(now), speed := 0.0)
    case Some(prev) =>
      var meters := dist(prev, coord);
      var elapsed := Elapsed(s.prevTime, now);
      var total := s.totalDistance + meters;
      State(Some(coord), Some(now), total, TickSpeed(meters, elapsed), Trunc(total / StepMeters), s.active)
  }

  /** The Start button: a fresh session if the timer is stopped, nothing otherwise. */
  function Start(s: State): (r: State)
    ensures r.active
    ensures s.active ==> r == s
    ensures !s.active ==>
      r.prevCoord.None? && r.prevTime.None? &&
      r.totalDistance == 0.0 && r.speed == 0.0 && r.steps == 0
  {
    if !s.active then Zeroed(true) else s
  }

  /** The Stop button: halt the timer and keep every accumulator. */
  function Stop(s: State): (r: State)
    ensures !r.active
    ensures r.(active := s.active) == s
  {
    if s.active then s.(active := false) else s
  }

  /** The Reset button, once confirmed: zero the accumulators, keep the timer as it is. */
  function Reset(s: State): (r: State)
    ensures r.active == s.active
    ensures r.prevCoord.None? && r.prevTime.None?
    ensures r.totalDistance == 0.0 && r.speed == 0.0 && r.steps == 0
  {
    Zeroed(s.active)
  }

  /** Every transition keeps the invariant. */
  lemma TickPreservesValid(s: State, coord: Coord, now: real, dist: Distance)
    requires Valid(s)
    requires NonNegative(dist)
    ensures Valid(Tick(s, coord, now, dist))
  {
  }

  lemma StartPreservesValid(s: State)
    requires Valid(s)
    ensures Valid(Start(s))
  {
  }

  lemma StopPreservesValid(s: State)
    requires Valid(s)
    ensures Valid(Stop(s))
  {
  }

  lemma ResetPreservesValid(s: State)
    ensures Valid(Reset(s))
  {
  }

  /** In a valid state the step count is the floor of distance over stride. */
  lemma ValidStepsAreFloor(s: State)
    requires Valid(s)
    ensures s.steps >= 0
    ensures s.steps == (s.totalDistance / StepMeters).Floor
  {
  }

  /** After a later tick the step count is recomputed from the new total. */
  lemma LaterTickSteps(s: State, coord: Coord, now: real, dist: Distance)
    requires Valid(s) && s.prevCoord.Some?
    requires NonNegative(dist)
    ensures Tick(s, coord, now, dist).steps == StepsFor(s.totalDistance + dist(s.prevCoord.value, coord))
  {
  }

  /** The stored speed of a later tick, from the previous sample's time. */
  lemma LaterTickSpeed(s: State, coord: Coord, now: real, dist: Distance)
    requires s.prevCoord.Some? && s.prevTime.Some?
    ensures var r := Tick(s, coord, now, dist);
      var meters := dist(s.prevCoord.value, coord);
      && (s.prevTime.value != 0.0 && now > s.prevTime.value ==> r.speed * (now - s.prevTime.value) == meters)
      && (s.prevTime.value != 0.0 && now <= s.prevTime.value ==> r.speed == 0.0)
      && (s.prevTime.value == 0.0 ==> r.speed == meters)
  {
  }

  /** Distance and steps never go down across a tick. */
  lemma TickMonotone(s: State, coord: Coord, now: real, dist: Distance)
    requires Valid(s)
    requires NonNegative(dist)
    ensures Tick(s, coord, now, dist).totalDistance >= s.totalDistance
    ensures Tick(s, coord, now, dist).steps >= s.steps
  {
  }

  /** Stopping twice is stopping once. */
  lemma StopIdempotent(s: State)
    ensures Stop(Stop(s)) == Stop(s)
  {
  }

  /** Starting twice is starting once. */
  lemma StartIdempotent(s: State)
    ensures Start(Start(s)) == Start(s)
  {
  }

  /** Stop followed by Start always gives the freshly constructed state. */
  lemma StopThenStartIsInit(s: State)
    ensures Start(Stop(s)) == Init()
  {
  }

  /** Reset is idempotent and does not interact with stopping. */
  lemma ResetIdempotent(s: State)
    ensures Reset(Reset(s)) == Reset(s)
    ensures Stop(Reset(s)) == Reset(Stop(s))
  {
  }

  /** Resetting a running tracker gives the freshly constructed state. */
  lemma ResetWhileRunningIsInit(s: State)
    requires s.active
    ensures Reset(s) == Init()
  {
  }
}
