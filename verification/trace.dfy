/**
 A run of timer polls: the samples fed to the tracker one tick at a time, and
 what the accumulated state says about the whole path walked.
 */
module Trace {
  import opened Optional
  import opened Geo
  import opened Tracker

  /** One poll's input: the position read and the clock reading. */
  datatype Sample = Sample(coord: Coord, time: real)

  /** The positions of a run, in order. */
  function Coords(samples: seq<Sample>): (cs: seq<Coord>)
    ensures |cs| == |samples|
    ensures forall i :: 0 <= i < |samples| ==> cs[i] == samples[i].coord
  {
    if |samples| == 0 then [] else Coords(samples[..|samples| - 1]) + [samples[|samples| - 1].coord]
  }

  /** The state after ticking once per sample, in order. */
  function Run(s: State, samples: seq<Sample>, dist: Distance): State
  {
    if |samples| == 0 then s
    else
      var last := samples[|samples| - 1];
      Tick(Run(s, samples[..|samples| - 1], dist), last.coord, last.time, dist)
  }

  /** A run keeps the invariant and never changes the timer flag. */
  lemma {:induction false} RunPreservesValid(s: State, samples: seq<Sample>, dist: Distance)
    requires Valid(s)
    requires NonNegative(dist)
    ensures Valid(Run(s, samples, dist))
    ensures Run(s, samples, dist).active == s.active
  {
    if |samples| > 0 {
      var last := samples[|samples| - 1];
      var mid := Run(s, samples[..|samples| - 1], dist);
      RunPreservesValid(s, samples[..|samples| - 1], dist);
      TickPreservesValid(mid, last.coord, last.time, dist);
    }
  }

  /** After a non-empty run the previous sample is the last one fed. */
  lemma RunRemembersLast(s: State, samples: seq<Sample>, dist: Distance)
    requires |samples| > 0
    ensures Run(s, samples, dist).prevCoord == Some(samples[|samples| - 1].coord)
    ensures Run(s, samples, dist).prevTime == Some(samples[|samples| - 1].time)
  {
  }

  /**
   Started with no previous sample, a run adds exactly the length of the path
   through its positions: the first tick adds nothing, each later tick adds
   the distance from the sample before it.
   */
  lemma {:induction false} RunAddsPathLength(s: State, samples: seq<Sample>, dist: Distance)
    requires s.prevCoord.None?
    requires NonNegative(dist)
    ensures Run(s, samples, dist).totalDistance == s.totalDistance + PathLength(Coords(samples), dist)
  {
    var n := |samples|;
    if n > 0 {
      var front := samples[..n - 1];
      var mid := Run(s, front, dist);
      RunAddsPathLength(s, front, dist);
      assert Coords(samples)[..n - 1] == Coords(front);
      if n > 1 {
        RunRemembersLast(s, front, dist);
        assert mid.prevCoord == Some(Coords(samples)[n - 2]);
      }
    }
  }

  /** Across a run, distance and steps never go down. */
  lemma {:induction false} RunMonotone(s: State, samples: seq<Sample>, dist: Distance)
    requires Valid(s)
    requires NonNegative(dist)
    ensures Run(s, samples, dist).totalDistance >= s.totalDistance
    ensures Run(s, samples, dist).steps >= s.steps
  {
    if |samples| > 0 {
      var last := samples[|samples| - 1];
      var mid := Run(s, samples[..|samples| - 1], dist);
      RunMonotone(s, samples[..|samples| - 1], dist);
      RunPreservesValid(s, samples[..|samples| - 1], dist);
      TickMonotone(mid, last.coord, last.time, dist);
    }
  }

  /**
   A session from construction (or from Start after a stop, or a reset while
   running): the distance is the path length and the steps are its whole
   strides.
   */
  lemma {:induction false} SessionTotals(samples: seq<Sample>, dist: Distance)
    requires NonNegative(dist)
    ensures Run(Init(), samples, dist).totalDistance == PathLength(Coords(samples), dist)
    ensures Run(Init(), samples, dist).steps == (PathLength(Coords(samples), dist) / StepMeters).Floor
    ensures Run(Init(), samples, dist).active
  {
    RunAddsPathLength(Init(), samples, dist);
    RunPreservesValid(Init(), samples, dist);
    ValidStepsAreFloor(Run(Init(), samples, dist));
  }

  /**
   Two samples one second apart whose distance is 1113.2 m (0.01 degrees of
   longitude at the equator): 1391 steps and a stored speed of 1113.2 m/s.
   */
  lemma EquatorScenario()
    ensures var dist: Distance := (a: Coord, b: Coord) => if a == b then 0.0 else 1113.2;
      var r := Run(Init(), [Sample(Coord(0.0, 0.0), 100.0), Sample(Coord(0.0, 0.01), 101.0)], dist);
      r.totalDistance == 1113.2 && r.steps == 1391 && r.speed == 1113.2
  {
    var dist: Distance := (a: Coord, b: Coord) => if a == b then 0.0 else 1113.2;
    var s1 := Tick(Init(), Coord(0.0, 0.0), 100.0, dist);
    var samples := [Sample(Coord(0.0, 0.0), 100.0), Sample(Coord(0.0, 0.01), 101.0)];
    assert samples[..1] == [Sample(Coord(0.0, 0.0), 100.0)];
    assert samples[..1][..0] == [];
    assert Run(Init(), samples[..1], dist) == s1;
  }
}
