/**
 What the tracker shows and what it saves: the readout `update_ui` computes
 from a tracker state (the dashboard labels are refreshed with it after every
 poll and every reset), and the record the Save button appends to the records
 table.
 */
module Session {
  import Geo
  import opened Tracker

  /** The three dashboard numbers: kilometers, steps, km/h (before text formatting). */
  datatype Readout = Readout(km: real, steps: int, speedKmh: real)

  /** A row of the records table; `dt` is the wall-clock timestamp text, taken as given. */
  datatype Record = Record(dt: string, distanceKm: real, speedKmh: real, steps: int)

  /** The outcome of a save: the tracker afterwards and the records table afterwards. */
  datatype SaveOutcome = SaveOutcome(tracker: State, log: seq<Record>)

  /** Meters per kilometer and km/h per m/s. */
  const MetersPerKm: real := 1000.0
  const KmhPerMs: real := 3.6

  /** The readout `update_ui` computes from a tracker state and writes to the labels. */
  function Display(s: State): (d: Readout)
    ensures d.km * MetersPerKm == s.totalDistance
    ensures d.speedKmh / KmhPerMs == s.speed
    ensures d.steps == s.steps
    ensures Valid(s) ==> d.km >= 0.0 && d.speedKmh >= 0.0 && d.steps >= 0
  {
    Readout(s.totalDistance / MetersPerKm, Trunc(s.steps as real), s.speed * KmhPerMs)
  }

  /** The record a save writes: distance in km, speed in km/h, the step count, stamped `dt`. */
  function Snapshot(s: State, dt: string): (rec: Record)
    ensures rec.dt == dt
    ensures rec.distanceKm * MetersPerKm == s.totalDistance
    ensures rec.speedKmh / KmhPerMs == s.speed
    ensures rec.steps == s.steps
    ensures Valid(s) ==>
      && rec.distanceKm >= 0.0 && rec.speedKmh >= 0.0 && rec.steps >= 0
      && rec.steps as real * StepMeters <= rec.distanceKm * MetersPerKm < (rec.steps + 1) as real * StepMeters
  {
    Record(dt, s.totalDistance / MetersPerKm, s.speed * KmhPerMs, Trunc(s.steps as real))
  }

  /**
   The Save button: append the snapshot to the records table. The live
   tracker is only read.
   */
  function Save(s: State, dt: string, log: seq<Record>): (r: SaveOutcome)
    ensures r.tracker == s
    ensures |r.log| == |log| + 1
    ensures r.log[..|log|] == log
    ensures r.log[|log|].distanceKm * MetersPerKm == s.totalDistance
    ensures r.log[|log|].speedKmh / KmhPerMs == s.speed
    ensures r.log[|log|].steps == s.steps && r.log[|log|].dt == dt
  {
    SaveOutcome(s, log + [Snapshot(s, dt)])
  }

  /** The saved record holds exactly the numbers of the readout of the same state. */
  lemma SaveMatchesReadout(s: State, dt: string, log: seq<Record>)
    ensures var rec := Save(s, dt, log).log[|log|];
      var d := Display(s);
      rec.distanceKm == d.km && rec.speedKmh == d.speedKmh && rec.steps == d.steps
  {
  }

  /**
   Start on a stopped tracker does not refresh the labels itself; the first
   poll after it does, and then they read all zeros.
   */
  lemma FirstPollAfterStartShowsZero(s: State, coord: Geo.Coord, now: real, dist: Geo.Distance)
    requires !s.active
    ensures Display(Tick(Start(s), coord, now, dist)) == Readout(0.0, 0, 0.0)
  {
  }

  /** Stopping freezes the readout: it reads as it did before the stop. */
  lemma StopFreezesDisplay(s: State)
    ensures Display(Stop(s)) == Display(s)
  {
  }
}
