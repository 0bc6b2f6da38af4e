/**
 The application as a whole: every button press and timer poll as an event,
 applied in order to the tracker, the dashboard labels and the records table.
 */
module App {
  import opened Optional
  import opened Geo
  import opened Tracker
  import opened Session

  /** What can happen to the application: a poll, or one of the four buttons. */
  datatype Event =
    | Poll(coord: Coord, now: real)
    | StartPressed
    | StopPressed
    | ResetConfirmed
    | SavePressed(dt: string)

  /**
   The whole application: the tracker, the numbers the dashboard labels show
   (as last refreshed), and the records table.
   */
  datatype AppState = AppState(tracker: State, labels: Readout, log: seq<Record>)

  /**
   Start-up: a running tracker, labels built reading zero, and the records
   table holding the rows `stored` that earlier runs left in the database file.
   */
  function Boot(stored: seq<Record>): (app: AppState)
    ensures app.tracker == Init()
    ensures app.labels == Display(app.tracker)
    ensures app.log == stored
  {
    AppState(Init(), Readout(0.0, 0, 0.0), stored)
  }

  /**
   The effect of one event. A poll and a reset refresh the labels from the new
   tracker state; Start, Stop and Save leave the labels as they were.
   */
  function Step(app: AppState, e: Event, dist: Distance): (r: AppState)
    ensures e.Poll? || e.ResetConfirmed? ==> r.labels == Display(r.tracker)
    ensures !(e.Poll? || e.ResetConfirmed?) ==> r.labels == app.labels
    ensures e.SavePressed? ==> r.log == Save(app.tracker, e.dt, app.log).log && r.tracker == app.tracker
    ensures !e.SavePressed? ==> r.log == app.log
  {
    match e
    case Poll(coord, now) =>
      var t := Tick(app.tracker, coord, now, dist);
      app.(tracker := t, labels := Display(t))
    case StartPressed => app.(tracker := Start(app.tracker))
    case StopPressed => app.(tracker := Stop(app.tracker))
    case ResetConfirmed =>
      var t := Reset(app.tracker);
      app.(tracker := t, labels := Display(t))
    case SavePressed(dt) => app.(log := Save(app.tracker, dt, app.log).log)
  }

  /** The application after a sequence of events, applied left to right. */
  function Replay(app: AppState, events: seq<Event>, dist: Distance): AppState
  {
    if |events| == 0 then app
    else Step(Replay(app, events[..|events| - 1], dist), events[|events| - 1], dist)
  }

  /**
   The labels show the tracker's own readout, except while the tracker holds a
   session that Start has just zeroed and no poll has refreshed yet.
   */
  predicate LabelsCurrent(app: AppState) {
    app.labels == Display(app.tracker) || app.tracker == Zeroed(app.tracker.active)
  }

  /**
   Every state reachable from start-up satisfies the tracker invariant, its
   labels lag the tracker only in a freshly zeroed session, the rows stored
   before start-up are still there, and no more rows were added than events
   happened.
   */
  lemma {:induction false} ReachableValid(stored: seq<Record>, events: seq<Event>, dist: Distance)
    requires NonNegative(dist)
    ensures Valid(Replay(Boot(stored), events, dist).tracker)
    ensures LabelsCurrent(Replay(Boot(stored), events, dist))
    ensures |stored| <= |Replay(Boot(stored), events, dist).log| <= |stored| + |events|
    ensures Replay(Boot(stored), events, dist).log[..|stored|] == stored
  {
    ReplayAppendsOnly(Boot(stored), events, dist);
    if |events| > 0 {
      var front := events[..|events| - 1];
      ReachableValid(stored, front, dist);
      var mid := Replay(Boot(stored), front, dist);
      match events[|events| - 1]
      case Poll(coord, now) => TickPreservesValid(mid.tracker, coord, now, dist);
      case StartPressed => StartPreservesValid(mid.tracker);
      case StopPressed => StopPreservesValid(mid.tracker);
      case ResetConfirmed => ResetPreservesValid(mid.tracker);
      case SavePressed(dt) =>
    }
  }

  /**
   Unless Start has just zeroed the tracker and no poll has refreshed the
   labels since, a save writes exactly the numbers the labels show.
   */
  lemma SaveMatchesLabels(app: AppState, dt: string, dist: Distance)
    requires LabelsCurrent(app)
    requires app.tracker != Zeroed(app.tracker.active)
    ensures var rec := Step(app, SavePressed(dt), dist).log[|app.log|];
      rec.distanceKm == app.labels.km && rec.speedKmh == app.labels.speedKmh && rec.steps == app.labels.steps
  {
  }

  /**
   Start on a stopped tracker zeroes the tracker but not the labels: a save
   right after it writes an all-zero record while the labels keep what they
   showed before.
   */
  lemma StartLeavesStaleLabels(app: AppState, dt: string, dist: Distance)
    requires !app.tracker.active
    ensures var r := Step(Step(app, StartPressed, dist), SavePressed(dt), dist);
      && r.labels == app.labels
      && r.log[|app.log|] == Record(dt, 0.0, 0.0, 0)
  {
  }

  /**
   From start-up: poll twice 8 m apart, Stop, Start, Save. The labels still
   read 10 steps and 0.008 km, the one record this run saves reads 0 steps
   and 0 km.
   */
  lemma StaleLabelsScenario(stored: seq<Record>)
    ensures var dist: Distance := (a: Coord, b: Coord) => if a == b then 0.0 else 8.0;
      var events := [Poll(Coord(0.0, 0.0), 10.0), Poll(Coord(0.0, 1.0), 11.0), StopPressed, StartPressed, SavePressed("t")];
      var r := Replay(Boot(stored), events, dist);
      && r.labels == Readout(0.008, 10, 28.8)
      && r.log == stored + [Record("t", 0.0, 0.0, 0)]
  {
    var dist: Distance := (a: Coord, b: Coord) => if a == b then 0.0 else 8.0;
    var events := [Poll(Coord(0.0, 0.0), 10.0), Poll(Coord(0.0, 1.0), 11.0), StopPressed, StartPressed, SavePressed("t")];
    var a1 := Step(Boot(stored), events[0], dist);
    var a2 := Step(a1, events[1], dist);
    assert a2.tracker.totalDistance == 8.0;
    assert a2.labels == Readout(0.008, 10, 28.8);
    var a3 := Step(a2, events[2], dist);
    var a4 := Step(a3, events[3], dist);
    assert events[..1][..0] == [];
    assert events[..2][..1] == events[..1];
    assert events[..3][..2] == events[..2];
    assert events[..4][..3] == events[..3];
    assert Replay(Boot(stored), events[..1], dist) == a1;
    assert Replay(Boot(stored), events[..2], dist) == a2;
    assert Replay(Boot(stored), events[..3], dist) == a3;
    assert Replay(Boot(stored), events[..4], dist) == a4;
  }

  /** Later events never alter records already saved. */
  lemma {:induction false} ReplayAppendsOnly(app: AppState, events: seq<Event>, dist: Distance)
    ensures |Replay(app, events, dist).log| >= |app.log|
    ensures Replay(app, events, dist).log[..|app.log|] == app.log
  {
    if |events| > 0 {
      var front := events[..|events| - 1];
      ReplayAppendsOnly(app, front, dist);
      var mid := Replay(app, front, dist);
      assert mid.log[..|app.log|] == app.log;
      var next := Step(mid, events[|events| - 1], dist);
      assert next.log[..|mid.log|] == mid.log;
      assert next.log[..|app.log|] == mid.log[..|app.log|];
    }
  }
}
