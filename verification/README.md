# Step counter: live tracking state

A Dafny model of the live tracking state of the Step-Counter desktop
application (`StepSpeedApp` in `main.py`). Once the Qt widgets are set aside,
the application is a small accumulator driven by a one-second timer: every
poll reads a GPS position, adds the distance walked since the previous
position, stores a speed, and converts the distance into an estimated number
of steps at 0.8 m per stride. Four buttons act on it: Start, Stop, Reset and
Save Record.

The model is functional. `Tracker.State` is an immutable record of the
tracker's fields. Each operation is a pure function from state to state:

- `Tick` is one timer poll.
- `Start`, `Stop` and `Reset` are the buttons.
- `Session.Save` appends the saved record to the records table. The table
  lives in the database file, so at start-up it already holds the rows earlier
  runs saved (`App.Boot` takes them as a parameter).

The invariant `Tracker.Valid` is proved to hold in every state reachable from
start-up. It says:

- the previous position and the previous time are present together;
- distance and speed are non-negative;
- the step count is the number of whole strides in the distance.

Files:

- `optional.dfy`: the `Option` type.
- `geo.dfy`: coordinates, the abstract distance, and the path length used as a
  reference.
- `tracker.dfy`: the state, the transitions and their invariant.
- `session.dfy`: the dashboard readout and the saved record.
- `trace.dfy`: runs of polls compared with the path length.
- `app.dfy`: every event of the application replayed from start-up, with the
  dashboard labels as they were last refreshed.

Inputs that are not computed:

- The clock (`time.time()`) is a `real` parameter `now`.
- The GPS position is a `Coord` parameter.
- The haversine distance is a function parameter `dist`. The properties that
  need it assume only `Geo.NonNegative(dist)`.
- The save timestamp is an opaque string.

Dafny's `real` is exact, so the 0.8 stride, `/ 1000` and `* 3.6` are exact
here. Python's `int(...)` truncates toward zero; it is written out as
`Tracker.Trunc` and proved to be the floor on the non-negative distances the
tracker sees.

Behaviour of the code that the model keeps as written:

- The tracker starts running. The timer is started in the constructor
  (`main.py:41-44`), so `Init` is active with zeroed accumulators, not idle.
- The poll never checks the timer (`main.py:154-171`). `Tick` applies to a
  stopped tracker as well. The repeating timer does not call it while it is
  stopped, but the one-shot poll scheduled 100 ms after start-up
  (`main.py:46`) runs even if Stop was pressed before it.
- The dashboard labels are refreshed only after a poll and after a reset
  (`main.py:171`, `main.py:200`). Start does not refresh them, so between
  Start and the next poll they still show the previous session while the
  tracker is zeroed. A save in that window writes zeros. `App.AppState`
  keeps the labels as a separate field to model this.
- Speed is a stored field (`current_speed_m_s`), not derived when read. It is
  `meters / elapsed` for the last tick, or 0 when the clock did not advance,
  and 0 after the first tick of a session. While stopped it keeps its value,
  except that the one-shot start-up poll can still update it after an early
  Stop.
- When the previous time is falsy in Python (0.0 included), the elapsed time
  is taken as 1.0 second (`main.py:164`).

## Model

| member | source | states |
|---|---|---|
| Tracker.Init | main.py:27-44 | the constructed tracker is running, has no previous sample, has zero distance, speed and steps, and satisfies the invariant |
| Tracker.Trunc | main.py:170 | Python `int()` on a float: for a non-negative input the result is the largest integer not above it; for a negative input, the smallest integer not below it |
| Tracker.StepsFor | main.py:170 | the step estimate for a distance is a non-negative count of whole 0.8 m strides: that many strides fit, one more does not |
| Tracker.StepsForIsFloor | main.py:170 | the truncated step estimate equals floor(distance / 0.8) for every non-negative distance |
| Tracker.Elapsed | main.py:164 | elapsed time is `now` minus the previous time when that time is truthy, and exactly 1.0 when it is absent or 0.0 |
| Tracker.TickSpeed | main.py:165 | with positive elapsed time, speed times elapsed gives back the meters; otherwise speed is 0; speed is never negative for non-negative meters |
| Tracker.Tick | main.py:154-171 | a poll leaves the timer flag alone and always records the new position and time; a first poll sets speed to 0 and keeps distance and steps; a later poll adds exactly the distance from the previous position |
| Tracker.Start | main.py:180-186 | Start leaves the timer running; on a running tracker it changes nothing; on a stopped one it clears the previous sample and zeroes distance, speed and steps |
| Tracker.Stop | main.py:188-190 | Stop leaves the timer stopped and every other field unchanged |
| Tracker.Reset | main.py:192-200 | a confirmed reset clears the previous sample and zeroes distance, speed and steps, and keeps the timer flag as it was |
| Tracker.TickPreservesValid | main.py:158-170 | a poll with a non-negative distance keeps the invariant: position and time stay paired, distance and speed stay non-negative, steps stay whole strides of the distance |
| Tracker.StartPreservesValid | main.py:180-186 | Start keeps the invariant |
| Tracker.StopPreservesValid | main.py:188-190 | Stop keeps the invariant |
| Tracker.ResetPreservesValid | main.py:195-199 | the state after a reset satisfies the invariant, whatever the state before |
| Tracker.ValidStepsAreFloor | main.py:29-31 | in a state that keeps the invariant, the step count is non-negative and equals floor(distance / 0.8) |
| Tracker.LaterTickSteps | main.py:166-170 | after a later poll the step count is recomputed from the new total distance |
| Tracker.LaterTickSpeed | main.py:163-167 | the stored speed of a later poll times the time since the previous poll gives the distance; the speed is 0 when the clock did not advance; the speed equals the meters when the previous time was 0.0 |
| Tracker.TickMonotone | main.py:162-170 | in a valid state, a poll never decreases the distance or the step count |
| Tracker.StopIdempotent | main.py:188-190 | pressing Stop twice gives the same state as pressing it once |
| Tracker.StartIdempotent | main.py:180-186 | pressing Start twice gives the same state as pressing it once |
| Tracker.StopThenStartIsInit | main.py:180-190 | Stop then Start always gives the freshly constructed tracker |
| Tracker.ResetIdempotent | main.py:192-199 | resetting twice is resetting once, and Reset commutes with Stop |
| Tracker.ResetWhileRunningIsInit | main.py:192-199 | resetting a running tracker gives the freshly constructed tracker: it keeps running with zeroed accumulators |
| Session.Display | main.py:173-178 | the readout `update_ui` writes to the labels gives the distance in km (times 1000 gives the meters), the speed in km/h (divided by 3.6 gives the m/s), and the step count; all are non-negative in a valid state |
| Session.Snapshot | main.py:202-205 | the saved record carries the timestamp, the distance in km, the speed in km/h and the steps; in a valid state they are non-negative and the steps are the whole strides in the saved distance |
| Session.Save | main.py:202-206 | a save leaves the tracker unchanged, keeps every earlier record, and appends exactly one record holding the tracker's distance, speed and steps |
| Session.SaveMatchesReadout | main.py:173-205 | the saved record holds the same distance, speed and steps as the readout `update_ui` computes from the same tracker state |
| Session.FirstPollAfterStartShowsZero | main.py:154-186 | after Start on a stopped tracker, the readout refreshed by the first poll is 0 km, 0 steps, 0 km/h |
| Session.StopFreezesDisplay | main.py:188-190 | stopping does not change the readout of the tracker |
| Trace.RunPreservesValid | main.py:154-171 | any sequence of polls from a valid state keeps the invariant and leaves the timer flag alone |
| Trace.RunRemembersLast | main.py:168-169 | after a non-empty run of polls, the previous sample is the last position and time polled |
| Trace.RunAddsPathLength | main.py:158-166 | from a tracker with no previous sample, a run of polls adds exactly the sum of the distances between consecutive positions |
| Trace.RunMonotone | main.py:166-170 | across any run of polls from a valid state, distance and step count never decrease |
| Trace.SessionTotals | main.py:154-171 | from start-up, the distance is the path length and the steps are floor(path length / 0.8), and the tracker is still running |
| Trace.EquatorScenario | main.py:154-170 | two polls one second apart with 1113.2 m between them give 1113.2 m, 1391 steps and 1113.2 m/s |
| App.Boot | main.py:26-89 | at start-up the tracker is the constructed one, the labels are built showing its all-zero readout, and the records table holds exactly the rows already stored in the database file |
| App.Step | main.py:148-206 | a poll and a confirmed reset refresh the labels from the new tracker state; Start, Stop and Save leave the labels as they were; a save appends the snapshot record and leaves the tracker alone; every other event leaves the records unchanged |
| App.ReachableValid | main.py:148-206 | every state reachable from start-up by polls and button presses satisfies the invariant; its labels show the tracker's readout unless the tracker holds a freshly zeroed session not yet polled; the rows stored before start-up are kept as a prefix of the table; there are never more new records than events |
| App.SaveMatchesLabels | main.py:171-206 | when the labels are current and the tracker is not a freshly zeroed, unpolled session, a save writes exactly the distance, speed and steps the labels show |
| App.StartLeavesStaleLabels | main.py:180-206 | for every stopped tracker, Start followed by Save leaves the labels as they were and appends an all-zero record |
| App.StaleLabelsScenario | main.py:154-206 | from start-up, two polls 8 m and 1 s apart, Stop, Start and Save leave the labels at 0.008 km, 10 steps, 28.8 km/h while the one record this run saves, appended after the rows already stored, reads 0 km, 0 km/h, 0 steps |
| App.ReplayAppendsOnly | database.py:19-22 | later events never change or remove records already saved |

## Left out

- The Qt user interface is not modelled: window, layout, styling, the label widgets (the numbers they show are modelled in `App.AppState`), the records table widget and `closeEvent`. The confirmation dialog in `on_reset` is also left out; only the confirmed path is modelled.
- Timer scheduling is not modelled. `QTimer`, its one-second interval and the initial `singleShot` poll are host event-loop plumbing. The timer is the `active` flag, and the poll is an explicit `Tick`.
- The clock `time.time()` and `datetime.now().isoformat(...)` are parameters, not computed.
- Text formatting of the displayed and listed numbers (`:.2f`, `:.1f`, `:.3f`) is presentation and is not modelled.
- `haversine` in `gps_tracker.py` is floating-point trigonometry. It is an abstract distance function, assumed non-negative. Its symmetry and zero-on-equal-points are not modelled.
- `GPSSimulator` in `gps_tracker.py` is random movement and is not modelled. Positions are inputs.
- `Session.Save` always appends: a failure raised by `insert_record` inside sqlite3 (`database.py:19-22`), which would abort `on_save` with nothing saved, is not modelled.
- `database.py` is not part of this model beyond an append-only list of saved records. The SQL table, `fetch_records` with its newest-first limit of 100, and `close` run inside sqlite3. The History refresh (`records` in `main.py`) only copies the fetched rows into the table widget and is not modelled.
- Floating-point rounding in `total / 0.8`, `/ 1000` and `* 3.6` is not modelled. Arithmetic is exact over `real`.
