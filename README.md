# Landing-decision controller of the global planner, in Dafny

This project models the waypoint generator of the global planner
(`global_planner/src/nodes/waypoint_generator.cpp`): the four-state machine
GOTO → ALTITUDE_CHANGE → LOITER → LAND that brings a drone over a landing
waypoint, decides from a smoothed terrain grid whether the spot below is
landable, and otherwise explores a spiral of alternative spots.

Files and modules:

- `state_table.dfy` (`StateTable`): the states, the transitions a handler
  returns, the `chooseNextState` table, one step of the state machine driver,
  and `toString`.
- `setpoints.dfy` (`Setpoints`): positions and setpoints. An axis the source
  leaves unconstrained with NaN is `None` here.
- `landing_filter.dfy` (`LandingFilter`): the square smoothing window and its
  flat, row-major buffer index. It also holds the exponential filter step, the
  in-place nested loop that folds the window into the buffer, and the vote
  loop that decides "can land".
- `exploration.dfy` (`Exploration`): the pattern index and ring factor of the
  exploration spiral, the offset of a ring, and the goal built around the
  anchor.
- `controller.dfy` (`Controller`): the class `WaypointGenerator`. Its fields
  are the driver state, the per-cycle inputs, the parameters, the controller
  context and the hysteresis buffer. Its methods are `CalculateWaypoint`,
  `UpdateGPState`, `ChooseNextState`, `IterateOnce` (the driver step),
  `RunCurrentState` and the four state handlers `RunGoTo`,
  `RunAltitudeChange`, `RunLoiter` and `RunLand`. The LOITER handler is split
  into three phases: `FreezeLoiterPose`, `TakeDecision` and `ExploreStep`.
- `arithmetic.dfy` (`Arithmetic`): quotient and remainder facts used by the
  index proofs.

The object invariant `Valid()` says four things. The exploration pattern is
non-empty. The pattern index is -1 or a valid position. The buffer has
(2s+1)² entries unless it was never allocated or a new smoothing size is
pending. The recorded previous state fits the current one: in LOITER it is
never LOITER, and in ALTITUDE_CHANGE it is always GOTO
(`StateTable.EntryConsistent`). Each handler states the new context as "the
old context with these components replaced". The field-level `modifies`
clauses say that nothing else changes.

The driver of the state machine (`usm::StateMachine`) is not part of this
model. The model assumes two things about it. First, `iterateOnce` runs the
current state's handler. Second, a Repeat result keeps the state without
consulting the table, and every other result goes through `chooseNextState`.
`chooseNextState` records the state being left and maps every pair that its
table does not list to the table's default, GOTO. That covers Error from the
reset path, every transition out of LAND, and Next2 out of ALTITUDE_CHANGE.

Points where the code is easy to misread:

- A "cannot land" decision in LOITER returns Next2, and the table sends
  (LOITER, Next2) to GOTO (line 74), not back to LOITER.
- The decision is due when the grid's sequence number differs from the one
  recorded on entry by strictly more than 20 (line 171). It counts grid
  messages, not LOITER cycles.
- The exploration offset is computed before the pattern index and the ring
  factor advance (lines 197-203). So the step that wraps to pattern point 0
  still uses the old factor (`Exploration.WrapUsesOldFactor`).
- The step in the vote loop that sets `can_land_` back to true is what makes
  the loop a fresh AND. Over a non-empty buffer the loop computes exactly
  "every cell exceeds the threshold", whatever `can_land_` held before
  (`LandingFilter.DecisionIsFreshAnd`). Without that step the result would
  also depend on the old `can_land_`. That value can be false on entry: a
  "cannot land" decision leaves it false, and `runGoTo` clears only
  `decision_taken_` (line 100).
- `prev_slp_state_` is written only by `chooseNextState` (line 68), which the
  driver calls only on a transition. So in LOITER it is always GOTO or
  ALTITUDE_CHANGE, and in ALTITUDE_CHANGE it is always GOTO. The tests on
  lines 126 and 152 therefore always pass: the yaw setpoint in
  ALTITUDE_CHANGE and the loiter pose in LOITER are taken afresh on every
  cycle, not only on entry (`Controller.WaypointGenerator.RunCurrentState`).
- `updateGPState` resizes the buffer only when a new size is pending or the
  buffer is empty. The `reserve` call on line 56 changes capacity, not size,
  so it is not modelled.

## Model

| member | source | states |
|---|---|---|
| `StateTable.NextState` | global_planner/src/nodes/waypoint_generator.cpp:67-76 | the table in both directions: the next state is ALTITUDE_CHANGE exactly for (GOTO, Next1), LOITER exactly for (GOTO, Next2) or (ALTITUDE_CHANGE, Next1), LAND exactly for (LOITER, Next1), and GOTO for everything else |
| `StateTable.DriverStep` | global_planner/src/nodes/waypoint_generator.cpp:69-76 | one driver step: an Error always leads to GOTO, LAND is left exactly when the handler does not return Repeat, and a state change always comes from a non-Repeat result |
| `StateTable.EntryConsistentStep` | global_planner/src/nodes/waypoint_generator.cpp:67-76 | a driver step that records the state left on every transition, and nothing on Repeat, keeps LOITER's recorded previous state different from LOITER and ALTITUDE_CHANGE's equal to GOTO |
| `StateTable.ToString` | global_planner/src/nodes/waypoint_generator.cpp:11-28 | every state has a non-empty name, never the "unknown" fallback |
| `LandingFilter.WindowIndex` | global_planner/src/nodes/waypoint_generator.cpp:160-161 | a cell of the window around the grid centre maps into the buffer, in [0, (2s+1)²) |
| `LandingFilter.WindowIndexInjective` | global_planner/src/nodes/waypoint_generator.cpp:158-161 | the buffer index is one-to-one on the window: the cell's row and column come back from it |
| `LandingFilter.WindowIndexOnto` | global_planner/src/nodes/waypoint_generator.cpp:158-161 | the buffer index is onto: every buffer entry is the index of exactly one window cell, and that cell lies in the window |
| `LandingFilter.WindowCellOfCell` | global_planner/src/nodes/waypoint_generator.cpp:157-162 | the grid value associated with buffer entry WindowIndex(i, j) is the value of cell (i, j) |
| `LandingFilter.Smooth` | global_planner/src/nodes/waypoint_generator.cpp:164 | a filter step moves the value towards the raw cell: its distance to the raw value is beta times the previous distance |
| `LandingFilter.SmoothBetween` | global_planner/src/nodes/waypoint_generator.cpp:164 | with beta in [0, 1], a filter step lands between the previous value and the raw value |
| `LandingFilter.SmoothIterateGap` | global_planner/src/nodes/waypoint_generator.cpp:164 | after n cycles over a constant raw value, the distance to it is exactly beta^n times the initial distance |
| `LandingFilter.SmoothConverges` | global_planner/src/nodes/waypoint_generator.cpp:164 | with beta in [0, 1] and a constant raw value, the smoothed value stays between its start and the raw value, and no cycle moves it farther away |
| `LandingFilter.DecisionFold` | global_planner/src/nodes/waypoint_generator.cpp:173-183 | the vote loop as written, after n iterations: the land counter is at most n, and it equals n exactly when all n cells exceed the threshold |
| `LandingFilter.DecisionFoldPrefix` | global_planner/src/nodes/waypoint_generator.cpp:173-183 | after n iterations of the vote loop as written, `can_land_` is the AND of the old value with those votes, or true once all votes of the whole buffer are in favour |
| `LandingFilter.DecisionIsFreshAnd` | global_planner/src/nodes/waypoint_generator.cpp:174-183 | over a non-empty buffer, the vote loop's result is "every cell exceeds the threshold", whatever `can_land_` held before |
| `LandingFilter.ZeroFill` | global_planner/src/nodes/waypoint_generator.cpp:109 | `std::fill` with 0: every buffer entry is 0 afterwards |
| `LandingFilter.SmoothRow` | global_planner/src/nodes/waypoint_generator.cpp:159-166 | one pass of the inner loop smooths exactly the buffer entries of one window row, each with its own grid cell, and leaves every other entry unchanged |
| `LandingFilter.SmoothWindow` | global_planner/src/nodes/waypoint_generator.cpp:157-168 | the nested loop smooths every buffer entry exactly once, each with the grid cell of the window it stands for |
| `LandingFilter.DecideCanLand` | global_planner/src/nodes/waypoint_generator.cpp:173-183 | the vote loop over a non-empty buffer returns "every entry exceeds the threshold"; over an empty buffer it returns the old `can_land_` |
| `Exploration.Advance` | global_planner/src/nodes/waypoint_generator.cpp:199-203 | the pattern index steps cyclically, (index + 1) mod size, always to a valid position, and the factor grows by exactly one precisely on the wrap |
| `Exploration.Steps` | global_planner/src/nodes/waypoint_generator.cpp:199-203 | after any number of steps from the reset values the index is -1 or valid, and valid after at least one step |
| `Exploration.StepsClosedForm` | global_planner/src/nodes/waypoint_generator.cpp:199-203 | after k >= 1 steps the index is (k - 1) mod size and the factor is 1 plus the number of completed laps |
| `Exploration.WrapUsesOldFactor` | global_planner/src/nodes/waypoint_generator.cpp:197-203 | the r-th wrap lands on pattern point 0 with factor r + 1 left behind, while the factor its goal is scaled by is still r |
| `Exploration.Offset` | global_planner/src/nodes/waypoint_generator.cpp:197-198 | the offset of the next exploration goal: zero for a window of half-width 0, and never negative when the spiral width, factor and cell size are not |
| `Exploration.OffsetGrowsWithFactor` | global_planner/src/nodes/waypoint_generator.cpp:197-198 | one more lap widens the offset by exactly 2 · spiral width · half-width · cell size, strictly when these are positive |
| `Exploration.ExplorationGoal` | global_planner/src/nodes/waypoint_generator.cpp:204-207 | the goal keeps the anchor's altitude and known axes and lies at horizontal distance offset times the length of the pattern point from the anchor |
| `Controller.WaypointGenerator.constructor` | global_planner/src/nodes/waypoint_generator.cpp:30-34 | the controller starts in GOTO with no pending reset, no buffer, no decision, `can_land_` true and exploration at its reset values |
| `Controller.WaypointGenerator.CalculateWaypoint` | global_planner/src/nodes/waypoint_generator.cpp:36-44 | one cycle keeps the invariant and leaves a buffer of the window's size with no size change pending; the result is Error exactly when a reset was pending, and the reset flag is clear afterwards; the new state is the driver step of the old state; LAND is never left without a reset |
| `Controller.WaypointGenerator.UpdateGPState` | global_planner/src/nodes/waypoint_generator.cpp:46-65 | a pending size change or an empty buffer gives a fresh, all-zero buffer of (2s+1)² entries and clears the flag; a non-landing waypoint zeroes the buffer, clears the decision, sets `can_land_` and resets exploration to (-1, 1); a landing waypoint keeps the context and the buffer contents |
| `Controller.WaypointGenerator.ChooseNextState` | global_planner/src/nodes/waypoint_generator.cpp:67-76 | the previous state becomes the state being left, and the result is the table's entry |
| `Controller.WaypointGenerator.IterateOnce` | global_planner/src/nodes/waypoint_generator.cpp:38 | the driver step: the result is Error exactly on a pending reset, which is consumed with the context, the emission and the buffer unchanged, and the reset flag is clear afterwards; the new state is the driver step; the previous state changes exactly on a non-Repeat result; LAND is absorbing without a reset |
| `Controller.WaypointGenerator.RunCurrentState` | global_planner/src/nodes/waypoint_generator.cpp:78-97 | a pending reset is cleared and answered with Error while the context, the emission and the buffer stay unchanged; otherwise the result is never Error, GOTO returns Next1 and Next2 exactly under the same conditions as `RunGoTo`, ALTITUDE_CHANGE never returns Next2, LAND always returns Repeat, ALTITUDE_CHANGE sets the yaw setpoint to the current yaw and LOITER sets the loiter pose to the current pose on every cycle |
| `Controller.WaypointGenerator.RunGoTo` | global_planner/src/nodes/waypoint_generator.cpp:99-123 | clears the decision and zeroes the buffer; with exploration active it sets the radius to 0.5 and the yaw to the heading to the goal; it emits the goal tuple and refreshes the ground reference; it returns Next1 exactly when within radius, outside the vertical band and at a landing waypoint, and Next2 exactly when within radius, inside the band and at a landing waypoint (then recording the grid sequence number); otherwise Repeat |
| `Controller.WaypointGenerator.RunAltitudeChange` | global_planner/src/nodes/waypoint_generator.cpp:125-149 | sets the yaw setpoint to the current yaw unless the recorded previous state is ALTITUDE_CHANGE (which the driver never records there), drops the altitude target, climbs at the landing speed while closer to the ground reference than the loiter height and descends otherwise; it returns Next1 (recording the grid sequence number) exactly when within radius and band of a landing waypoint, and Repeat otherwise |
| `Controller.WaypointGenerator.RunLoiter` | global_planner/src/nodes/waypoint_generator.cpp:151-212 | sets the loiter pose to the current pose unless the recorded previous state is LOITER (which the driver never records there); smooths every buffer entry with its grid cell; takes the decision exactly when it is due, with `can_land_` equal to "every entry exceeds the threshold"; emits the loiter pose with no velocity; returns Next1 exactly on "can land", and Next2 exactly on "cannot land", after one exploration step; otherwise it returns Repeat with everything but the loiter pose and the decision unchanged |
| `Controller.WaypointGenerator.FreezeLoiterPose` | global_planner/src/nodes/waypoint_generator.cpp:152-155 | unless the recorded previous state is LOITER, the loiter pose becomes the current position and yaw; otherwise nothing changes |
| `Controller.WaypointGenerator.TakeDecision` | global_planner/src/nodes/waypoint_generator.cpp:171-184 | the decision is taken exactly when the grid is more than 20 sequence numbers from the start; then `can_land_` is "every entry exceeds the threshold", otherwise it keeps its value |
| `Controller.WaypointGenerator.ExploreStep` | global_planner/src/nodes/waypoint_generator.cpp:192-209 | exploration becomes active; the anchor is captured from the loiter position only on the first step; the progress advances (a valid index, and the factor grows by one on a wrap); the goal is the anchor moved by the pre-step offset times the new pattern point; the velocity becomes unconstrained |
| `Controller.WaypointGenerator.RunLand` | global_planner/src/nodes/waypoint_generator.cpp:214-222 | drops the altitude of the loiter target, emits a pure descent at the landing speed with the loiter yaw, and returns Repeat |

## Left out

- Logging (`ROS_INFO`, `ROS_ERROR`, `std::cout`): output only, with no effect on the state.
- `publishTrajectorySetpoints_`: the callback is a foreign sink. The ghost field `lastEmission` records the tuple handed to it.
- `landingAreaHeightPercentile(80)` and `avoidance::nextYaw`: their code is not part of this model. Their results for the current cycle are the inputs `heightPercentile` and `goalHeading`.
- `withinLandingRadius` and `inVerticalRange`: their code is not part of this model. `WithinRadius` and `InRange` define them as a horizontal distance of at most the landing radius and an altitude difference of at most the loiter height. An unconstrained goal axis compares false, as NaN does.
- The header's default member values are not part of this model. The constructor assumes these defaults: state and previous state GOTO, no pending reset or smoothing-size change, an empty buffer, `can_land_` true with no decision taken, exploration inactive at pattern index -1 and factor 1.0, unconstrained goal, velocity, loiter position and anchor, and zero for every other number.
- Floating point: all quantities are reals, so rounding is not modelled. NaN axes are `None`; NaN arithmetic is modelled only where it propagates through a shifted axis.
- The Eigen grid is a square `array2<real>`. The model requires the smoothing window around its centre to lie inside it, which the source takes for granted.
- `usm::StateMachine`: its code is not part of this model. Its behaviour is the driver assumption stated above.
- `InRange`: the exact comparison of `inVerticalRange` (strict or not, on the absolute difference or not) is not in this source. The model assumes `|z - reference| <= loiterHeight`, while the climb direction on line 131 uses a strict `<`. No handler contract depends on the form of the test: each states its result in terms of `InVerticalRange()`.
- `CalculateWaypoint`: states the driver-level outcome (invariant, buffer size, next state, the reset answered and cleared) and leaves the handlers' effects on the context to the handlers' own contracts.
- `IterateOnce`: states the reset path completely, the next state and the previous state, and leaves the handlers' effects on the context, the emission and the buffer to the handlers' own contracts.
- `RunCurrentState`: states the reset path completely, the GOTO transitions, and for the other handlers only which transitions each state can return and the pose and yaw they capture. Each handler's contract states its full effect.
