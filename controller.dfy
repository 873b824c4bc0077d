/// The landing-decision controller of the global planner: a four-state machine
/// (GOTO, ALTITUDE_CHANGE, LOITER, LAND) that keeps its context in fields and
/// runs one state handler per planning cycle.
module Controller {
  import opened Setpoints
  import opened StateTable
  import opened LandingFilter
  import opened Exploration

  /** The landing radius once exploration is active. */
  const EXPLORING_LANDING_RADIUS: real := 0.5

  /** Grid sequence numbers that must separate the grid from the start of the decision. */
  const DECISION_WINDOW: int := 20

  function Abs(x: int): nat
  {
    if x < 0 then -x else x
  }

  function RealAbs(x: real): real
  {
    if x < 0.0 then -x else x
  }

  /**
   * `withinLandingRadius`: the horizontal distance between goal and vehicle is
   * at most the radius (compared on squares); an unconstrained goal axis
   * compares false, as a NaN does.
   */
  predicate WithinRadius(goal: Setpoint3, position: Vec3, radius: real)
  {
    match (goal.x, goal.y)
    case (Some(gx), Some(gy)) =>
      var dx, dy := gx - position.x, gy - position.y;
      0.0 <= radius && dx * dx + dy * dy <= radius * radius
    case _ => false
  }

  /** `inVerticalRange`: the altitude is at most `loiterHeight` from the ground reference. */
  predicate InRange(z: real, reference: real, loiterHeight: real)
  {
    RealAbs(z - reference) <= loiterHeight
  }

  /**
   * What the planner node refreshes before each cycle: the vehicle pose, the
   * kind of the current waypoint, the terrain grid with its sequence number
   * and cell size, what `landingAreaHeightPercentile(80)` returns for that
   * grid, and what `avoidance::nextYaw` returns for the vehicle position and
   * the current goal.
   */
  datatype Inputs = Inputs(
    position: Vec3, yaw: real, isLandWaypoint: bool,
    grid: array2<real>, gridSeq: int, cellSize: real,
    heightPercentile: real, goalHeading: real)

  /**
   * Parameters: the half-width of the smoothing window in cells, the
   * smoothing factor, the landing threshold, the loiter height, the spiral
   * width, the descent and climb speed, and the exploration pattern.
   */
  datatype Config = Config(
    smoothingLandCell: nat, beta: real, canLandThr: real, loiterHeight: real,
    spiralWidth: real, landSpeed: real, pattern: seq<Point2>)

  /**
   * The controller context the handlers thread from cycle to cycle: the
   * setpoints, the landing radius and ground reference, the loiter pose, the
   * landing decision and the exploration spiral (anchor and progress, that
   * is the pattern index and the ring factor).
   */
  datatype Context = Context(
    goal: Setpoint3, velocitySetpoint: Setpoint3, yawSetpoint: real, yawSpeedSetpoint: real,
    landingRadius: real, altitudeLandingAreaPercentile: real,
    loiterPosition: Setpoint3, loiterYaw: real,
    decisionTaken: bool, canLand: bool, startSeqLandingDecision: int,
    explorationActive: bool, explorationAnchor: Setpoint3, exploration: Progress)

  class WaypointGenerator {
    // The state machine driver's current state, and the state before the last transition.
    var state: GPState
    var prevState: GPState
    var triggerReset: bool
    var updateSmoothingSize: bool

    var inputs: Inputs
    var config: Config
    var ctx: Context
    /** One smoothed landability value per cell of the smoothing window, row by row. */
    var hysteresis: array<real>

    /** The last tuple handed to the trajectory sink. */
    ghost var lastEmission: Option<Emission>

    /**
     * The object invariant: the pattern is non-empty, the pattern index is -1
     * (not started) or a valid position, the buffer has the window's size
     * unless it was never allocated or a new smoothing size is pending, and
     * the recorded previous state is consistent with how the current one can
     * be reached.
     */
    ghost predicate Valid()
      reads this`config, this`ctx, this`hysteresis, this`updateSmoothingSize, this`state, this`prevState
    {
      && EntryConsistent(state, prevState)
      && 0 < |config.pattern|
      && -1 <= ctx.exploration.index < |config.pattern|
      && (hysteresis.Length == 0 || updateSmoothingSize || Sized())
    }

    /** The buffer holds one entry per cell of the smoothing window. */
    ghost predicate Sized()
      reads this`config, this`hysteresis
    {
      hysteresis.Length == Side(config.smoothingLandCell) * Side(config.smoothingLandCell)
    }

    predicate WithinLandingRadius()
      reads this`ctx, this`inputs
    {
      WithinRadius(ctx.goal, inputs.position, ctx.landingRadius)
    }

    predicate InVerticalRange()
      reads this`ctx, this`inputs, this`config
    {
      InRange(inputs.position.z, ctx.altitudeLandingAreaPercentile, config.loiterHeight)
    }

    constructor (config: Config, inputs: Inputs)
      requires 0 < |config.pattern|
      ensures Valid() && state == GoTo && prevState == GoTo && !triggerReset && hysteresis.Length == 0
      ensures this.config == config && this.inputs == inputs
      ensures !ctx.decisionTaken && ctx.canLand && !ctx.explorationActive && ctx.exploration == START
    {
      state, prevState, triggerReset, updateSmoothingSize := GoTo, GoTo, false, false;
      this.inputs, this.config := inputs, config;
      ctx := Context(UNCONSTRAINED, UNCONSTRAINED, 0.0, 0.0, 0.0, 0.0, UNCONSTRAINED, 0.0,
                     false, true, 0, false, UNCONSTRAINED, START);
      hysteresis := new real[0];
      lastEmission := None;
    }

    /** One planning cycle: refresh the buffer and reset state, then one driver step. */
    method CalculateWaypoint() returns (ghost t: Transition)
      requires Valid()
      requires state == Loiter ==> GridFits(inputs.grid, config.smoothingLandCell)
      modifies this, hysteresis
      ensures Valid() && Sized() && !updateSmoothingSize
      ensures inputs == old(inputs) && config == old(config)
      ensures t == Error <==> old(triggerReset)
      ensures !triggerReset
      ensures state == DriverStep(old(state), t)
      ensures old(state) == Land && !old(triggerReset) ==> state == Land
    {
      UpdateGPState();
      t := IterateOnce();
    }

    /**
     * Makes the buffer the window's size when a new size is pending or it was
     * never allocated, and clears the landing decision and exploration when
     * the current waypoint is not a landing waypoint.
     */
    method UpdateGPState()
      requires Valid()
      modifies this`hysteresis, this`updateSmoothingSize, this`ctx, hysteresis
      ensures Valid() && Sized() && !updateSmoothingSize
      ensures old(updateSmoothingSize) || old(hysteresis.Length) == 0 ==>
                fresh(hysteresis) && forall k :: 0 <= k < hysteresis.Length ==> hysteresis[k] == 0.0
      ensures !(old(updateSmoothingSize) || old(hysteresis.Length) == 0) ==> hysteresis == old(hysteresis)
      ensures !inputs.isLandWaypoint ==>
                && (forall k :: 0 <= k < hysteresis.Length ==> hysteresis[k] == 0.0)
                && ctx == old(ctx).(decisionTaken := false, canLand := true,
                                    explorationActive := false, exploration := START)
      ensures inputs.isLandWaypoint ==>
                && ctx == old(ctx)
                && (hysteresis == old(hysteresis) ==> hysteresis[..] == old(hysteresis[..]))
    {
      if updateSmoothingSize || hysteresis.Length == 0 {
        var side := Side(config.smoothingLandCell);
        hysteresis := new real[side * side](_ => 0.0);
        updateSmoothingSize := false;
      }
      if !inputs.isLandWaypoint {
        ctx := ctx.(decisionTaken := false, canLand := true);
        ZeroFill(hysteresis);
        ctx := ctx.(explorationActive := false, exploration := START);
      }
    }

    /** Records the state being left and looks the next state up in the table. */
    method ChooseNextState(current: GPState, t: Transition) returns (next: GPState)
      modifies this`prevState
      ensures prevState == current
      ensures next == NextState(current, t)
    {
      prevState := current;
      next := NextState(current, t);
    }

    /** The driver step: run the current state; any transition but Repeat goes through the table. */
    method IterateOnce() returns (ghost t: Transition)
      requires Valid() && Sized()
      requires state == Loiter ==> GridFits(inputs.grid, config.smoothingLandCell)
      modifies this`state, this`prevState, this`triggerReset, this`ctx, this`lastEmission, hysteresis
      ensures Valid() && Sized()
      ensures t == Error <==> old(triggerReset)
      ensures !triggerReset
      ensures old(triggerReset) ==>
                ctx == old(ctx) && lastEmission == old(lastEmission) && hysteresis[..] == old(hysteresis[..])
      ensures state == DriverStep(old(state), t)
      ensures prevState == if t == Repeat then old(prevState) else old(state)
      ensures old(state) == Land && !old(triggerReset) ==> state == Land
    {
      var transition := RunCurrentState();
      EntryConsistentStep(state, prevState, transition);
      if transition != Repeat {
        state := ChooseNextState(state, transition);
      }
      t := transition;
    }

    /**
     * A pending reset is consumed and answered with Error before any handler
     * runs; otherwise the current state's handler runs.
     */
    method RunCurrentState() returns (t: Transition)
      requires Valid() && Sized()
      requires state == Loiter ==> GridFits(inputs.grid, config.smoothingLandCell)
      modifies this`triggerReset, this`ctx, this`lastEmission, hysteresis
      ensures Valid() && !triggerReset
      ensures old(triggerReset) ==>
                t == Error && ctx == old(ctx) && lastEmission == old(lastEmission)
                && hysteresis[..] == old(hysteresis[..])
      ensures !old(triggerReset) ==> t != Error
      ensures !old(triggerReset) && state == AltitudeChange ==> t != Next2
      ensures !old(triggerReset) && state == Land ==> t == Repeat
      ensures !old(triggerReset) && state == GoTo ==>
                && (t == Next1 <==> WithinLandingRadius() && !InVerticalRange() && inputs.isLandWaypoint)
                && (t == Next2 <==> WithinLandingRadius() && InVerticalRange() && inputs.isLandWaypoint)
      ensures !old(triggerReset) && state == AltitudeChange ==> ctx.yawSetpoint == inputs.yaw
      ensures !old(triggerReset) && state == Loiter ==>
                ctx.loiterPosition == Lift(inputs.position) && ctx.loiterYaw == inputs.yaw
    {
      if triggerReset {
        triggerReset := false;
        return Error;
      }
      match state
      case GoTo => t := RunGoTo();
      case AltitudeChange => t := RunAltitudeChange();
      case Loiter => t := RunLoiter();
      case Land => t := RunLand();
    }

    /**
     * GOTO: clears the decision and the buffer; with exploration active it
     * narrows the landing radius and turns towards the goal. Within the radius
     * of a landing waypoint it asks for an altitude change (Next1) or, already
     * in the vertical band, for LOITER (Next2), which starts the decision window.
     */
    method RunGoTo() returns (t: Transition)
      modifies this`ctx, this`lastEmission, hysteresis
      ensures forall k :: 0 <= k < hysteresis.Length ==> hysteresis[k] == 0.0
      ensures ctx == old(ctx).(decisionTaken := false, landingRadius := ctx.landingRadius,
                               yawSetpoint := ctx.yawSetpoint,
                               altitudeLandingAreaPercentile := inputs.heightPercentile,
                               startSeqLandingDecision := ctx.startSeqLandingDecision)
      ensures ctx.landingRadius == if ctx.explorationActive then EXPLORING_LANDING_RADIUS else old(ctx.landingRadius)
      ensures ctx.yawSetpoint == if ctx.explorationActive then inputs.goalHeading else old(ctx.yawSetpoint)
      ensures lastEmission == Some(Emission(ctx.goal, ctx.velocitySetpoint, ctx.yawSetpoint, Some(ctx.yawSpeedSetpoint)))
      ensures t == Next1 <==> WithinLandingRadius() && !InVerticalRange() && inputs.isLandWaypoint
      ensures t == Next2 <==> WithinLandingRadius() && InVerticalRange() && inputs.isLandWaypoint
      ensures t == Repeat <==> !(WithinLandingRadius() && inputs.isLandWaypoint)
      ensures ctx.startSeqLandingDecision == if t == Next2 then inputs.gridSeq else old(ctx.startSeqLandingDecision)
    {
      ctx := ctx.(decisionTaken := false);
      if ctx.explorationActive {
        ctx := ctx.(landingRadius := EXPLORING_LANDING_RADIUS, yawSetpoint := inputs.goalHeading);
      }
      lastEmission := Some(Emission(ctx.goal, ctx.velocitySetpoint, ctx.yawSetpoint, Some(ctx.yawSpeedSetpoint)));
      ctx := ctx.(altitudeLandingAreaPercentile := inputs.heightPercentile);
      ZeroFill(hysteresis);
      if WithinLandingRadius() && !InVerticalRange() && inputs.isLandWaypoint {
        t := Next1;
      } else if WithinLandingRadius() && InVerticalRange() && inputs.isLandWaypoint {
        ctx := ctx.(startSeqLandingDecision := inputs.gridSeq);
        t := Next2;
      } else {
        t := Repeat;
      }
    }

    /**
     * ALTITUDE_CHANGE: unless the recorded previous state is ALTITUDE_CHANGE,
     * takes the current yaw as the yaw setpoint; drops the
     * altitude target and climbs while closer to the ground reference than the
     * loiter height, descends otherwise. Within radius and vertical band of a
     * landing waypoint it asks for LOITER (Next1), which starts the decision window.
     */
    method RunAltitudeChange() returns (t: Transition)
      modifies this`ctx, this`lastEmission
      ensures ctx == old(ctx).(yawSetpoint := ctx.yawSetpoint, goal := old(ctx.goal).(z := None),
                               altitudeLandingAreaPercentile := inputs.heightPercentile,
                               velocitySetpoint := ctx.velocitySetpoint, landingRadius := ctx.landingRadius,
                               startSeqLandingDecision := ctx.startSeqLandingDecision)
      ensures ctx.yawSetpoint == if prevState != AltitudeChange then inputs.yaw else old(ctx.yawSetpoint)
      ensures ctx.velocitySetpoint == old(ctx.velocitySetpoint).(z := Some(
                if RealAbs(inputs.position.z - inputs.heightPercentile) < config.loiterHeight
                then config.landSpeed else -config.landSpeed))
      ensures ctx.landingRadius == if ctx.explorationActive then EXPLORING_LANDING_RADIUS else old(ctx.landingRadius)
      ensures lastEmission == Some(Emission(ctx.goal, ctx.velocitySetpoint, ctx.yawSetpoint, Some(ctx.yawSpeedSetpoint)))
      ensures t == Next1 <==> WithinLandingRadius() && InVerticalRange() && inputs.isLandWaypoint
      ensures t == Next1 || t == Repeat
      ensures ctx.startSeqLandingDecision == if t == Next1 then inputs.gridSeq else old(ctx.startSeqLandingDecision)
    {
      if prevState != AltitudeChange {
        ctx := ctx.(yawSetpoint := inputs.yaw);
      }
      ctx := ctx.(goal := ctx.goal.(z := None));
      ctx := ctx.(altitudeLandingAreaPercentile := inputs.heightPercentile);
      var direction :=
        if RealAbs(inputs.position.z - ctx.altitudeLandingAreaPercentile) - config.loiterHeight < 0.0 then 1.0 else -1.0;
      ctx := ctx.(velocitySetpoint := ctx.velocitySetpoint.(z := Some(direction * config.landSpeed)));
      lastEmission := Some(Emission(ctx.goal, ctx.velocitySetpoint, ctx.yawSetpoint, Some(ctx.yawSpeedSetpoint)));
      if ctx.explorationActive {
        ctx := ctx.(landingRadius := EXPLORING_LANDING_RADIUS);
      }
      if WithinLandingRadius() && InVerticalRange() && inputs.isLandWaypoint {
        ctx := ctx.(startSeqLandingDecision := inputs.gridSeq);
        t := Next1;
      } else {
        t := Repeat;
      }
    }

    /**
     * LOITER: unless the recorded previous state is LOITER, takes the current
     * pose as the loiter pose; folds the
     * window of the grid into the buffer; once the grid is more than
     * DECISION_WINDOW sequence numbers past the start, decides and votes. A
     * "can land" decision asks for LAND (Next1); a "cannot land" decision
     * takes one exploration step, sets the goal and asks for Next2.
     */
    method RunLoiter() returns (t: Transition)
      requires Valid() && Sized() && GridFits(inputs.grid, config.smoothingLandCell)
      modifies this`ctx, this`lastEmission, hysteresis
      ensures Valid()
      ensures ctx.loiterPosition == if prevState != Loiter then Lift(inputs.position) else old(ctx.loiterPosition)
      ensures ctx.loiterYaw == if prevState != Loiter then inputs.yaw else old(ctx.loiterYaw)
      ensures forall k :: 0 <= k < hysteresis.Length ==>
                hysteresis[k] == Smooth(old(hysteresis[k]), WindowCell(inputs.grid, config.smoothingLandCell, k), config.beta)
      ensures ctx.decisionTaken == (old(ctx.decisionTaken) || DecisionDue())
      ensures DecisionDue() ==>
                (ctx.canLand <==> forall k :: 0 <= k < hysteresis.Length ==> hysteresis[k] > config.canLandThr)
      ensures !DecisionDue() ==> ctx.canLand == old(ctx.canLand)
      ensures lastEmission == Some(Emission(ctx.loiterPosition, UNCONSTRAINED, ctx.loiterYaw, None))
      ensures t == Next1 <==> ctx.decisionTaken && ctx.canLand
      ensures t == Next2 <==> ctx.decisionTaken && !ctx.canLand
      ensures t == Repeat <==> !ctx.decisionTaken
      ensures t != Next2 ==>
                ctx == old(ctx).(loiterPosition := ctx.loiterPosition, loiterYaw := ctx.loiterYaw,
                                 decisionTaken := ctx.decisionTaken, canLand := ctx.canLand)
      ensures t == Next2 ==>
                && ctx == old(ctx).(loiterPosition := ctx.loiterPosition, loiterYaw := ctx.loiterYaw,
                                    decisionTaken := ctx.decisionTaken, canLand := ctx.canLand,
                                    explorationActive := true, explorationAnchor := ctx.explorationAnchor,
                                    exploration := Advance(old(ctx.exploration), |config.pattern|),
                                    goal := ctx.goal, velocitySetpoint := UNCONSTRAINED)
                && ctx.explorationAnchor == (if old(ctx.explorationActive) then old(ctx.explorationAnchor)
                                             else ctx.loiterPosition)
                && ctx.goal == ExplorationGoal(ctx.explorationAnchor,
                                               Offset(config.spiralWidth, old(ctx.exploration.factor),
                                                      config.smoothingLandCell, inputs.cellSize),
                                               config.pattern[ctx.exploration.index])
    {
      FreezeLoiterPose();
      SmoothWindow(hysteresis, inputs.grid, config.smoothingLandCell, config.beta);
      TakeDecision();
      lastEmission := Some(Emission(ctx.loiterPosition, UNCONSTRAINED, ctx.loiterYaw, None));
      if ctx.decisionTaken && ctx.canLand {
        t := Next1;
      } else if ctx.decisionTaken && !ctx.canLand {
        ExploreStep();
        t := Next2;
      } else {
        t := Repeat;
      }
    }

    /** The grid is more than DECISION_WINDOW sequence numbers away from the start of the decision. */
    predicate DecisionDue()
      reads this`ctx, this`inputs
    {
      Abs(inputs.gridSeq - ctx.startSeqLandingDecision) > DECISION_WINDOW
    }

    /**
     * Unless the recorded previous state is LOITER, the current pose becomes
     * the loiter pose. The previous state is only recorded on a transition, so
     * in LOITER it is never LOITER and the pose is taken on every cycle.
     */
    method FreezeLoiterPose()
      modifies this`ctx
      ensures ctx == if prevState != Loiter
                     then old(ctx).(loiterPosition := Lift(inputs.position), loiterYaw := inputs.yaw)
                     else old(ctx)
    {
      if prevState != Loiter {
        ctx := ctx.(loiterPosition := Lift(inputs.position), loiterYaw := inputs.yaw);
      }
    }

    /**
     * Once the decision is due it is taken and the buffer votes: the vehicle
     * can land iff every smoothed cell is above the threshold.
     */
    method TakeDecision()
      requires 0 < hysteresis.Length
      modifies this`ctx
      ensures ctx == old(ctx).(decisionTaken := ctx.decisionTaken, canLand := ctx.canLand)
      ensures ctx.decisionTaken == (old(ctx.decisionTaken) || DecisionDue())
      ensures DecisionDue() ==>
                (ctx.canLand <==> forall k :: 0 <= k < hysteresis.Length ==> hysteresis[k] > config.canLandThr)
      ensures !DecisionDue() ==> ctx.canLand == old(ctx.canLand)
    {
      if DecisionDue() {
        var canLand := DecideCanLand(hysteresis, config.canLandThr, ctx.canLand);
        ctx := ctx.(decisionTaken := true, canLand := canLand);
        assert ctx.canLand <==> forall k :: 0 <= k < hysteresis.Length ==> hysteresis[k] > config.canLandThr;
      }
    }

    /**
     * One step of the exploration spiral after a "cannot land" decision:
     * anchors the spiral at the loiter position on its first step, moves to
     * the next pattern point (wrapping and widening the spiral after the last)
     * and aims at the anchor displaced by the offset of the ring it was on.
     */
    method ExploreStep()
      requires Valid()
      modifies this`ctx
      ensures Valid()
      ensures ctx == old(ctx).(explorationActive := true, explorationAnchor := ctx.explorationAnchor,
                               exploration := Advance(old(ctx.exploration), |config.pattern|),
                               goal := ctx.goal, velocitySetpoint := UNCONSTRAINED)
      ensures ctx.explorationAnchor == if old(ctx.explorationActive) then old(ctx.explorationAnchor)
                                       else ctx.loiterPosition
      ensures 0 <= ctx.exploration.index < |config.pattern|
      ensures ctx.goal == ExplorationGoal(ctx.explorationAnchor,
                                          Offset(config.spiralWidth, old(ctx.exploration.factor),
                                                 config.smoothingLandCell, inputs.cellSize),
                                          config.pattern[ctx.exploration.index])
    {
      if !ctx.explorationActive {
        ctx := ctx.(explorationAnchor := ctx.loiterPosition, explorationActive := true);
      }
      var offset := Offset(config.spiralWidth, ctx.exploration.factor, config.smoothingLandCell, inputs.cellSize);
      var index, factor := ctx.exploration.index + 1, ctx.exploration.factor;
      if index == |config.pattern| {
        index, factor := 0, factor + 1.0;
      }
      ctx := ctx.(exploration := Progress(index, factor),
                  goal := ExplorationGoal(ctx.explorationAnchor, offset, config.pattern[index]),
                  velocitySetpoint := UNCONSTRAINED);
    }

    /** LAND: drops the altitude of the loiter target, descends at the landing speed, holds the loiter yaw. */
    method RunLand() returns (t: Transition)
      modifies this`ctx, this`lastEmission
      ensures t == Repeat
      ensures ctx == old(ctx).(loiterPosition := old(ctx.loiterPosition).(z := None))
      ensures lastEmission == Some(Emission(ctx.loiterPosition, UNCONSTRAINED.(z := Some(-config.landSpeed)),
                                            ctx.loiterYaw, None))
    {
      ctx := ctx.(loiterPosition := ctx.loiterPosition.(z := None));
      var descent := UNCONSTRAINED.(z := Some(-config.landSpeed));
      lastEmission := Some(Emission(ctx.loiterPosition, descent, ctx.loiterYaw, None));
      return Repeat;
    }
  }
}
