/// The states of the landing controller, the transitions its handlers return,
/// and the transition table of `chooseNextState`.
module StateTable {

  datatype GPState = GoTo | AltitudeChange | Loiter | Land

  /** The `usm::Transition` values the handlers and the reset path return. */
  datatype Transition = Repeat | Next1 | Next2 | Error

  /**
   * The `USM_TABLE` of `chooseNextState`. A pair the table does not map
   * (every transition out of Land, Error from anywhere, Next2 out of
   * AltitudeChange) falls back to the table's default, GoTo.
   */
  function NextState(current: GPState, t: Transition): (next: GPState)
    ensures next == AltitudeChange <==> current == GoTo && t == Next1
    ensures next == Loiter <==> (current == GoTo && t == Next2) || (current == AltitudeChange && t == Next1)
    ensures next == Land <==> current == Loiter && t == Next1
  {
    match (current, t)
    case (GoTo, Next1) => AltitudeChange
    case (GoTo, Next2) => Loiter
    case (AltitudeChange, Next1) => Loiter
    case (Loiter, Next1) => Land
    case (Loiter, Next2) => GoTo
    case _ => GoTo
  }

  /**
   * One step of the `usm::StateMachine` driver, whose code is not part of this
   * model: Repeat keeps the state, any other transition goes through the table.
   */
  function DriverStep(current: GPState, t: Transition): (next: GPState)
    ensures t == Error ==> next == GoTo
    ensures current == Land ==> (next == Land <==> t == Repeat)
    ensures next != current ==> t != Repeat
  {
    if t == Repeat then current else NextState(current, t)
  }

  /**
   * What the driver keeps true of the current state and the state recorded
   * by the last transition: LOITER is only ever reached from another state,
   * and ALTITUDE_CHANGE only from GOTO. Since Repeat records nothing, the
   * "entered from another state" tests of the LOITER and ALTITUDE_CHANGE
   * handlers hold on every cycle spent in those states.
   */
  predicate EntryConsistent(current: GPState, previous: GPState)
  {
    && (current == Loiter ==> previous != Loiter)
    && (current == AltitudeChange ==> previous == GoTo)
  }

  /** A driver step, recording the state left on a transition, keeps EntryConsistent. */
  lemma EntryConsistentStep(current: GPState, previous: GPState, t: Transition)
    requires EntryConsistent(current, previous)
    ensures EntryConsistent(DriverStep(current, t), if t == Repeat then previous else current)
  {
  }

  /** The state's name as the log prints it. */
  function ToString(state: GPState): (name: string)
    ensures name != "unknown" && |name| > 0
  {
    match state
    case GoTo => "GOTO"
    case AltitudeChange => "ALTITUDE CHANGE"
    case Loiter => "LOITER"
    case Land => "LAND"
  }
}
