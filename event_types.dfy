/**
 * Vocabulary of the FrogPilot event engine: the alert identifiers it can emit,
 * the writes it makes to the shared memory store, the per-tick inputs it reads,
 * and the fixed time constants of the control loop.
 *
 * All times are integers counting hundredths of a second, so that the
 * source's `round(frame + DT_MDL, 2)` clock and its comparisons
 * (`frame >= 10`, `frame == 5.5`) become exact integer arithmetic.
 */
module EventTypes {

  /** The alert identifiers (openpilot `EventName` members) this engine adds. */
  datatype EventName =
    | ForcingStop
    | GreenLight
    | HolidayActive
    | LeadDeparting
    | OpenpilotCrashedRandomEvent
    | OpenpilotCrashed
    | Accel30
    | Accel35
    | Accel40
    | DejaVuCurve
    | Hal9000
    | FirefoxSteerSaturated
    | GoatSteerSaturated
    | VCruise69
    | YourFrogTriedToKillMe
    | SpeedLimitChanged
    | TorqueNNLoad
    | TrafficModeActive
    | TrafficModeInactive
    | TurningLeft
    | TurningRight

  /** The model's desire output (openpilot `log.Desire`), of which the engine reads the turn direction. */
  datatype Desire = NoDesire | TurnLeft | TurnRight | LaneChangeLeft | LaneChangeRight | KeepLeft | KeepRight

  /** One write to the in-memory parameter store, all under the key `CurrentRandomEvent`. */
  datatype StoreOp = PutCurrentRandomEvent(code: int) | RemoveCurrentRandomEvent

  /** The fields of `carState` the engine reads. */
  datatype CarState = CarState(aEgo: real, gasPressed: bool, standstill: bool)

  /** The trigger pulses of `frogpilotCarControl`. */
  datatype CarControl = CarControl(
    noEntryEventTriggered: bool,
    steerSaturatedEventTriggered: bool,
    fcwEventTriggered: bool)

  /** Facts the planner computed this cycle; they are inputs here. */
  datatype PlannerFacts = PlannerFacts(
    forcingStop: bool,
    trackingLead: bool,
    modelStopped: bool,
    stopLightDetected: bool,
    leadDeparting: bool,
    takingCurveQuickly: bool)

  /** The user settings (`frogpilot_toggles`) the engine consults. */
  datatype Toggles = Toggles(
    greenLightAlert: bool,
    currentHolidayTheme: int,
    randomEvents: bool,
    isMetric: bool,
    speedLimitAlert: bool)

  /**
   * What the engine learns from outside its own inputs: whether the crash
   * marker file exists, whether the `NNFFModelName` setting is present, the
   * externally supplied speed-limit-changed flag, and the draw of the random
   * source used by the steer-saturation arbiter.
   */
  datatype Environment = Environment(
    crashFilePresent: bool,
    nnffModelNameSet: bool,
    speedLimitChanged: bool,
    randomDraw: nat)

  /** Everything one call of `update` reads. `vCruise` is in metres per second. */
  datatype Inputs = Inputs(
    carState: CarState,
    carControl: CarControl,
    trafficModeActive: bool,
    turnDirection: Desire,
    vCruise: real,
    toggles: Toggles,
    planner: PlannerFacts,
    env: Environment)

  /** One model tick (`DT_MDL` = 0.05 s), in hundredths of a second. */
  const TICK: nat := 5
  /** Length of the random-event cooldown window: 4 s. */
  const COOLDOWN: nat := 400
  /** Session age before the holiday banner may show: 10 s. */
  const HOLIDAY_DELAY: nat := 1000
  /** Session age at which the neural-network torque model notice shows: 5.5 s. */
  const NN_LOAD_FRAME: nat := 550

  /** Speed conversion factors of openpilot's `Conversions`. */
  const MS_TO_KPH: real := 3.6
  const MS_TO_MPH: real := 3.6 / 1.609344
}
