/**
 * The abstract state of the event engine and its one-tick transition `Step`.
 *
 * A tick is written rule by rule, in the order the source evaluates its
 * rules: each rule is a function from what the tick has emitted so far to
 * what it has emitted after the rule. `Engine.FrogPilotEvents.Update` is
 * proved to behave exactly as `Step`; the lemmas in `EventFacts`,
 * `TickProperties` and `EventTraces` state what ticks guarantee.
 */
module EventSpec {
  import opened EventTypes

  /** The one-shot latches, one per `*_played` flag of the source. */
  datatype Latch =
    | Accel30Played
    | Accel35Played
    | Accel40Played
    | DejaVuPlayed
    | FcwPlayed
    | FirefoxPlayed
    | GoatPlayed
    | HolidayThemePlayed
    | NoEntryAlertPlayed
    | OpenpilotCrashedPlayed
    | VCruise69Played

  /** The values of the eleven `*_played` flags. */
  datatype Latches = Latches(
    accel30: bool,
    accel35: bool,
    accel40: bool,
    dejaVu: bool,
    fcw: bool,
    firefox: bool,
    goat: bool,
    holidayTheme: bool,
    noEntryAlert: bool,
    openpilotCrashed: bool,
    vCruise69: bool)

  const NonePlayed: Latches := Latches(false, false, false, false, false, false, false, false, false, false, false)

  /** Whether latch `l` is set in `ls`. */
  predicate Played(ls: Latches, l: Latch) {
    match l
    case Accel30Played => ls.accel30
    case Accel35Played => ls.accel35
    case Accel40Played => ls.accel40
    case DejaVuPlayed => ls.dejaVu
    case FcwPlayed => ls.fcw
    case FirefoxPlayed => ls.firefox
    case GoatPlayed => ls.goat
    case HolidayThemePlayed => ls.holidayTheme
    case NoEntryAlertPlayed => ls.noEntryAlert
    case OpenpilotCrashedPlayed => ls.openpilotCrashed
    case VCruise69Played => ls.vCruise69
  }

  /** The latches of the random-event group: firing one starts the cooldown. */
  predicate IsRandomLatch(l: Latch) {
    l != HolidayThemePlayed && l != OpenpilotCrashedPlayed
  }

  /** The events of the random-event group, the ones the cooldown suppresses. */
  predicate IsRandomEvent(e: EventName) {
    e in {Accel30, Accel35, Accel40, DejaVuCurve, Hal9000, FirefoxSteerSaturated,
          GoatSteerSaturated, VCruise69, YourFrogTriedToKillMe}
  }

  /** The event a random latch announces when it fires. */
  function Announcement(l: Latch): EventName {
    match l
    case Accel30Played => Accel30
    case Accel35Played => Accel35
    case Accel40Played => Accel40
    case DejaVuPlayed => DejaVuCurve
    case FcwPlayed => YourFrogTriedToKillMe
    case FirefoxPlayed => FirefoxSteerSaturated
    case GoatPlayed => GoatSteerSaturated
    case HolidayThemePlayed => HolidayActive
    case NoEntryAlertPlayed => Hal9000
    case OpenpilotCrashedPlayed => OpenpilotCrashed
    case VCruise69Played => VCruise69
  }

  /** The `CurrentRandomEvent` code a random latch writes when it fires; 0 for none. */
  function StoreCode(l: Latch): nat {
    match l
    case FirefoxPlayed => 1
    case Accel30Played => 2
    case Accel35Played => 3
    case Accel40Played => 4
    case DejaVuPlayed => 5
    case _ => 0
  }

  /** The session state of one engine instance (the fields set up by `__init__`). */
  datatype EngineState = EngineState(
    played: Latches,
    randomEventPlayed: bool,
    randomEventTimer: nat,
    maxAcceleration: real,
    previousTrafficMode: bool,
    stoppedForLight: bool,
    frame: nat)

  /** The invariant every reachable state keeps. */
  predicate Valid(s: EngineState) {
    && s.randomEventTimer < COOLDOWN
    && (!s.randomEventPlayed ==> s.randomEventTimer == 0)
    && s.maxAcceleration >= 0.0
  }

  /** The state right after construction. */
  function Init(): (s: EngineState)
    ensures Valid(s) && !s.randomEventPlayed && s.frame == 0
    ensures forall l :: !Played(s.played, l)
  {
    EngineState(NonePlayed, false, 0, 0.0, false, false, 0)
  }

  // ---------------------------------------------------------------------
  // The cooldown and the random-event gate (source lines 42-47 and 73)

  /** Outcome of the cooldown check at the head of a tick. */
  datatype Cooled = Cooled(active: bool, timer: nat, expired: bool)

  function Cooldown(s: EngineState): Cooled {
    if !s.randomEventPlayed then Cooled(false, s.randomEventTimer, false)
    else if s.randomEventTimer + TICK >= COOLDOWN then Cooled(false, 0, true)
    else Cooled(true, s.randomEventTimer + TICK, false)
  }

  /** The store removal made when the cooldown expires. */
  function Expire(w: seq<StoreOp>, s: EngineState): seq<StoreOp> {
    if Cooldown(s).expired then w + [RemoveCurrentRandomEvent] else w
  }

  /** Whether the random-event rules are evaluated this tick. */
  predicate RandomGate(s: EngineState, inp: Inputs) {
    !Cooldown(s).active && inp.toggles.randomEvents
  }

  // ---------------------------------------------------------------------
  // The random-event rules (source lines 73-139)

  function Max(a: real, b: real): real {
    if a >= b then a else b
  }

  /** The running peak after the tracker has seen this tick's acceleration. */
  function Peak(s: EngineState, inp: Inputs): real {
    if !RandomGate(s, inp) then s.maxAcceleration
    else if inp.carState.gasPressed then 0.0
    else Max(inp.carState.aEgo, s.maxAcceleration)
  }

  /** The half-open acceleration band of each tier. */
  predicate InBand(l: Latch, peak: real) {
    match l
    case Accel30Played => 3.0 <= peak < 3.5
    case Accel35Played => 3.5 <= peak < 4.0
    case Accel40Played => peak >= 4.0
    case _ => false
  }

  /** At most one latch chosen by a rule. */
  datatype Pick = Nothing | Pick(latch: Latch)

  /** The acceleration tier that fires, as an `elif` chain over the three tiers. */
  function TierPick(ls: Latches, peak: real, accel: real): (p: Pick)
    ensures p.Pick? ==> !Played(ls, p.latch) && InBand(p.latch, peak) && accel < 1.5
    ensures forall l :: !Played(ls, l) && InBand(l, peak) && accel < 1.5 ==> p == Pick(l)
  {
    if !ls.accel30 && 3.5 > peak >= 3.0 && accel < 1.5 then Pick(Accel30Played)
    else if !ls.accel35 && 4.0 > peak >= 3.5 && accel < 1.5 then Pick(Accel35Played)
    else if !ls.accel40 && peak >= 4.0 && accel < 1.5 then Pick(Accel40Played)
    else Nothing
  }

  function Tier(s: EngineState, inp: Inputs): Pick {
    if RandomGate(s, inp) then TierPick(s.played, Peak(s, inp), inp.carState.aEgo) else Nothing
  }

  /** The steer-saturation variants that have not played yet, firefox first. */
  function SteerChoices(ls: Latches): (c: seq<Latch>)
    ensures forall l :: l in c <==> (l == FirefoxPlayed || l == GoatPlayed) && !Played(ls, l)
    ensures |c| <= 2
    ensures |c| == 2 ==> c[0] != c[1]
  {
    (if !ls.firefox then [FirefoxPlayed] else []) + (if !ls.goat then [GoatPlayed] else [])
  }

  /**
   * The sampling cadence of the arbiter: `frame % (100 // n) == 0` with
   * `frame` in seconds, that is every 100 s with one candidate left and
   * every 50 s with two.
   */
  predicate SteerCadence(frame: nat, n: nat)
    requires 0 < n <= 100
  {
    frame % (100 * (100 / n)) == 0
  }

  /** The steer-saturation variant the arbiter picks this tick, if any. */
  function Steer(s: EngineState, inp: Inputs): (p: Pick)
    ensures p.Pick? ==> (p.latch == FirefoxPlayed || p.latch == GoatPlayed) && !Played(s.played, p.latch)
  {
    var choices := SteerChoices(s.played);
    if RandomGate(s, inp) && inp.carControl.steerSaturatedEventTriggered
       && |choices| > 0 && SteerCadence(s.frame, |choices|)
    then Pick(choices[inp.env.randomDraw % |choices|])
    else Nothing
  }

  /** The cruise speed shown to the driver, in the configured unit. */
  function DisplaySpeed(vCruise: real, isMetric: bool): real {
    vCruise * (if isMetric then MS_TO_KPH else MS_TO_MPH)
  }

  predicate FiresHoliday(s: EngineState, inp: Inputs) {
    !s.played.holidayTheme && inp.toggles.currentHolidayTheme != 0 && s.frame >= HOLIDAY_DELAY
  }

  predicate FiresCrash(s: EngineState, inp: Inputs) {
    !s.played.openpilotCrashed && inp.env.crashFilePresent
  }

  predicate FiresDejaVu(s: EngineState, inp: Inputs) {
    RandomGate(s, inp) && !s.played.dejaVu && inp.planner.takingCurveQuickly
  }

  predicate FiresNoEntry(s: EngineState, inp: Inputs) {
    RandomGate(s, inp) && !s.played.noEntryAlert && inp.carControl.noEntryEventTriggered
  }

  predicate FiresVCruise69(s: EngineState, inp: Inputs) {
    RandomGate(s, inp) && !s.played.vCruise69 && 70.0 > DisplaySpeed(inp.vCruise, inp.toggles.isMetric) >= 69.0
  }

  predicate FiresFcw(s: EngineState, inp: Inputs) {
    RandomGate(s, inp) && !s.played.fcw && inp.carControl.fcwEventTriggered
  }

  /** Whether latch `l` is set by this tick. */
  predicate Fires(s: EngineState, inp: Inputs, l: Latch) {
    match l
    case Accel30Played => Tier(s, inp) == Pick(l)
    case Accel35Played => Tier(s, inp) == Pick(l)
    case Accel40Played => Tier(s, inp) == Pick(l)
    case DejaVuPlayed => FiresDejaVu(s, inp)
    case NoEntryAlertPlayed => FiresNoEntry(s, inp)
    case FirefoxPlayed => Steer(s, inp) == Pick(l)
    case GoatPlayed => Steer(s, inp) == Pick(l)
    case VCruise69Played => FiresVCruise69(s, inp)
    case FcwPlayed => FiresFcw(s, inp)
    case HolidayThemePlayed => FiresHoliday(s, inp)
    case OpenpilotCrashedPlayed => FiresCrash(s, inp)
  }

  /** Whether any random-group latch fires this tick. */
  predicate AnyRandomFires(s: EngineState, inp: Inputs) {
    EarlyRandomFires(s, inp) || LateRandomFires(s, inp)
  }

  predicate EarlyRandomFires(s: EngineState, inp: Inputs) {
    Tier(s, inp).Pick? || FiresDejaVu(s, inp) || FiresNoEntry(s, inp)
  }

  predicate LateRandomFires(s: EngineState, inp: Inputs) {
    Steer(s, inp).Pick? || FiresVCruise69(s, inp) || FiresFcw(s, inp)
  }

  // ---------------------------------------------------------------------
  // What a tick emits, rule by rule

  /** The events and store writes a tick has made so far. */
  datatype Emission = Emission(events: seq<EventName>, writes: seq<StoreOp>)

  /** Announce a fired random latch and write its store code, if it has one. */
  function Fire(t: Emission, l: Latch): Emission {
    Emission(t.events + [Announcement(l)],
             if StoreCode(l) > 0 then t.writes + [PutCurrentRandomEvent(StoreCode(l))] else t.writes)
  }

  function FireIf(t: Emission, c: bool, l: Latch): Emission {
    if c then Fire(t, l) else t
  }

  function FirePick(t: Emission, p: Pick): Emission {
    match p
    case Nothing => t
    case Pick(l) => Fire(t, l)
  }

  /** The first random rules, lines 81-111: acceleration tier, fast curve, no-entry. */
  function EarlyRandomRules(t: Emission, s: EngineState, inp: Inputs): Emission {
    var t1 := FirePick(t, Tier(s, inp));
    var t2 := FireIf(t1, FiresDejaVu(s, inp), DejaVuPlayed);
    FireIf(t2, FiresNoEntry(s, inp), NoEntryAlertPlayed)
  }

  /** The last random rules, lines 113-139: steer saturation, cruise speed 69, FCW. */
  function LateRandomRules(t: Emission, s: EngineState, inp: Inputs): Emission {
    var t1 := FirePick(t, Steer(s, inp));
    var t2 := FireIf(t1, FiresVCruise69(s, inp), VCruise69Played);
    FireIf(t2, FiresFcw(s, inp), FcwPlayed)
  }

  /** The random-event block, lines 73-139, in source order. */
  function RandomRules(t: Emission, s: EngineState, inp: Inputs): Emission {
    LateRandomRules(EarlyRandomRules(t, s, inp), s, inp)
  }

  function AddIf(es: seq<EventName>, c: bool, e: EventName): seq<EventName> {
    if c then es + [e] else es
  }

  /** The gating of the green-light rule: feature on, no lead tracked, at standstill. */
  predicate GreenLightGate(inp: Inputs) {
    inp.toggles.greenLightAlert && !inp.planner.trackingLead && inp.carState.standstill
  }

  predicate FiresGreenLight(s: EngineState, inp: Inputs) {
    GreenLightGate(inp) && !inp.planner.modelStopped && s.stoppedForLight
  }

  /** The crash notice, in its random-events flavour when those are on. */
  function CrashNotice(inp: Inputs): EventName {
    if inp.toggles.randomEvents then OpenpilotCrashedRandomEvent else OpenpilotCrashed
  }

  /** The notices ahead of the random block, lines 49-71. */
  function Notices(es: seq<EventName>, s: EngineState, inp: Inputs): seq<EventName> {
    var es1 := AddIf(es, inp.planner.forcingStop, ForcingStop);
    var es2 := AddIf(es1, FiresGreenLight(s, inp), GreenLight);
    var es3 := AddIf(es2, FiresHoliday(s, inp), HolidayActive);
    var es4 := AddIf(es3, inp.planner.leadDeparting, LeadDeparting);
    AddIf(es4, FiresCrash(s, inp), CrashNotice(inp))
  }

  predicate TrafficEdge(s: EngineState, inp: Inputs) {
    inp.trafficModeActive != s.previousTrafficMode
  }

  /** The traffic-mode notice for a change away from the previous mode. */
  function TrafficNotice(s: EngineState): EventName {
    if s.previousTrafficMode then TrafficModeInactive else TrafficModeActive
  }

  /** The status events after the random block, lines 141-157. */
  function Statuses(es: seq<EventName>, s: EngineState, inp: Inputs): seq<EventName> {
    var es1 := AddIf(es, inp.toggles.speedLimitAlert && inp.env.speedLimitChanged, SpeedLimitChanged);
    var es2 := AddIf(es1, s.frame == NN_LOAD_FRAME && inp.env.nnffModelNameSet, TorqueNNLoad);
    var es3 := AddIf(es2, TrafficEdge(s, inp), TrafficNotice(s));
    var es4 := AddIf(es3, inp.turnDirection == TurnLeft, TurningLeft);
    AddIf(es4, inp.turnDirection == TurnRight, TurningRight)
  }

  // ---------------------------------------------------------------------
  // One tick

  /** `ls` with latch `l` set. */
  function Mark(ls: Latches, l: Latch): Latches {
    Latches(
      accel30 := ls.accel30 || l.Accel30Played?,
      accel35 := ls.accel35 || l.Accel35Played?,
      accel40 := ls.accel40 || l.Accel40Played?,
      dejaVu := ls.dejaVu || l.DejaVuPlayed?,
      fcw := ls.fcw || l.FcwPlayed?,
      firefox := ls.firefox || l.FirefoxPlayed?,
      goat := ls.goat || l.GoatPlayed?,
      holidayTheme := ls.holidayTheme || l.HolidayThemePlayed?,
      noEntryAlert := ls.noEntryAlert || l.NoEntryAlertPlayed?,
      openpilotCrashed := ls.openpilotCrashed || l.OpenpilotCrashedPlayed?,
      vCruise69 := ls.vCruise69 || l.VCruise69Played?)
  }

  function SetIf(ls: Latches, c: bool, l: Latch): Latches {
    if c then Mark(ls, l) else ls
  }

  function SetPick(ls: Latches, p: Pick): Latches {
    match p
    case Nothing => ls
    case Pick(l) => Mark(ls, l)
  }

  /** The latches the notices set: holiday and crash. */
  function NoticeLatches(ls: Latches, s: EngineState, inp: Inputs): Latches {
    SetIf(SetIf(ls, FiresHoliday(s, inp), HolidayThemePlayed), FiresCrash(s, inp), OpenpilotCrashedPlayed)
  }

  /** The latches the first random rules set. */
  function EarlyRandomLatches(ls: Latches, s: EngineState, inp: Inputs): Latches {
    var ls1 := SetPick(ls, Tier(s, inp));
    var ls2 := SetIf(ls1, FiresDejaVu(s, inp), DejaVuPlayed);
    SetIf(ls2, FiresNoEntry(s, inp), NoEntryAlertPlayed)
  }

  /** The latches the last random rules set. */
  function LateRandomLatches(ls: Latches, s: EngineState, inp: Inputs): Latches {
    var ls1 := SetPick(ls, Steer(s, inp));
    var ls2 := SetIf(ls1, FiresVCruise69(s, inp), VCruise69Played);
    SetIf(ls2, FiresFcw(s, inp), FcwPlayed)
  }

  /** The latches after a tick, set rule by rule in source order. */
  function NextLatches(s: EngineState, inp: Inputs): Latches {
    LateRandomLatches(EarlyRandomLatches(NoticeLatches(s.played, s, inp), s, inp), s, inp)
  }

  /** The session state after one tick. */
  function StepState(s: EngineState, inp: Inputs): EngineState {
    EngineState(
      played := NextLatches(s, inp),
      randomEventPlayed := Cooldown(s).active || AnyRandomFires(s, inp),
      randomEventTimer := Cooldown(s).timer,
      maxAcceleration := if Tier(s, inp).Pick? then 0.0 else Peak(s, inp),
      previousTrafficMode := inp.trafficModeActive,
      stoppedForLight := GreenLightGate(inp) && inp.planner.stopLightDetected,
      frame := s.frame + TICK)
  }

  /** What one tick emits, starting from the empty event list and the store log `w`. */
  function Emit(s: EngineState, inp: Inputs, w: seq<StoreOp>): Emission {
    var random := RandomRules(Emission(Notices([], s, inp), Expire(w, s)), s, inp);
    Emission(Statuses(random.events, s, inp), random.writes)
  }

  /** The result of one tick: the next state, the events, and the store writes. */
  datatype StepOut = StepOut(next: EngineState, events: seq<EventName>, writes: seq<StoreOp>)

  function Step(s: EngineState, inp: Inputs): StepOut {
    var e := Emit(s, inp, []);
    StepOut(StepState(s, inp), e.events, e.writes)
  }
}
