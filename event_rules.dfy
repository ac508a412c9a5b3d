/**
 * The rules of one tick in the order and form the source evaluates them:
 * each rule reads the machine as the previous rule left it and returns
 * the machine after its own `if` block. `Tick` chains them.
 *
 * `TickIsStep` proves that the chain computes `EventSpec.Step`, the
 * closed form in which every rule is a function of the state at the start
 * of the tick.
 */
module EventRules {
  import opened EventTypes
  import opened EventSpec
  import EventFacts

  /** The object as a value: its fields, and the log of its writes to the memory store. */
  datatype Machine = Machine(
    events: seq<EventName>,
    log: seq<StoreOp>,
    played: Latches,
    randomEventPlayed: bool,
    randomEventTimer: nat,
    maxAcceleration: real,
    previousTrafficMode: bool,
    stoppedForLight: bool,
    frame: nat)

  /** The session state held by a machine. */
  function StateOf(m: Machine): EngineState {
    EngineState(m.played, m.randomEventPlayed, m.randomEventTimer, m.maxAcceleration,
                m.previousTrafficMode, m.stoppedForLight, m.frame)
  }

  /**
   * Play the random event of latch `l`: append its event, write its store
   * code if it has one, set the latch and start the cooldown.
   */
  function Play(m: Machine, l: Latch): Machine {
    m.(randomEventPlayed := true, played := Mark(m.played, l),
       events := m.events + [Announcement(l)],
       log := if StoreCode(l) > 0 then m.log + [PutCurrentRandomEvent(StoreCode(l))] else m.log)
  }

  /** Play an acceleration tier, which also resets the running peak. */
  function PlayTier(m: Machine, l: Latch): Machine {
    Play(m, l).(maxAcceleration := 0.0)
  }

  function PlayIf(m: Machine, c: bool, l: Latch): Machine {
    if c then Play(m, l) else m
  }

  function PlayPick(m: Machine, p: Pick): Machine {
    match p
    case Nothing => m
    case Pick(l) => Play(m, l)
  }

  // ---------------------------------------------------------------------
  // Lines 40-71

  function ClearRule(m: Machine): Machine {
    m.(events := [])
  }

  function CooldownRule(m: Machine): Machine {
    if m.randomEventPlayed then
      var timer := m.randomEventTimer + TICK;
      if timer >= COOLDOWN then
        m.(randomEventPlayed := false, randomEventTimer := 0,
           log := m.log + [RemoveCurrentRandomEvent])
      else m.(randomEventTimer := timer)
    else m
  }

  function ForcingStopRule(m: Machine, inp: Inputs): Machine {
    if inp.planner.forcingStop then m.(events := m.events + [ForcingStop]) else m
  }

  function GreenLightRule(m: Machine, inp: Inputs): Machine {
    if inp.toggles.greenLightAlert && !inp.planner.trackingLead && inp.carState.standstill then
      var m1 := if !inp.planner.modelStopped && m.stoppedForLight then m.(events := m.events + [GreenLight]) else m;
      m1.(stoppedForLight := inp.planner.stopLightDetected)
    else m.(stoppedForLight := false)
  }

  function HolidayRule(m: Machine, inp: Inputs): Machine {
    if !m.played.holidayTheme && inp.toggles.currentHolidayTheme != 0 && m.frame >= HOLIDAY_DELAY then
      m.(events := m.events + [HolidayActive], played := Mark(m.played, HolidayThemePlayed))
    else m
  }

  function LeadDepartingRule(m: Machine, inp: Inputs): Machine {
    if inp.planner.leadDeparting then m.(events := m.events + [LeadDeparting]) else m
  }

  function CrashRule(m: Machine, inp: Inputs): Machine {
    if !m.played.openpilotCrashed && inp.env.crashFilePresent then
      var notice := if inp.toggles.randomEvents then OpenpilotCrashedRandomEvent else OpenpilotCrashed;
      m.(events := m.events + [notice], played := Mark(m.played, OpenpilotCrashedPlayed))
    else m
  }

  // ---------------------------------------------------------------------
  // Lines 73-139

  function PeakRule(m: Machine, inp: Inputs): Machine {
    var acceleration := inp.carState.aEgo;
    if !inp.carState.gasPressed then m.(maxAcceleration := Max(acceleration, m.maxAcceleration))
    else m.(maxAcceleration := 0.0)
  }

  function TierRule(m: Machine, inp: Inputs): Machine {
    var acceleration := inp.carState.aEgo;
    var peak := m.maxAcceleration;
    var p := m.played;
    if !p.accel30 && 3.5 > peak >= 3.0 && acceleration < 1.5 then PlayTier(m, Accel30Played)
    else if !p.accel35 && 4.0 > peak >= 3.5 && acceleration < 1.5 then PlayTier(m, Accel35Played)
    else if !p.accel40 && peak >= 4.0 && acceleration < 1.5 then PlayTier(m, Accel40Played)
    else m
  }

  function DejaVuRule(m: Machine, inp: Inputs): Machine {
    if !m.played.dejaVu && inp.planner.takingCurveQuickly then Play(m, DejaVuPlayed) else m
  }

  function NoEntryRule(m: Machine, inp: Inputs): Machine {
    if !m.played.noEntryAlert && inp.carControl.noEntryEventTriggered then Play(m, NoEntryAlertPlayed) else m
  }

  /** The codes of the steer-saturation variants still available: 1 for firefox, 2 for goat. */
  function EventChoices(p: Latches): seq<int> {
    (if !p.firefox then [1] else []) + (if !p.goat then [2] else [])
  }

  function SteerRule(m: Machine, inp: Inputs): Machine {
    var eventChoices := EventChoices(m.played);
    if inp.carControl.steerSaturatedEventTriggered && |eventChoices| > 0
       && m.frame % (100 * (100 / |eventChoices|)) == 0 then
      var eventChoice := eventChoices[inp.env.randomDraw % |eventChoices|];
      if eventChoice == 1 then Play(m, FirefoxPlayed)
      else if eventChoice == 2 then Play(m, GoatPlayed)
      else m.(randomEventPlayed := true)
    else m
  }

  function VCruise69Rule(m: Machine, inp: Inputs): Machine {
    if !m.played.vCruise69 && 70.0 > DisplaySpeed(inp.vCruise, inp.toggles.isMetric) >= 69.0
    then Play(m, VCruise69Played) else m
  }

  function FcwRule(m: Machine, inp: Inputs): Machine {
    if !m.played.fcw && inp.carControl.fcwEventTriggered then Play(m, FcwPlayed) else m
  }

  /** The first random rules: peak tracker, acceleration tiers, fast curve, no-entry. */
  function EarlyRandomBlock(m: Machine, inp: Inputs): Machine {
    var m1 := PeakRule(m, inp);
    var m2 := TierRule(m1, inp);
    var m3 := DejaVuRule(m2, inp);
    NoEntryRule(m3, inp)
  }

  /** The last random rules: steer-saturation arbiter, cruise speed 69, FCW. */
  function LateRandomBlock(m: Machine, inp: Inputs): Machine {
    var m1 := SteerRule(m, inp);
    var m2 := VCruise69Rule(m1, inp);
    FcwRule(m2, inp)
  }

  /** The random-event block, entered when no cooldown is active and random events are on. */
  function RandomBlockRule(m: Machine, inp: Inputs): Machine {
    if !m.randomEventPlayed && inp.toggles.randomEvents then LateRandomBlock(EarlyRandomBlock(m, inp), inp)
    else m
  }

  // ---------------------------------------------------------------------
  // Lines 141-159

  function SpeedLimitRule(m: Machine, inp: Inputs): Machine {
    if inp.toggles.speedLimitAlert && inp.env.speedLimitChanged then m.(events := m.events + [SpeedLimitChanged]) else m
  }

  function TorqueNNRule(m: Machine, inp: Inputs): Machine {
    if m.frame == NN_LOAD_FRAME && inp.env.nnffModelNameSet then m.(events := m.events + [TorqueNNLoad]) else m
  }

  function TrafficModeRule(m: Machine, inp: Inputs): Machine {
    if inp.trafficModeActive != m.previousTrafficMode then
      var e := if m.previousTrafficMode then TrafficModeInactive else TrafficModeActive;
      m.(events := m.events + [e], previousTrafficMode := inp.trafficModeActive)
    else m
  }

  function TurnRule(m: Machine, inp: Inputs): Machine {
    if inp.turnDirection == TurnLeft then m.(events := m.events + [TurningLeft])
    else if inp.turnDirection == TurnRight then m.(events := m.events + [TurningRight])
    else m
  }

  function ClockRule(m: Machine): Machine {
    m.(frame := m.frame + TICK)
  }

  // ---------------------------------------------------------------------
  // One tick

  function NoticeRules(m: Machine, inp: Inputs): Machine {
    var m1 := ForcingStopRule(m, inp);
    var m2 := GreenLightRule(m1, inp);
    var m3 := HolidayRule(m2, inp);
    var m4 := LeadDepartingRule(m3, inp);
    CrashRule(m4, inp)
  }

  function StatusRules(m: Machine, inp: Inputs): Machine {
    var m1 := SpeedLimitRule(m, inp);
    var m2 := TorqueNNRule(m1, inp);
    var m3 := TrafficModeRule(m2, inp);
    var m4 := TurnRule(m3, inp);
    ClockRule(m4)
  }

  /** `update`: every rule, in source order. */
  function Tick(m: Machine, inp: Inputs): Machine {
    var m1 := CooldownRule(ClearRule(m));
    var m2 := NoticeRules(m1, inp);
    var m3 := RandomBlockRule(m2, inp);
    StatusRules(m3, inp)
  }

  // ---------------------------------------------------------------------
  // The rules compute the closed form

  function Emitted(m: Machine): Emission {
    Emission(m.events, m.log)
  }

  // One rule at a time: each rule, run on a machine that agrees with the
  // state `s` at the start of the tick on what the rule reads, does
  // what the closed form says.

  lemma ForcingStopStep(m: Machine, inp: Inputs)
    ensures ForcingStopRule(m, inp) == m.(events := AddIf(m.events, inp.planner.forcingStop, ForcingStop))
  {
  }

  lemma GreenLightStep(m: Machine, s: EngineState, inp: Inputs)
    requires m.stoppedForLight == s.stoppedForLight
    ensures GreenLightRule(m, inp)
            == m.(events := AddIf(m.events, FiresGreenLight(s, inp), GreenLight),
                  stoppedForLight := GreenLightGate(inp) && inp.planner.stopLightDetected)
  {
  }

  lemma HolidayStep(m: Machine, s: EngineState, inp: Inputs)
    requires m.played.holidayTheme == s.played.holidayTheme && m.frame == s.frame
    ensures HolidayRule(m, inp)
            == m.(events := AddIf(m.events, FiresHoliday(s, inp), HolidayActive),
                  played := SetIf(m.played, FiresHoliday(s, inp), HolidayThemePlayed))
  {
  }

  lemma LeadDepartingStep(m: Machine, inp: Inputs)
    ensures LeadDepartingRule(m, inp) == m.(events := AddIf(m.events, inp.planner.leadDeparting, LeadDeparting))
  {
  }

  lemma CrashStep(m: Machine, s: EngineState, inp: Inputs)
    requires m.played.openpilotCrashed == s.played.openpilotCrashed
    ensures CrashRule(m, inp)
            == m.(events := AddIf(m.events, FiresCrash(s, inp), CrashNotice(inp)),
                  played := SetIf(m.played, FiresCrash(s, inp), OpenpilotCrashedPlayed))
  {
  }

  lemma PeakStep(m: Machine, s: EngineState, inp: Inputs)
    requires RandomGate(s, inp) && m.maxAcceleration == s.maxAcceleration
    ensures PeakRule(m, inp) == m.(maxAcceleration := Peak(s, inp))
  {
  }

  lemma TierStep(m: Machine, s: EngineState, inp: Inputs)
    requires RandomGate(s, inp) && m.maxAcceleration == Peak(s, inp)
    requires m.played.accel30 == s.played.accel30 && m.played.accel35 == s.played.accel35
    requires m.played.accel40 == s.played.accel40
    ensures TierRule(m, inp)
            == PlayPick(m, Tier(s, inp)).(maxAcceleration := if Tier(s, inp).Pick? then 0.0 else Peak(s, inp))
    ensures TierRule(m, inp).played.dejaVu == m.played.dejaVu
    ensures TierRule(m, inp).played.noEntryAlert == m.played.noEntryAlert
  {
  }

  lemma DejaVuStep(m: Machine, s: EngineState, inp: Inputs)
    requires RandomGate(s, inp) && m.played.dejaVu == s.played.dejaVu
    ensures DejaVuRule(m, inp) == PlayIf(m, FiresDejaVu(s, inp), DejaVuPlayed)
    ensures DejaVuRule(m, inp).played.noEntryAlert == m.played.noEntryAlert
  {
  }

  lemma NoEntryStep(m: Machine, s: EngineState, inp: Inputs)
    requires RandomGate(s, inp) && m.played.noEntryAlert == s.played.noEntryAlert
    ensures NoEntryRule(m, inp) == PlayIf(m, FiresNoEntry(s, inp), NoEntryAlertPlayed)
  {
  }

  lemma SteerRuleIsSteer(m: Machine, s: EngineState, inp: Inputs)
    requires RandomGate(s, inp) && m.frame == s.frame
    requires m.played.firefox == s.played.firefox && m.played.goat == s.played.goat
    ensures SteerRule(m, inp) == PlayPick(m, Steer(s, inp))
    ensures SteerRule(m, inp).played.vCruise69 == m.played.vCruise69
    ensures SteerRule(m, inp).played.fcw == m.played.fcw
  {
    var eventChoices, choices := EventChoices(m.played), SteerChoices(s.played);
    assert |eventChoices| == |choices|;
    assert forall i :: 0 <= i < |choices| ==>
      (eventChoices[i] == 1 <==> choices[i] == FirefoxPlayed) && (eventChoices[i] == 2 <==> choices[i] == GoatPlayed);
  }

  lemma VCruise69Step(m: Machine, s: EngineState, inp: Inputs)
    requires RandomGate(s, inp) && m.played.vCruise69 == s.played.vCruise69
    ensures VCruise69Rule(m, inp) == PlayIf(m, FiresVCruise69(s, inp), VCruise69Played)
    ensures VCruise69Rule(m, inp).played.fcw == m.played.fcw
  {
  }

  lemma FcwStep(m: Machine, s: EngineState, inp: Inputs)
    requires RandomGate(s, inp) && m.played.fcw == s.played.fcw
    ensures FcwRule(m, inp) == PlayIf(m, FiresFcw(s, inp), FcwPlayed)
  {
  }

  lemma SpeedLimitStep(m: Machine, inp: Inputs)
    ensures SpeedLimitRule(m, inp)
            == m.(events := AddIf(m.events, inp.toggles.speedLimitAlert && inp.env.speedLimitChanged, SpeedLimitChanged))
  {
  }

  lemma TorqueNNStep(m: Machine, s: EngineState, inp: Inputs)
    requires m.frame == s.frame
    ensures TorqueNNRule(m, inp)
            == m.(events := AddIf(m.events, s.frame == NN_LOAD_FRAME && inp.env.nnffModelNameSet, TorqueNNLoad))
  {
  }

  lemma TrafficModeStep(m: Machine, s: EngineState, inp: Inputs)
    requires m.previousTrafficMode == s.previousTrafficMode
    ensures TrafficModeRule(m, inp)
            == m.(events := AddIf(m.events, TrafficEdge(s, inp), TrafficNotice(s)),
                  previousTrafficMode := inp.trafficModeActive)
  {
  }

  lemma TurnStep(m: Machine, inp: Inputs)
    ensures TurnRule(m, inp)
            == m.(events := AddIf(AddIf(m.events, inp.turnDirection == TurnLeft, TurningLeft),
                                  inp.turnDirection == TurnRight, TurningRight))
  {
  }

  // What playing a latch does to each part of the machine.

  lemma PlayIfParts(m: Machine, c: bool, l: Latch)
    ensures Emitted(PlayIf(m, c, l)) == FireIf(Emitted(m), c, l)
    ensures PlayIf(m, c, l).played == SetIf(m.played, c, l)
    ensures PlayIf(m, c, l).randomEventPlayed == (m.randomEventPlayed || c)
    ensures PlayIf(m, c, l).randomEventTimer == m.randomEventTimer
    ensures PlayIf(m, c, l).maxAcceleration == m.maxAcceleration
    ensures PlayIf(m, c, l).previousTrafficMode == m.previousTrafficMode
    ensures PlayIf(m, c, l).stoppedForLight == m.stoppedForLight
    ensures PlayIf(m, c, l).frame == m.frame
  {
  }

  lemma PlayPickParts(m: Machine, p: Pick)
    ensures Emitted(PlayPick(m, p)) == FirePick(Emitted(m), p)
    ensures PlayPick(m, p).played == SetPick(m.played, p)
    ensures PlayPick(m, p).randomEventPlayed == (m.randomEventPlayed || p.Pick?)
    ensures PlayPick(m, p).randomEventTimer == m.randomEventTimer
    ensures PlayPick(m, p).maxAcceleration == m.maxAcceleration
    ensures PlayPick(m, p).previousTrafficMode == m.previousTrafficMode
    ensures PlayPick(m, p).stoppedForLight == m.stoppedForLight
    ensures PlayPick(m, p).frame == m.frame
  {
  }

  // The stages of a tick.

  lemma CooldownStage(m: Machine)
    ensures CooldownRule(ClearRule(m))
            == m.(events := [], log := Expire(m.log, StateOf(m)),
                  randomEventPlayed := Cooldown(StateOf(m)).active,
                  randomEventTimer := Cooldown(StateOf(m)).timer)
  {
  }

  lemma NoticeStage(m: Machine, s: EngineState, inp: Inputs)
    requires m.played == s.played && m.stoppedForLight == s.stoppedForLight && m.frame == s.frame
    ensures NoticeRules(m, inp)
            == m.(events := Notices(m.events, s, inp),
                  stoppedForLight := GreenLightGate(inp) && inp.planner.stopLightDetected,
                  played := NoticeLatches(m.played, s, inp))
  {
    ForcingStopStep(m, inp);
    var m1 := ForcingStopRule(m, inp);
    GreenLightStep(m1, s, inp);
    var m2 := GreenLightRule(m1, inp);
    HolidayStep(m2, s, inp);
    var m3 := HolidayRule(m2, inp);
    LeadDepartingStep(m3, inp);
    var m4 := LeadDepartingRule(m3, inp);
    CrashStep(m4, s, inp);
  }

  lemma EarlyStage(m: Machine, s: EngineState, inp: Inputs)
    requires RandomGate(s, inp) && m.maxAcceleration == s.maxAcceleration
    requires m.played.accel30 == s.played.accel30 && m.played.accel35 == s.played.accel35
    requires m.played.accel40 == s.played.accel40 && m.played.dejaVu == s.played.dejaVu
    requires m.played.noEntryAlert == s.played.noEntryAlert
    ensures Emitted(EarlyRandomBlock(m, inp)) == EarlyRandomRules(Emitted(m), s, inp)
    ensures EarlyRandomBlock(m, inp).played == EarlyRandomLatches(m.played, s, inp)
    ensures EarlyRandomBlock(m, inp).randomEventPlayed == (m.randomEventPlayed || EarlyRandomFires(s, inp))
    ensures EarlyRandomBlock(m, inp).maxAcceleration == if Tier(s, inp).Pick? then 0.0 else Peak(s, inp)
    ensures EarlyRandomBlock(m, inp).randomEventTimer == m.randomEventTimer
    ensures EarlyRandomBlock(m, inp).previousTrafficMode == m.previousTrafficMode
    ensures EarlyRandomBlock(m, inp).stoppedForLight == m.stoppedForLight
    ensures EarlyRandomBlock(m, inp).frame == m.frame
  {
    PeakStep(m, s, inp);
    var m1 := PeakRule(m, inp);
    TierStep(m1, s, inp);
    PlayPickParts(m1, Tier(s, inp));
    var m2 := TierRule(m1, inp);
    DejaVuStep(m2, s, inp);
    PlayIfParts(m2, FiresDejaVu(s, inp), DejaVuPlayed);
    var m3 := DejaVuRule(m2, inp);
    NoEntryStep(m3, s, inp);
    PlayIfParts(m3, FiresNoEntry(s, inp), NoEntryAlertPlayed);
  }

  lemma LateStage(m: Machine, s: EngineState, inp: Inputs)
    requires RandomGate(s, inp) && m.frame == s.frame
    requires m.played.firefox == s.played.firefox && m.played.goat == s.played.goat
    requires m.played.vCruise69 == s.played.vCruise69 && m.played.fcw == s.played.fcw
    ensures Emitted(LateRandomBlock(m, inp)) == LateRandomRules(Emitted(m), s, inp)
    ensures LateRandomBlock(m, inp).played == LateRandomLatches(m.played, s, inp)
    ensures LateRandomBlock(m, inp).randomEventPlayed == (m.randomEventPlayed || LateRandomFires(s, inp))
    ensures LateRandomBlock(m, inp).maxAcceleration == m.maxAcceleration
    ensures LateRandomBlock(m, inp).randomEventTimer == m.randomEventTimer
    ensures LateRandomBlock(m, inp).previousTrafficMode == m.previousTrafficMode
    ensures LateRandomBlock(m, inp).stoppedForLight == m.stoppedForLight
    ensures LateRandomBlock(m, inp).frame == m.frame
  {
    SteerRuleIsSteer(m, s, inp);
    PlayPickParts(m, Steer(s, inp));
    var m1 := SteerRule(m, inp);
    VCruise69Step(m1, s, inp);
    PlayIfParts(m1, FiresVCruise69(s, inp), VCruise69Played);
    var m2 := VCruise69Rule(m1, inp);
    FcwStep(m2, s, inp);
    PlayIfParts(m2, FiresFcw(s, inp), FcwPlayed);
  }

  /** The random block, entered or skipped, emits `RandomRules` and sets the random latches. */
  lemma RandomStage(m: Machine, s: EngineState, inp: Inputs)
    requires m.randomEventPlayed == Cooldown(s).active && m.maxAcceleration == s.maxAcceleration
    requires m.frame == s.frame && m.played == NoticeLatches(s.played, s, inp)
    ensures Emitted(RandomBlockRule(m, inp)) == RandomRules(Emitted(m), s, inp)
    ensures RandomBlockRule(m, inp).played == LateRandomLatches(EarlyRandomLatches(m.played, s, inp), s, inp)
    ensures RandomBlockRule(m, inp).randomEventPlayed == (Cooldown(s).active || AnyRandomFires(s, inp))
    ensures RandomBlockRule(m, inp).maxAcceleration == if Tier(s, inp).Pick? then 0.0 else Peak(s, inp)
    ensures RandomBlockRule(m, inp).randomEventTimer == m.randomEventTimer
    ensures RandomBlockRule(m, inp).previousTrafficMode == m.previousTrafficMode
    ensures RandomBlockRule(m, inp).stoppedForLight == m.stoppedForLight
    ensures RandomBlockRule(m, inp).frame == m.frame
  {
    if RandomGate(s, inp) {
      EventFacts.NoticeLatchesKeepRandom(s.played, s, inp);
      EarlyStage(m, s, inp);
      EventFacts.EarlyLatchesKeepLate(m.played, s, inp);
      LateStage(EarlyRandomBlock(m, inp), s, inp);
    } else {
      EventFacts.GateClosed(Emitted(m), m.played, s, inp);
    }
  }

  lemma StatusStage(m: Machine, s: EngineState, inp: Inputs)
    requires m.previousTrafficMode == s.previousTrafficMode && m.frame == s.frame
    ensures StatusRules(m, inp)
            == m.(events := Statuses(m.events, s, inp), previousTrafficMode := inp.trafficModeActive,
                  frame := s.frame + TICK)
  {
    SpeedLimitStep(m, inp);
    var m1 := SpeedLimitRule(m, inp);
    TorqueNNStep(m1, s, inp);
    var m2 := TorqueNNRule(m1, inp);
    TrafficModeStep(m2, s, inp);
    var m3 := TrafficModeRule(m2, inp);
    TurnStep(m3, inp);
  }

  /** One tick of the rules is one `Step`: the next state, the events, and the writes appended to the log. */
  lemma TickIsStep(m: Machine, inp: Inputs)
    ensures StateOf(Tick(m, inp)) == Step(StateOf(m), inp).next
    ensures Tick(m, inp).events == Step(StateOf(m), inp).events
    ensures Tick(m, inp).log == m.log + Step(StateOf(m), inp).writes
  {
    var s := StateOf(m);
    CooldownStage(m);
    var m1 := CooldownRule(ClearRule(m));
    NoticeStage(m1, s, inp);
    var m2 := NoticeRules(m1, inp);
    RandomStage(m2, s, inp);
    var m3 := RandomBlockRule(m2, inp);
    StatusStage(m3, s, inp);
    EventFacts.EmitFromLog(s, inp, m.log);
  }
}
