/**
 * The event engine as the source writes it: an object whose `Update` clears
 * the event list and then, rule by rule, appends events and updates its
 * latches, cooldown, running peak, edge-detector snapshots and clock in
 * place. Writes to the shared memory store are recorded in a ghost log.
 *
 * Every method is proved to perform its rule of `EventRules`; `Update` is
 * then proved to agree with `EventSpec.Step`, whose properties are proved
 * in `EventFacts`, `TickProperties` and `EventTraces`.
 */
module Engine {
  import opened EventTypes
  import opened EventSpec
  import opened EventRules
  import EventFacts

  class FrogPilotEvents {
    /** The events of the latest tick (`self.events`). */
    var events: seq<EventName>
    /** The eleven one-shot `*_played` flags. */
    var played: Latches
    var previousTrafficMode: bool
    var randomEventPlayed: bool
    var stoppedForLight: bool
    /** Session clock, hundredths of a second. */
    var frame: nat
    var maxAcceleration: real
    /** Cooldown timer, hundredths of a second. */
    var randomEventTimer: nat

    /** Every write made to the `CurrentRandomEvent` key of the memory store, oldest first. */
    ghost var storeLog: seq<StoreOp>

    /** The object as a value. */
    ghost function Snapshot(): Machine
      reads this
    {
      Machine(events, storeLog, played, randomEventPlayed, randomEventTimer, maxAcceleration,
              previousTrafficMode, stoppedForLight, frame)
    }

    /** The abstract session state held by the fields. */
    ghost function State(): EngineState
      reads this
    {
      StateOf(Snapshot())
    }

    ghost predicate Valid()
      reads this
    {
      EventSpec.Valid(State())
    }

    constructor ()
      ensures Valid() && State() == Init()
      ensures events == [] && storeLog == []
    {
      events := [];
      played := NonePlayed;
      previousTrafficMode, randomEventPlayed, stoppedForLight := false, false, false;
      frame, maxAcceleration, randomEventTimer := 0, 0.0, 0;
      storeLog := [];
    }

    /** One control-loop tick (`update`): its segments, in source order. */
    method Update(inp: Inputs)
      requires Valid()
      modifies this
      ensures Valid()
      ensures State() == Step(old(State()), inp).next
      ensures events == Step(old(State()), inp).events
      ensures storeLog == old(storeLog) + Step(old(State()), inp).writes
    {
      events := [];
      AdvanceCooldown();
      AddNotices(inp);
      FireRandomEvents(inp);
      AddStatusEvents(inp);
      assert Snapshot() == Tick(old(Snapshot()), inp);
      TickIsStep(old(Snapshot()), inp);
      EventFacts.StepPreservesValid(old(State()), inp);
    }

    /** The cooldown check at the head of `update`. */
    method AdvanceCooldown()
      modifies this`randomEventPlayed, this`randomEventTimer, this`storeLog
      ensures Snapshot() == CooldownRule(old(Snapshot()))
    {
      if randomEventPlayed {
        randomEventTimer := randomEventTimer + TICK;
        if randomEventTimer >= COOLDOWN {
          randomEventPlayed := false;
          randomEventTimer := 0;
          storeLog := storeLog + [RemoveCurrentRandomEvent];
        }
      }
    }

    // -------------------------------------------------------------------
    // The notices

    method AddNotices(inp: Inputs)
      modifies this`events, this`stoppedForLight, this`played
      ensures Snapshot() == NoticeRules(old(Snapshot()), inp)
    {
      AddForcingStop(inp);
      UpdateGreenLight(inp);
      AddHoliday(inp);
      AddLeadDeparting(inp);
      AddCrashNotice(inp);
    }

    method AddForcingStop(inp: Inputs)
      modifies this`events
      ensures Snapshot() == ForcingStopRule(old(Snapshot()), inp)
    {
      if inp.planner.forcingStop {
        events := events + [ForcingStop];
      }
    }

    /** The green-light alert and its stopped-for-light snapshot. */
    method UpdateGreenLight(inp: Inputs)
      modifies this`events, this`stoppedForLight
      ensures Snapshot() == GreenLightRule(old(Snapshot()), inp)
    {
      if inp.toggles.greenLightAlert && !inp.planner.trackingLead && inp.carState.standstill {
        if !inp.planner.modelStopped && stoppedForLight {
          events := events + [GreenLight];
        }
        stoppedForLight := inp.planner.stopLightDetected;
      } else {
        stoppedForLight := false;
      }
    }

    method AddHoliday(inp: Inputs)
      modifies this`events, this`played
      ensures Snapshot() == HolidayRule(old(Snapshot()), inp)
    {
      if !played.holidayTheme && inp.toggles.currentHolidayTheme != 0 && frame >= HOLIDAY_DELAY {
        events := events + [HolidayActive];
        played := Mark(played, HolidayThemePlayed);
      }
    }

    method AddLeadDeparting(inp: Inputs)
      modifies this`events
      ensures Snapshot() == LeadDepartingRule(old(Snapshot()), inp)
    {
      if inp.planner.leadDeparting {
        events := events + [LeadDeparting];
      }
    }

    method AddCrashNotice(inp: Inputs)
      modifies this`events, this`played
      ensures Snapshot() == CrashRule(old(Snapshot()), inp)
    {
      if !played.openpilotCrashed && inp.env.crashFilePresent {
        if inp.toggles.randomEvents {
          events := events + [OpenpilotCrashedRandomEvent];
        } else {
          events := events + [OpenpilotCrashed];
        }
        played := Mark(played, OpenpilotCrashedPlayed);
      }
    }

    // -------------------------------------------------------------------
    // The random events

    /** The random-event block, entered when no cooldown is active and random events are on. */
    method FireRandomEvents(inp: Inputs)
      modifies this`events, this`storeLog, this`played, this`randomEventPlayed, this`maxAcceleration
      ensures Snapshot() == RandomBlockRule(old(Snapshot()), inp)
    {
      if !randomEventPlayed && inp.toggles.randomEvents {
        TrackPeak(inp);
        FireAccelerationTier(inp);
        FireDejaVu(inp);
        FireNoEntry(inp);
        ArbitrateSteerSaturated(inp);
        FireVCruise69(inp);
        FireFcw(inp);
      }
    }

    /** The running peak of the acceleration. */
    method TrackPeak(inp: Inputs)
      modifies this`maxAcceleration
      ensures Snapshot() == PeakRule(old(Snapshot()), inp)
    {
      var acceleration := inp.carState.aEgo;
      if !inp.carState.gasPressed {
        maxAcceleration := Max(acceleration, maxAcceleration);
      } else {
        maxAcceleration := 0.0;
      }
    }

    /** The three acceleration tiers, an `elif` chain. */
    method FireAccelerationTier(inp: Inputs)
      modifies this`events, this`storeLog, this`played, this`randomEventPlayed, this`maxAcceleration
      ensures Snapshot() == TierRule(old(Snapshot()), inp)
    {
      var acceleration := inp.carState.aEgo;
      if !played.accel30 && 3.5 > maxAcceleration >= 3.0 && acceleration < 1.5 {
        events := events + [Accel30];
        storeLog := storeLog + [PutCurrentRandomEvent(2)];
        played := Mark(played, Accel30Played);
        randomEventPlayed := true;
        maxAcceleration := 0.0;
      } else if !played.accel35 && 4.0 > maxAcceleration >= 3.5 && acceleration < 1.5 {
        events := events + [Accel35];
        storeLog := storeLog + [PutCurrentRandomEvent(3)];
        played := Mark(played, Accel35Played);
        randomEventPlayed := true;
        maxAcceleration := 0.0;
      } else if !played.accel40 && maxAcceleration >= 4.0 && acceleration < 1.5 {
        events := events + [Accel40];
        storeLog := storeLog + [PutCurrentRandomEvent(4)];
        played := Mark(played, Accel40Played);
        randomEventPlayed := true;
        maxAcceleration := 0.0;
      }
    }

    /** The curve-taken-quickly rule. */
    method FireDejaVu(inp: Inputs)
      modifies this`events, this`storeLog, this`played, this`randomEventPlayed
      ensures Snapshot() == DejaVuRule(old(Snapshot()), inp)
    {
      if !played.dejaVu && inp.planner.takingCurveQuickly {
        events := events + [DejaVuCurve];
        storeLog := storeLog + [PutCurrentRandomEvent(5)];
        played := Mark(played, DejaVuPlayed);
        randomEventPlayed := true;
      }
    }

    /** The no-entry rule. */
    method FireNoEntry(inp: Inputs)
      modifies this`events, this`played, this`randomEventPlayed
      ensures Snapshot() == NoEntryRule(old(Snapshot()), inp)
    {
      if !played.noEntryAlert && inp.carControl.noEntryEventTriggered {
        events := events + [Hal9000];
        played := Mark(played, NoEntryAlertPlayed);
        randomEventPlayed := true;
      }
    }

    /** The steer-saturation arbiter: a random pick among the variants not yet played. */
    method ArbitrateSteerSaturated(inp: Inputs)
      modifies this`events, this`storeLog, this`played, this`randomEventPlayed
      ensures Snapshot() == SteerRule(old(Snapshot()), inp)
    {
      if inp.carControl.steerSaturatedEventTriggered {
        var eventChoices: seq<int> := [];
        if !played.firefox {
          eventChoices := eventChoices + [1];
        }
        if !played.goat {
          eventChoices := eventChoices + [2];
        }
        assert eventChoices == EventChoices(played);

        if |eventChoices| > 0 && frame % (100 * (100 / |eventChoices|)) == 0 {
          var eventChoice := eventChoices[inp.env.randomDraw % |eventChoices|];
          if eventChoice == 1 {
            events := events + [FirefoxSteerSaturated];
            storeLog := storeLog + [PutCurrentRandomEvent(1)];
            played := Mark(played, FirefoxPlayed);
          } else if eventChoice == 2 {
            events := events + [GoatSteerSaturated];
            played := Mark(played, GoatPlayed);
          }
          randomEventPlayed := true;
        }
      }
    }

    /** The cruise-speed rule: the displayed set speed lies in [69, 70). */
    method FireVCruise69(inp: Inputs)
      modifies this`events, this`played, this`randomEventPlayed
      ensures Snapshot() == VCruise69Rule(old(Snapshot()), inp)
    {
      if !played.vCruise69 && 70.0 > DisplaySpeed(inp.vCruise, inp.toggles.isMetric) >= 69.0 {
        events := events + [VCruise69];
        played := Mark(played, VCruise69Played);
        randomEventPlayed := true;
      }
    }

    /** The forward-collision-warning rule. */
    method FireFcw(inp: Inputs)
      modifies this`events, this`played, this`randomEventPlayed
      ensures Snapshot() == FcwRule(old(Snapshot()), inp)
    {
      if !played.fcw && inp.carControl.fcwEventTriggered {
        events := events + [YourFrogTriedToKillMe];
        played := Mark(played, FcwPlayed);
        randomEventPlayed := true;
      }
    }

    // -------------------------------------------------------------------
    // The status events and the clock

    method AddStatusEvents(inp: Inputs)
      modifies this`events, this`previousTrafficMode, this`frame
      ensures Snapshot() == StatusRules(old(Snapshot()), inp)
    {
      AddSpeedLimitChanged(inp);
      AddTorqueNNLoad(inp);
      UpdateTrafficMode(inp);
      AddTurn(inp);
      frame := frame + TICK;
    }

    method AddSpeedLimitChanged(inp: Inputs)
      modifies this`events
      ensures Snapshot() == SpeedLimitRule(old(Snapshot()), inp)
    {
      if inp.toggles.speedLimitAlert && inp.env.speedLimitChanged {
        events := events + [SpeedLimitChanged];
      }
    }

    method AddTorqueNNLoad(inp: Inputs)
      modifies this`events
      ensures Snapshot() == TorqueNNRule(old(Snapshot()), inp)
    {
      if frame == NN_LOAD_FRAME && inp.env.nnffModelNameSet {
        events := events + [TorqueNNLoad];
      }
    }

    /** The traffic-mode edge detector. */
    method UpdateTrafficMode(inp: Inputs)
      modifies this`events, this`previousTrafficMode
      ensures Snapshot() == TrafficModeRule(old(Snapshot()), inp)
    {
      if inp.trafficModeActive != previousTrafficMode {
        if previousTrafficMode {
          events := events + [TrafficModeInactive];
        } else {
          events := events + [TrafficModeActive];
        }
        previousTrafficMode := inp.trafficModeActive;
      }
    }

    method AddTurn(inp: Inputs)
      modifies this`events
      ensures Snapshot() == TurnRule(old(Snapshot()), inp)
    {
      if inp.turnDirection == TurnLeft {
        events := events + [TurningLeft];
      } else if inp.turnDirection == TurnRight {
        events := events + [TurningRight];
      }
    }
  }
}
