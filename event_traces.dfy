/**
 * Properties of whole sessions: a run of the engine over a sequence of
 * per-tick inputs, with the events it emits over its lifetime.
 */
module EventTraces {
  import opened EventTypes
  import opened EventSpec
  import opened EventFacts
  import opened TickProperties

  /** The state after feeding `inps` to an engine in state `s`, one tick per input. */
  function Run(s: EngineState, inps: seq<Inputs>): EngineState
    decreases |inps|
  {
    if |inps| == 0 then s else StepState(Run(s, inps[..|inps| - 1]), inps[|inps| - 1])
  }

  /** The events of the last tick of a non-empty run. */
  function LastEvents(s: EngineState, inps: seq<Inputs>): seq<EventName>
    requires |inps| > 0
  {
    Step(Run(s, inps[..|inps| - 1]), inps[|inps| - 1]).events
  }

  /** All events a run emits, tick after tick. */
  function SessionEvents(s: EngineState, inps: seq<Inputs>): seq<EventName>
    decreases |inps|
  {
    if |inps| == 0 then [] else SessionEvents(s, inps[..|inps| - 1]) + LastEvents(s, inps)
  }

  /** The number of ticks of a run on which latch `l` fires. */
  function FireCount(s: EngineState, inps: seq<Inputs>, l: Latch): nat
    decreases |inps|
  {
    if |inps| == 0 then 0
    else FireCount(s, inps[..|inps| - 1], l) + (if Fires(Run(s, inps[..|inps| - 1]), inps[|inps| - 1], l) then 1 else 0)
  }

  /** Every state a run reaches from a valid one is valid. */
  lemma {:induction false} RunValid(s: EngineState, inps: seq<Inputs>)
    requires Valid(s)
    ensures Valid(Run(s, inps))
    decreases |inps|
  {
    if |inps| > 0 {
      RunValid(s, inps[..|inps| - 1]);
      StepPreservesValid(Run(s, inps[..|inps| - 1]), inps[|inps| - 1]);
    }
  }

  /** The session clock counts the ticks of the run. */
  lemma {:induction false} RunClock(s: EngineState, inps: seq<Inputs>)
    ensures Run(s, inps).frame == s.frame + TICK * |inps|
    decreases |inps|
  {
    if |inps| > 0 {
      RunClock(s, inps[..|inps| - 1]);
    }
  }

  /** No latch is ever cleared. */
  lemma {:induction false} LatchesNeverReset(s: EngineState, inps: seq<Inputs>, l: Latch)
    ensures Played(s.played, l) ==> Played(Run(s, inps).played, l)
    decreases |inps|
  {
    if |inps| > 0 {
      LatchesNeverReset(s, inps[..|inps| - 1], l);
      LatchesMonotone(Run(s, inps[..|inps| - 1]), inps[|inps| - 1], l);
    }
  }

  /**
   * A latch fires on exactly one tick of a run if it ends set but started
   * clear, and on none otherwise; so at most once per session.
   */
  lemma {:induction false} FiresOnce(s: EngineState, inps: seq<Inputs>, l: Latch)
    ensures FireCount(s, inps, l) == if Played(Run(s, inps).played, l) && !Played(s.played, l) then 1 else 0
    decreases |inps|
  {
    if |inps| > 0 {
      var p := inps[..|inps| - 1];
      FiresOnce(s, p, l);
      LatchStep(Run(s, p), inps[|inps| - 1], l);
      LatchesNeverReset(s, p, l);
    }
  }

  lemma CountConcat(a: seq<EventName>, b: seq<EventName>, e: EventName)
    ensures Count(a + b, e) == Count(a, e) + Count(b, e)
  {
    assert multiset(a + b) == multiset(a) + multiset(b);
  }

  lemma LastAnnounced(s: EngineState, inps: seq<Inputs>, l: Latch)
    requires |inps| > 0 && l != OpenpilotCrashedPlayed
    ensures Count(LastEvents(s, inps), Announcement(l))
            == if Fires(Run(s, inps[..|inps| - 1]), inps[|inps| - 1], l) then 1 else 0
  {
    AnnouncedIffFires(Run(s, inps[..|inps| - 1]), inps[|inps| - 1], l);
  }

  /** A latch's event is emitted once on each tick the latch fires, and never otherwise. */
  lemma {:induction false} AnnouncedPerFiring(s: EngineState, inps: seq<Inputs>, l: Latch)
    requires l != OpenpilotCrashedPlayed
    ensures Count(SessionEvents(s, inps), Announcement(l)) == FireCount(s, inps, l)
    decreases |inps|
  {
    if |inps| > 0 {
      AnnouncedPerFiring(s, inps[..|inps| - 1], l);
      CountConcat(SessionEvents(s, inps[..|inps| - 1]), LastEvents(s, inps), Announcement(l));
      LastAnnounced(s, inps, l);
    }
  }

  /** Over a whole session each one-shot event is emitted at most once. */
  lemma AnnouncedAtMostOnce(s: EngineState, inps: seq<Inputs>, l: Latch)
    requires l != OpenpilotCrashedPlayed
    ensures Count(SessionEvents(s, inps), Announcement(l))
            == if Played(Run(s, inps).played, l) && !Played(s.played, l) then 1 else 0
  {
    AnnouncedPerFiring(s, inps, l);
    FiresOnce(s, inps, l);
  }

  /** Both flavours of the crash notice, counted together. */
  function CrashCount(es: seq<EventName>): nat {
    Count(es, OpenpilotCrashed) + Count(es, OpenpilotCrashedRandomEvent)
  }

  lemma CrashTick(ev: seq<EventName>, s: EngineState, inp: Inputs)
    requires EventsOf(ev, s, inp)
    ensures CrashCount(ev) == if Fires(s, inp, OpenpilotCrashedPlayed) then 1 else 0
  {
    CrashIn(ev, s, inp);
  }

  lemma LastCrash(s: EngineState, inps: seq<Inputs>)
    requires |inps| > 0
    ensures CrashCount(LastEvents(s, inps))
            == if Fires(Run(s, inps[..|inps| - 1]), inps[|inps| - 1], OpenpilotCrashedPlayed) then 1 else 0
  {
    StepObserved(Run(s, inps[..|inps| - 1]), inps[|inps| - 1]);
    CrashTick(LastEvents(s, inps), Run(s, inps[..|inps| - 1]), inps[|inps| - 1]);
  }

  lemma {:induction false} CrashPerFiring(s: EngineState, inps: seq<Inputs>)
    ensures CrashCount(SessionEvents(s, inps)) == FireCount(s, inps, OpenpilotCrashedPlayed)
    decreases |inps|
  {
    if |inps| > 0 {
      CrashPerFiring(s, inps[..|inps| - 1]);
      CountConcat(SessionEvents(s, inps[..|inps| - 1]), LastEvents(s, inps), OpenpilotCrashed);
      CountConcat(SessionEvents(s, inps[..|inps| - 1]), LastEvents(s, inps), OpenpilotCrashedRandomEvent);
      LastCrash(s, inps);
    }
  }

  /**
   * Over a session from construction, the crash notice is emitted once in
   * one flavour or the other exactly when the crash latch ends set, and
   * never otherwise.
   */
  lemma CrashNoticedOnce(inps: seq<Inputs>)
    ensures CrashCount(SessionEvents(Init(), inps)) == if Run(Init(), inps).played.openpilotCrashed then 1 else 0
  {
    CrashPerFiring(Init(), inps);
    FiresOnce(Init(), inps, OpenpilotCrashedPlayed);
    assert !Played(Init().played, OpenpilotCrashedPlayed);
  }

  /** While a cooldown runs undisturbed, its timer counts the ticks. */
  lemma {:induction false} CooldownRuns(s: EngineState, inps: seq<Inputs>)
    requires Valid(s) && s.randomEventPlayed && s.randomEventTimer + TICK * |inps| < COOLDOWN
    ensures Run(s, inps).randomEventPlayed
    ensures Run(s, inps).randomEventTimer == s.randomEventTimer + TICK * |inps|
    decreases |inps|
  {
    if |inps| > 0 {
      CooldownRuns(s, inps[..|inps| - 1]);
    }
  }

  /** A tick on which a random event fires starts a fresh cooldown. */
  lemma CooldownStarts(s: EngineState, inp: Inputs)
    requires Valid(s) && AnyRandomFires(s, inp)
    ensures StepState(s, inp).randomEventPlayed && StepState(s, inp).randomEventTimer == 0
    ensures Valid(StepState(s, inp))
  {
    StepPreservesValid(s, inp);
  }

  /**
   * For the 79 ticks that follow a random event, whatever the inputs, no
   * random-group event is emitted and nothing is written to the store.
   */
  lemma QuietAfterRandomEvent(s: EngineState, inp: Inputs, inps: seq<Inputs>, next: Inputs)
    requires Valid(s) && AnyRandomFires(s, inp) && TICK * (|inps| + 1) < COOLDOWN
    ensures var t := Step(Run(StepState(s, inp), inps), next);
            t.writes == [] && forall e :: IsRandomEvent(e) ==> e !in t.events
  {
    CooldownStarts(s, inp);
    CooldownRuns(StepState(s, inp), inps);
    var r := Run(StepState(s, inp), inps);
    forall e | IsRandomEvent(e)
      ensures e !in Step(r, next).events
    {
      CooldownSuppresses(r, next, e, HolidayThemePlayed);
    }
    CooldownSuppresses(r, next, HolidayActive, HolidayThemePlayed);
  }

  /** Four seconds after a random event, the tick removes `CurrentRandomEvent` before any other write. */
  lemma ClearedAfterCooldown(s: EngineState, inp: Inputs, inps: seq<Inputs>, next: Inputs)
    requires Valid(s) && AnyRandomFires(s, inp) && TICK * (|inps| + 1) == COOLDOWN
    ensures var w := Step(Run(StepState(s, inp), inps), next).writes;
            |w| > 0 && w[0] == RemoveCurrentRandomEvent
  {
    CooldownStarts(s, inp);
    CooldownRuns(StepState(s, inp), inps);
    RemovalFirst(Run(StepState(s, inp), inps), next);
  }

  /** From construction, the holiday banner never shows in the first ten seconds. */
  lemma HolidayNotEarly(inps: seq<Inputs>, inp: Inputs)
    requires TICK * |inps| < HOLIDAY_DELAY
    ensures HolidayActive !in Step(Run(Init(), inps), inp).events
  {
    RunClock(Init(), inps);
    ClockGatedNotices(Run(Init(), inps), inp);
  }

  /** From construction, the torque-model notice can show only on the tick at 5.5 s. */
  lemma TorqueNoticeTick(inps: seq<Inputs>, inp: Inputs)
    ensures TorqueNNLoad in Step(Run(Init(), inps), inp).events ==> TICK * |inps| == NN_LOAD_FRAME
  {
    RunClock(Init(), inps);
    ClockGatedNotices(Run(Init(), inps), inp);
  }
}
