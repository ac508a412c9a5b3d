/**
 * What one tick of `EventSpec.Step` guarantees, stated against the state
 * before it: the one-shot latches, the random-event cooldown, the
 * acceleration tiers and running peak, the steer-saturation arbiter, the
 * traffic-mode and green-light edge detectors, and the session clock.
 */
module TickProperties {
  import opened EventTypes
  import opened EventSpec
  import opened EventFacts

  // ---------------------------------------------------------------------
  // One-shot latches (source lines 20-33, 59-71, 81-139)

  lemma MarkPlayed(ls: Latches, l: Latch, k: Latch)
    ensures Played(Mark(ls, l), k) <==> Played(ls, k) || k == l
  {
  }

  lemma SetIfPlayed(ls: Latches, c: bool, l: Latch, k: Latch)
    ensures Played(SetIf(ls, c, l), k) <==> Played(ls, k) || (c && k == l)
  {
    if c { MarkPlayed(ls, l, k); }
  }

  lemma SetPickPlayed(ls: Latches, p: Pick, k: Latch)
    ensures Played(SetPick(ls, p), k) <==> Played(ls, k) || p == Pick(k)
  {
    if p.Pick? { MarkPlayed(ls, p.latch, k); }
  }

  lemma LatchTerms(s: EngineState, inp: Inputs, k: Latch)
    ensures Played(NextLatches(s, inp), k)
            <==> || Played(s.played, k)
                 || (FiresHoliday(s, inp) && k == HolidayThemePlayed)
                 || (FiresCrash(s, inp) && k == OpenpilotCrashedPlayed)
                 || Tier(s, inp) == Pick(k)
                 || (FiresDejaVu(s, inp) && k == DejaVuPlayed)
                 || (FiresNoEntry(s, inp) && k == NoEntryAlertPlayed)
                 || Steer(s, inp) == Pick(k)
                 || (FiresVCruise69(s, inp) && k == VCruise69Played)
                 || (FiresFcw(s, inp) && k == FcwPlayed)
  {
    var ls1 := SetIf(s.played, FiresHoliday(s, inp), HolidayThemePlayed);
    SetIfPlayed(s.played, FiresHoliday(s, inp), HolidayThemePlayed, k);
    var ls2 := SetIf(ls1, FiresCrash(s, inp), OpenpilotCrashedPlayed);
    SetIfPlayed(ls1, FiresCrash(s, inp), OpenpilotCrashedPlayed, k);
    var ls3 := SetPick(ls2, Tier(s, inp));
    SetPickPlayed(ls2, Tier(s, inp), k);
    var ls4 := SetIf(ls3, FiresDejaVu(s, inp), DejaVuPlayed);
    SetIfPlayed(ls3, FiresDejaVu(s, inp), DejaVuPlayed, k);
    var ls5 := SetIf(ls4, FiresNoEntry(s, inp), NoEntryAlertPlayed);
    SetIfPlayed(ls4, FiresNoEntry(s, inp), NoEntryAlertPlayed, k);
    var ls6 := SetPick(ls5, Steer(s, inp));
    SetPickPlayed(ls5, Steer(s, inp), k);
    var ls7 := SetIf(ls6, FiresVCruise69(s, inp), VCruise69Played);
    SetIfPlayed(ls6, FiresVCruise69(s, inp), VCruise69Played, k);
    SetIfPlayed(ls7, FiresFcw(s, inp), FcwPlayed, k);
  }

  lemma FiresTerms(s: EngineState, inp: Inputs, k: Latch)
    ensures Fires(s, inp, k)
            <==> || (FiresHoliday(s, inp) && k == HolidayThemePlayed)
                 || (FiresCrash(s, inp) && k == OpenpilotCrashedPlayed)
                 || Tier(s, inp) == Pick(k)
                 || (FiresDejaVu(s, inp) && k == DejaVuPlayed)
                 || (FiresNoEntry(s, inp) && k == NoEntryAlertPlayed)
                 || Steer(s, inp) == Pick(k)
                 || (FiresVCruise69(s, inp) && k == VCruise69Played)
                 || (FiresFcw(s, inp) && k == FcwPlayed)
  {
  }

  /**
   * A latch is set after a tick exactly when it was set before or its rule
   * fired; and a rule fires only while its latch is clear.
   */
  lemma LatchStep(s: EngineState, inp: Inputs, l: Latch)
    ensures Played(StepState(s, inp).played, l) <==> Played(s.played, l) || Fires(s, inp, l)
    ensures Fires(s, inp, l) ==> !Played(s.played, l)
  {
    LatchTerms(s, inp, l);
    FiresTerms(s, inp, l);
  }

  /** No tick clears a latch. */
  lemma LatchesMonotone(s: EngineState, inp: Inputs, l: Latch)
    ensures Played(s.played, l) ==> Played(StepState(s, inp).played, l)
  {
    LatchStep(s, inp, l);
  }

  // ---------------------------------------------------------------------
  // What a tick emits, as characterized by `EventFacts`. The lemmas below
  // are first proved of any event list and store log meeting these
  // characterizations, then of the tick itself.

  /** `ev` holds each event exactly once when its rule fires, and never otherwise. */
  ghost predicate EventsOf(ev: seq<EventName>, s: EngineState, inp: Inputs) {
    forall e :: Count(ev, e) == if Raised(s, inp, e) then 1 else 0
  }

  /** `w` makes exactly the writes the source makes, the cooldown removal first. */
  ghost predicate WritesOf(w: seq<StoreOp>, s: EngineState, inp: Inputs) {
    && (forall op :: op in w <==> Written(s, inp, op))
    && (Cooldown(s).expired ==> |w| > 0 && w[0] == RemoveCurrentRandomEvent)
    && (Cooldown(s).active ==> w == [])
  }

  lemma StepObserved(s: EngineState, inp: Inputs)
    ensures EventsOf(Step(s, inp).events, s, inp)
    ensures WritesOf(Step(s, inp).writes, s, inp)
  {
    forall e { StepEvents(s, inp, e); }
    forall op { StepWrites(s, inp, op); }
    if Cooldown(s).expired {
      RemovalFirst(s, inp);
    }
    if Cooldown(s).active {
      QuietWrites(s, inp);
    }
  }

  lemma CountIn(ev: seq<EventName>, s: EngineState, inp: Inputs, e: EventName)
    requires EventsOf(ev, s, inp)
    ensures e in ev <==> Raised(s, inp, e)
    ensures Count(ev, e) == if Raised(s, inp, e) then 1 else 0
  {
    assert Count(ev, e) == if Raised(s, inp, e) then 1 else 0;
  }

  // ---------------------------------------------------------------------
  // Announcements (source lines 59-71, 81-139)

  lemma AnnouncementFired(s: EngineState, inp: Inputs, l: Latch)
    requires l != OpenpilotCrashedPlayed
    ensures Raised(s, inp, Announcement(l)) <==> Fires(s, inp, l)
  {
  }

  /**
   * Every latch but the crash latch has its own event, emitted exactly when
   * the latch is set by this tick, and then exactly once.
   */
  lemma AnnouncedIffFires(s: EngineState, inp: Inputs, l: Latch)
    requires l != OpenpilotCrashedPlayed
    ensures Announcement(l) in Step(s, inp).events <==> Fires(s, inp, l)
    ensures Count(Step(s, inp).events, Announcement(l)) == if Fires(s, inp, l) then 1 else 0
  {
    StepEvents(s, inp, Announcement(l));
    AnnouncementFired(s, inp, l);
  }

  lemma CrashIn(ev: seq<EventName>, s: EngineState, inp: Inputs)
    requires EventsOf(ev, s, inp)
    ensures (OpenpilotCrashed in ev || OpenpilotCrashedRandomEvent in ev) <==> FiresCrash(s, inp)
    ensures Count(ev, OpenpilotCrashed) + Count(ev, OpenpilotCrashedRandomEvent) == if FiresCrash(s, inp) then 1 else 0
    ensures OpenpilotCrashedRandomEvent in ev ==> inp.toggles.randomEvents
    ensures OpenpilotCrashed in ev ==> !inp.toggles.randomEvents
  {
    CountIn(ev, s, inp, OpenpilotCrashed);
    CountIn(ev, s, inp, OpenpilotCrashedRandomEvent);
  }

  /**
   * The crash notice appears, in exactly one of its two flavours, exactly
   * when the crash latch is set: the random-events flavour when those are on.
   */
  lemma CrashNoticeOnce(s: EngineState, inp: Inputs)
    ensures var ev := Step(s, inp).events;
            (OpenpilotCrashed in ev || OpenpilotCrashedRandomEvent in ev) <==> FiresCrash(s, inp)
    ensures var ev := Step(s, inp).events;
            Count(ev, OpenpilotCrashed) + Count(ev, OpenpilotCrashedRandomEvent) == if FiresCrash(s, inp) then 1 else 0
    ensures OpenpilotCrashedRandomEvent in Step(s, inp).events ==> inp.toggles.randomEvents
    ensures OpenpilotCrashed in Step(s, inp).events ==> !inp.toggles.randomEvents
  {
    StepObserved(s, inp);
    CrashIn(Step(s, inp).events, s, inp);
  }

  // ---------------------------------------------------------------------
  // The random-event cooldown (source lines 42-47 and 73)

  lemma RemovalIn(w: seq<StoreOp>, s: EngineState, inp: Inputs)
    requires WritesOf(w, s, inp)
    ensures RemoveCurrentRandomEvent in w <==> Cooldown(s).expired
    ensures Cooldown(s).expired ==> |w| > 0 && w[0] == RemoveCurrentRandomEvent
  {
    assert RemoveCurrentRandomEvent in w <==> Written(s, inp, RemoveCurrentRandomEvent);
  }

  /**
   * The cooldown clock: while the flag is up each tick adds one tick to the
   * timer; once four seconds are reached the flag drops, the timer restarts
   * at zero and `CurrentRandomEvent` is removed, ahead of any other write;
   * with the flag down the timer stays zero and nothing is removed. A flag
   * that dropped, or was down, is raised again only by a random latch
   * firing on this very tick.
   */
  lemma CooldownClock(s: EngineState, inp: Inputs)
    requires Valid(s)
    ensures var n := StepState(s, inp);
            s.randomEventPlayed && s.randomEventTimer + TICK < COOLDOWN ==>
              n.randomEventPlayed && n.randomEventTimer == s.randomEventTimer + TICK
    ensures var n := StepState(s, inp);
            s.randomEventPlayed && s.randomEventTimer + TICK >= COOLDOWN ==>
              n.randomEventTimer == 0 && (n.randomEventPlayed <==> AnyRandomFires(s, inp))
    ensures var n := StepState(s, inp);
            !s.randomEventPlayed ==>
              n.randomEventTimer == 0 && (n.randomEventPlayed <==> AnyRandomFires(s, inp))
    ensures var w := Step(s, inp).writes;
            (RemoveCurrentRandomEvent in w <==> s.randomEventPlayed && s.randomEventTimer + TICK >= COOLDOWN)
            && (RemoveCurrentRandomEvent in w ==> |w| > 0 && w[0] == RemoveCurrentRandomEvent)
  {
    StepObserved(s, inp);
    RemovalIn(Step(s, inp).writes, s, inp);
  }

  /** The flag after a tick: a cooldown still running, or a random latch fired. */
  lemma CooldownFlag(s: EngineState, inp: Inputs)
    ensures StepState(s, inp).randomEventPlayed
            <==> Cooldown(s).active || exists l :: IsRandomLatch(l) && Fires(s, inp, l)
  {
    if Tier(s, inp).Pick? {
      assert IsRandomLatch(Tier(s, inp).latch) && Fires(s, inp, Tier(s, inp).latch);
    } else if FiresDejaVu(s, inp) {
      assert Fires(s, inp, DejaVuPlayed);
    } else if FiresNoEntry(s, inp) {
      assert Fires(s, inp, NoEntryAlertPlayed);
    } else if Steer(s, inp).Pick? {
      assert IsRandomLatch(Steer(s, inp).latch) && Fires(s, inp, Steer(s, inp).latch);
    } else if FiresVCruise69(s, inp) {
      assert Fires(s, inp, VCruise69Played);
    } else if FiresFcw(s, inp) {
      assert Fires(s, inp, FcwPlayed);
    }
  }

  lemma SilentIn(ev: seq<EventName>, w: seq<StoreOp>, s: EngineState, inp: Inputs, e: EventName)
    requires EventsOf(ev, s, inp) && WritesOf(w, s, inp) && Cooldown(s).active
    ensures IsRandomEvent(e) ==> e !in ev
    ensures w == []
  {
    CountIn(ev, s, inp, e);
  }

  /**
   * While the cooldown runs, a tick emits no random-group event, writes
   * nothing to the store, leaves the running peak and every random latch
   * alone, and keeps the flag up.
   */
  lemma CooldownSuppresses(s: EngineState, inp: Inputs, e: EventName, l: Latch)
    requires Cooldown(s).active
    ensures IsRandomEvent(e) ==> e !in Step(s, inp).events
    ensures Step(s, inp).writes == []
    ensures StepState(s, inp).maxAcceleration == s.maxAcceleration
    ensures StepState(s, inp).randomEventPlayed
    ensures IsRandomLatch(l) ==> Played(StepState(s, inp).played, l) == Played(s.played, l)
  {
    StepObserved(s, inp);
    SilentIn(Step(s, inp).events, Step(s, inp).writes, s, inp, e);
    LatchStep(s, inp, l);
  }

  // ---------------------------------------------------------------------
  // Acceleration tiers and the running peak (source lines 73-100)

  /** A tier fires exactly when it is unplayed, the peak is in its band and `aEgo` is below 1.5. */
  lemma TierIff(s: EngineState, inp: Inputs, l: Latch)
    ensures Tier(s, inp) == Pick(l)
            <==> RandomGate(s, inp) && !Played(s.played, l) && InBand(l, Peak(s, inp)) && inp.carState.aEgo < 1.5
  {
  }

  lemma TierBound(ev: seq<EventName>, s: EngineState, inp: Inputs)
    requires EventsOf(ev, s, inp)
    ensures Count(ev, Accel30) + Count(ev, Accel35) + Count(ev, Accel40) <= 1
  {
    CountIn(ev, s, inp, Accel30);
    CountIn(ev, s, inp, Accel35);
    CountIn(ev, s, inp, Accel40);
  }

  /** At most one tier event per tick. */
  lemma AtMostOneTier(s: EngineState, inp: Inputs)
    ensures var ev := Step(s, inp).events;
            Count(ev, Accel30) + Count(ev, Accel35) + Count(ev, Accel40) <= 1
  {
    StepObserved(s, inp);
    TierBound(Step(s, inp).events, s, inp);
  }

  lemma TierOut(ev: seq<EventName>, w: seq<StoreOp>, s: EngineState, inp: Inputs)
    requires EventsOf(ev, s, inp) && WritesOf(w, s, inp) && Tier(s, inp).Pick?
    ensures Announcement(Tier(s, inp).latch) in ev
    ensures PutCurrentRandomEvent(StoreCode(Tier(s, inp).latch)) in w
  {
    CountIn(ev, s, inp, Announcement(Tier(s, inp).latch));
    assert Written(s, inp, PutCurrentRandomEvent(StoreCode(Tier(s, inp).latch)));
  }

  /**
   * A firing tier announces itself, writes its code, latches, starts the
   * cooldown and resets the running peak.
   */
  lemma TierEffects(s: EngineState, inp: Inputs)
    requires Tier(s, inp).Pick?
    ensures var l := Tier(s, inp).latch;
            && Announcement(l) in Step(s, inp).events
            && PutCurrentRandomEvent(StoreCode(l)) in Step(s, inp).writes
            && Played(StepState(s, inp).played, l)
            && StepState(s, inp).randomEventPlayed
            && StepState(s, inp).maxAcceleration == 0.0
    ensures var l := Tier(s, inp).latch;
            StoreCode(l) == if l == Accel30Played then 2 else if l == Accel35Played then 3 else 4
  {
    StepObserved(s, inp);
    TierOut(Step(s, inp).events, Step(s, inp).writes, s, inp);
    LatchStep(s, inp, Tier(s, inp).latch);
  }

  /**
   * The running peak: untouched outside the random gate; inside it zero
   * while the gas is pressed and otherwise the larger of the old peak and
   * `aEgo`; and zero again after a tier fires.
   */
  lemma PeakTracking(s: EngineState, inp: Inputs)
    ensures var m := StepState(s, inp).maxAcceleration;
            !RandomGate(s, inp) ==> m == s.maxAcceleration
    ensures var m := StepState(s, inp).maxAcceleration;
            RandomGate(s, inp) && inp.carState.gasPressed ==> m == 0.0
    ensures var m := StepState(s, inp).maxAcceleration;
            RandomGate(s, inp) && !inp.carState.gasPressed && !Tier(s, inp).Pick? ==>
              m >= s.maxAcceleration && m >= inp.carState.aEgo
              && (m == s.maxAcceleration || m == inp.carState.aEgo)
    ensures Tier(s, inp).Pick? ==> StepState(s, inp).maxAcceleration == 0.0
  {
  }

  // ---------------------------------------------------------------------
  // The value `CurrentRandomEvent` holds (source lines 47, 83-104, 124)

  /** The value of the `CurrentRandomEvent` key: absent, or holding a code. */
  datatype StoreValue = Absent | Held(code: int)

  /** The key's value after one write. */
  function Effect(op: StoreOp): StoreValue {
    match op
    case RemoveCurrentRandomEvent => Absent
    case PutCurrentRandomEvent(c) => Held(c)
  }

  /** The key's value after the writes `w`, applied oldest first to the value `v`. */
  function Apply(v: StoreValue, w: seq<StoreOp>): StoreValue
    decreases |w|
  {
    if |w| == 0 then v else Apply(Effect(w[0]), w[1..])
  }

  /** Applying a non-empty log leaves the value of its last write. */
  lemma {:induction false} LastWriteWins(v: StoreValue, w: seq<StoreOp>)
    requires |w| > 0
    ensures Apply(v, w) == Effect(w[|w| - 1])
    decreases |w|
  {
    if |w| > 1 {
      LastWriteWins(Effect(w[0]), w[1..]);
      assert w[1..][|w[1..]| - 1] == w[|w| - 1];
    }
  }

  /** The value a tick leaves in the store, given the value `v` before it. */
  function TickValue(s: EngineState, inp: Inputs, v: StoreValue): StoreValue {
    if Steer(s, inp) == Pick(FirefoxPlayed) then Held(1)
    else if FiresDejaVu(s, inp) then Held(5)
    else if Tier(s, inp).Pick? then Held(StoreCode(Tier(s, inp).latch))
    else if Cooldown(s).expired then Absent
    else v
  }

  lemma LogValue(w: seq<StoreOp>, s: EngineState, inp: Inputs, v: StoreValue)
    requires w == PutRemoval(Cooldown(s).expired) + CodedWrites(s, inp)
    ensures Apply(v, w) == TickValue(s, inp, v)
  {
    if |w| > 0 {
      LastWriteWins(v, w);
    }
  }

  /** How many times write `op` occurs in the log `w`. */
  function Occurrences(w: seq<StoreOp>, op: StoreOp): nat
    decreases |w|
  {
    if |w| == 0 then 0 else (if w[0] == op then 1 else 0) + Occurrences(w[1..], op)
  }

  lemma {:induction false} OccurrencesConcat(a: seq<StoreOp>, b: seq<StoreOp>, op: StoreOp)
    ensures Occurrences(a + b, op) == Occurrences(a, op) + Occurrences(b, op)
    decreases |a|
  {
    if |a| > 0 {
      assert (a + b)[1..] == a[1..] + b;
      OccurrencesConcat(a[1..], b, op);
    } else {
      assert a + b == b;
    }
  }

  lemma OccurrencesOne(x: StoreOp, op: StoreOp)
    ensures Occurrences([x], op) == if x == op then 1 else 0
  {
    assert [x][1..] == [];
  }

  lemma PutIfCount(c: bool, k: nat, op: StoreOp)
    ensures Occurrences(PutIf(c, k), op) == if c && op == PutCurrentRandomEvent(k) then 1 else 0
  {
    if c { OccurrencesOne(PutCurrentRandomEvent(k), op); }
  }

  lemma RemovalCount(c: bool, op: StoreOp)
    ensures Occurrences(PutRemoval(c), op) == if c && op == RemoveCurrentRandomEvent then 1 else 0
  {
    if c { OccurrencesOne(RemoveCurrentRandomEvent, op); }
  }

  lemma OneMatch(r: bool, t: bool, k: nat, d: bool, f: bool, op: StoreOp)
    requires 2 <= k <= 4
    ensures (if r && op == RemoveCurrentRandomEvent then 1 else 0)
            + (if t && op == PutCurrentRandomEvent(k) then 1 else 0)
            + (if d && op == PutCurrentRandomEvent(5) then 1 else 0)
            + (if f && op == PutCurrentRandomEvent(1) then 1 else 0) <= 1
  {
  }

  lemma PartsOnce(r: bool, t: bool, k: nat, d: bool, f: bool, op: StoreOp)
    requires 2 <= k <= 4
    ensures Occurrences(PutRemoval(r) + (PutIf(t, k) + PutIf(d, 5) + PutIf(f, 1)), op) <= 1
  {
    var w1, w2, w3, w4 := PutRemoval(r), PutIf(t, k), PutIf(d, 5), PutIf(f, 1);
    OccurrencesConcat(w1, w2 + w3 + w4, op);
    OccurrencesConcat(w2 + w3, w4, op);
    OccurrencesConcat(w2, w3, op);
    RemovalCount(r, op);
    PutIfCount(t, k, op);
    PutIfCount(d, 5, op);
    PutIfCount(f, 1, op);
    OneMatch(r, t, k, d, f, op);
  }

  lemma PickOnce(r: bool, p: Pick, d: bool, f: bool, op: StoreOp)
    requires p.Pick? ==> 2 <= StoreCode(p.latch) <= 4
    ensures Occurrences(PutRemoval(r) + (PutPick(p) + PutIf(d, 5) + PutIf(f, 1)), op) <= 1
  {
    var k := if p.Pick? then StoreCode(p.latch) else 2;
    assert PutPick(p) == PutIf(p.Pick?, k);
    PartsOnce(r, p.Pick?, k, d, f, op);
  }

  lemma LogOnce(w: seq<StoreOp>, s: EngineState, inp: Inputs, op: StoreOp)
    requires w == PutRemoval(Cooldown(s).expired) + CodedWrites(s, inp)
    ensures Occurrences(w, op) <= 1
  {
    var p := Tier(s, inp);
    assert p.Pick? ==> 2 <= StoreCode(p.latch) <= 4;
    PickOnce(Cooldown(s).expired, p, FiresDejaVu(s, inp), Steer(s, inp) == Pick(FirefoxPlayed), op);
  }

  /**
   * After a tick the key holds the last code written: firefox's 1 over the
   * curve alert's 5 over the tier's code; it is removed if the cooldown
   * ended and nothing was written after; otherwise it keeps its value.
   */
  lemma StoreAfterTick(s: EngineState, inp: Inputs, v: StoreValue)
    ensures Apply(v, Step(s, inp).writes) == TickValue(s, inp, v)
  {
    StepLog(s, inp);
    LogValue(Step(s, inp).writes, s, inp, v);
  }

  /** No write occurs twice in one tick. */
  lemma WritesOnce(s: EngineState, inp: Inputs, op: StoreOp)
    ensures Occurrences(Step(s, inp).writes, op) <= 1
  {
    StepLog(s, inp);
    LogOnce(Step(s, inp).writes, s, inp, op);
  }

  // ---------------------------------------------------------------------
  // The steer-saturation arbiter (source lines 113-129)

  /**
   * A choice is made exactly when the gate is open, the trigger pulses, a
   * variant is left, and the session age in seconds is a multiple of
   * 50 with two variants left, of 100 with one.
   */
  lemma SteerCadenceIff(s: EngineState, inp: Inputs)
    ensures Steer(s, inp).Pick? <==>
              && RandomGate(s, inp) && inp.carControl.steerSaturatedEventTriggered
              && !(s.played.firefox && s.played.goat)
              && s.frame % (if !s.played.firefox && !s.played.goat then 5000 else 10000) == 0
  {
    var c := SteerChoices(s.played);
    if !s.played.firefox && !s.played.goat {
      assert |c| == 2;
    } else if !s.played.firefox || !s.played.goat {
      assert |c| == 1;
    } else {
      assert |c| == 0;
    }
  }

  /**
   * With both variants left, the draw picks firefox when even and goat when
   * odd; with one left it is the one picked.
   */
  lemma SteerDraw(s: EngineState, inp: Inputs)
    requires Steer(s, inp).Pick?
    ensures !s.played.firefox && !s.played.goat ==>
              Steer(s, inp).latch == if inp.env.randomDraw % 2 == 0 then FirefoxPlayed else GoatPlayed
    ensures s.played.firefox ==> Steer(s, inp).latch == GoatPlayed
    ensures s.played.goat ==> Steer(s, inp).latch == FirefoxPlayed
  {
    var c := SteerChoices(s.played);
    if !s.played.firefox && !s.played.goat {
      assert c == [FirefoxPlayed, GoatPlayed];
    }
  }

  lemma SteerOut(ev: seq<EventName>, w: seq<StoreOp>, s: EngineState, inp: Inputs)
    requires EventsOf(ev, s, inp) && WritesOf(w, s, inp)
    ensures FirefoxSteerSaturated in ev <==> Steer(s, inp) == Pick(FirefoxPlayed)
    ensures GoatSteerSaturated in ev <==> Steer(s, inp) == Pick(GoatPlayed)
    ensures PutCurrentRandomEvent(1) in w <==> Steer(s, inp) == Pick(FirefoxPlayed)
  {
    CountIn(ev, s, inp, FirefoxSteerSaturated);
    CountIn(ev, s, inp, GoatSteerSaturated);
    assert PutCurrentRandomEvent(1) in w <==> Written(s, inp, PutCurrentRandomEvent(1));
  }

  /**
   * Choosing firefox announces it, writes code 1 and latches it; choosing
   * goat announces and latches it without a write; either raises the flag.
   */
  lemma SteerEffects(s: EngineState, inp: Inputs)
    ensures var o := Step(s, inp);
            Steer(s, inp) == Pick(FirefoxPlayed) ==>
              && FirefoxSteerSaturated in o.events && GoatSteerSaturated !in o.events
              && PutCurrentRandomEvent(1) in o.writes
              && o.next.played.firefox && o.next.randomEventPlayed
    ensures var o := Step(s, inp);
            Steer(s, inp) == Pick(GoatPlayed) ==>
              && GoatSteerSaturated in o.events && FirefoxSteerSaturated !in o.events
              && PutCurrentRandomEvent(1) !in o.writes
              && o.next.played.goat && o.next.randomEventPlayed
  {
    StepObserved(s, inp);
    SteerOut(Step(s, inp).events, Step(s, inp).writes, s, inp);
    LatchStep(s, inp, FirefoxPlayed);
    LatchStep(s, inp, GoatPlayed);
  }

  /**
   * Once both variants have played, the trigger yields no event, no write
   * and no change to the flag: the flag is then decided by the other rules.
   */
  lemma SteerExhausted(s: EngineState, inp: Inputs)
    requires s.played.firefox && s.played.goat
    ensures Steer(s, inp) == Nothing
    ensures FirefoxSteerSaturated !in Step(s, inp).events && GoatSteerSaturated !in Step(s, inp).events
    ensures PutCurrentRandomEvent(1) !in Step(s, inp).writes
    ensures StepState(s, inp).randomEventPlayed
            <==> Cooldown(s).active || EarlyRandomFires(s, inp) || FiresVCruise69(s, inp) || FiresFcw(s, inp)
  {
    SteerCadenceIff(s, inp);
    StepObserved(s, inp);
    SteerOut(Step(s, inp).events, Step(s, inp).writes, s, inp);
  }

  // ---------------------------------------------------------------------
  // The cruise-speed rule (source lines 131-134)

  /**
   * In metric units the rule's 69 to 70 km/h window is the cruise speeds
   * from 69/3.6 up to but excluding 70/3.6 metres per second.
   */
  lemma VCruise69Metric(v: real)
    ensures 70.0 > DisplaySpeed(v, true) >= 69.0 <==> 69.0 / 3.6 <= v < 70.0 / 3.6
  {
  }

  /** In imperial units the window is 69 to 70 mph, in metres per second. */
  lemma VCruise69Imperial(v: real)
    ensures 70.0 > DisplaySpeed(v, false) >= 69.0 <==> 69.0 * 1.609344 / 3.6 <= v < 70.0 * 1.609344 / 3.6
  {
  }

  lemma VCruiseIn(ev: seq<EventName>, s: EngineState, inp: Inputs)
    requires EventsOf(ev, s, inp)
    ensures inp.toggles.isMetric ==>
              (VCruise69 in ev <==> RandomGate(s, inp) && !s.played.vCruise69
                                    && 69.0 / 3.6 <= inp.vCruise < 70.0 / 3.6)
    ensures !inp.toggles.isMetric ==>
              (VCruise69 in ev <==> RandomGate(s, inp) && !s.played.vCruise69
                                    && 69.0 * 1.609344 / 3.6 <= inp.vCruise < 70.0 * 1.609344 / 3.6)
  {
    CountIn(ev, s, inp, VCruise69);
    VCruise69Metric(inp.vCruise);
    VCruise69Imperial(inp.vCruise);
  }

  /**
   * The tick announces the cruise-speed joke exactly when random events are
   * open, it has not been played yet, and the set speed lies in the 69 to 70
   * window of the display unit, stated in metres per second.
   */
  lemma VCruise69Window(s: EngineState, inp: Inputs)
    ensures inp.toggles.isMetric ==>
              (VCruise69 in Step(s, inp).events <==> RandomGate(s, inp) && !s.played.vCruise69
                                                     && 69.0 / 3.6 <= inp.vCruise < 70.0 / 3.6)
    ensures !inp.toggles.isMetric ==>
              (VCruise69 in Step(s, inp).events <==> RandomGate(s, inp) && !s.played.vCruise69
                                                     && 69.0 * 1.609344 / 3.6 <= inp.vCruise < 70.0 * 1.609344 / 3.6)
  {
    StepObserved(s, inp);
    VCruiseIn(Step(s, inp).events, s, inp);
  }

  // ---------------------------------------------------------------------
  // Edge-detected and clock-gated notices (source lines 52-61, 144-159)

  lemma TrafficIn(ev: seq<EventName>, s: EngineState, inp: Inputs)
    requires EventsOf(ev, s, inp)
    ensures TrafficModeActive in ev <==> inp.trafficModeActive && !s.previousTrafficMode
    ensures TrafficModeInactive in ev <==> !inp.trafficModeActive && s.previousTrafficMode
  {
    CountIn(ev, s, inp, TrafficModeActive);
    CountIn(ev, s, inp, TrafficModeInactive);
  }

  /**
   * Traffic mode is reported on edges only: active on a rise, inactive on a
   * fall, nothing in a steady state; the previous mode then follows the input.
   */
  lemma TrafficEdgeDetector(s: EngineState, inp: Inputs)
    ensures TrafficModeActive in Step(s, inp).events <==> inp.trafficModeActive && !s.previousTrafficMode
    ensures TrafficModeInactive in Step(s, inp).events <==> !inp.trafficModeActive && s.previousTrafficMode
    ensures inp.trafficModeActive == s.previousTrafficMode ==>
              TrafficModeActive !in Step(s, inp).events && TrafficModeInactive !in Step(s, inp).events
    ensures StepState(s, inp).previousTrafficMode == inp.trafficModeActive
  {
    StepObserved(s, inp);
    TrafficIn(Step(s, inp).events, s, inp);
  }

  lemma GreenIn(ev: seq<EventName>, s: EngineState, inp: Inputs)
    requires EventsOf(ev, s, inp)
    ensures GreenLight in ev <==>
              && inp.toggles.greenLightAlert && !inp.planner.trackingLead && inp.carState.standstill
              && !inp.planner.modelStopped && s.stoppedForLight
  {
    CountIn(ev, s, inp, GreenLight);
  }

  /**
   * The green-light alert fires when the feature is on, no lead is tracked,
   * the car stands, the model no longer wants to stop and the car had
   * stopped for a light on the previous tick; the stopped-for-light memory
   * is then the stop-light detection under the same gating, false otherwise.
   */
  lemma GreenLightMemory(s: EngineState, inp: Inputs)
    ensures GreenLight in Step(s, inp).events <==>
              && inp.toggles.greenLightAlert && !inp.planner.trackingLead && inp.carState.standstill
              && !inp.planner.modelStopped && s.stoppedForLight
    ensures !GreenLightGate(inp) ==> !StepState(s, inp).stoppedForLight
    ensures GreenLightGate(inp) ==> StepState(s, inp).stoppedForLight == inp.planner.stopLightDetected
  {
    StepObserved(s, inp);
    GreenIn(Step(s, inp).events, s, inp);
  }

  lemma ClockedIn(ev: seq<EventName>, s: EngineState, inp: Inputs)
    requires EventsOf(ev, s, inp)
    ensures HolidayActive in ev <==>
              !s.played.holidayTheme && inp.toggles.currentHolidayTheme != 0 && s.frame >= HOLIDAY_DELAY
    ensures TorqueNNLoad in ev <==> s.frame == NN_LOAD_FRAME && inp.env.nnffModelNameSet
    ensures TurningLeft in ev <==> inp.turnDirection == TurnLeft
    ensures TurningRight in ev <==> inp.turnDirection == TurnRight
  {
    CountIn(ev, s, inp, HolidayActive);
    CountIn(ev, s, inp, TorqueNNLoad);
    CountIn(ev, s, inp, TurningLeft);
    CountIn(ev, s, inp, TurningRight);
  }

  /**
   * Each tick advances the session clock by one model tick. The holiday
   * banner needs ten seconds of session age and an unplayed latch; the
   * torque-model notice shows exactly at 5.5 s; the two turn notices never
   * appear together.
   */
  lemma ClockGatedNotices(s: EngineState, inp: Inputs)
    ensures StepState(s, inp).frame == s.frame + TICK
    ensures HolidayActive in Step(s, inp).events <==>
              !s.played.holidayTheme && inp.toggles.currentHolidayTheme != 0 && s.frame >= HOLIDAY_DELAY
    ensures TorqueNNLoad in Step(s, inp).events <==> s.frame == NN_LOAD_FRAME && inp.env.nnffModelNameSet
    ensures TurningLeft in Step(s, inp).events <==> inp.turnDirection == TurnLeft
    ensures TurningRight in Step(s, inp).events <==> inp.turnDirection == TurnRight
    ensures !(TurningLeft in Step(s, inp).events && TurningRight in Step(s, inp).events)
  {
    StepObserved(s, inp);
    ClockedIn(Step(s, inp).events, s, inp);
  }
}
