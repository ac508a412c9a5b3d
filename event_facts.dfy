/**
 * Properties of one tick of `EventSpec.Step`.
 */
module EventFacts {
  import opened EventTypes
  import opened EventSpec

  /** The emission `t` with the store log `w` put in front of its writes. */
  function Shifted(w: seq<StoreOp>, t: Emission): Emission {
    Emission(t.events, w + t.writes)
  }

  lemma FireShift(w: seq<StoreOp>, t: Emission, l: Latch)
    ensures Fire(Shifted(w, t), l) == Shifted(w, Fire(t, l))
  {
    if StoreCode(l) > 0 {
      assert (w + t.writes) + [PutCurrentRandomEvent(StoreCode(l))]
          == w + (t.writes + [PutCurrentRandomEvent(StoreCode(l))]);
    }
  }

  lemma RandomRulesShift(w: seq<StoreOp>, t: Emission, s: EngineState, inp: Inputs)
    ensures RandomRules(Shifted(w, t), s, inp) == Shifted(w, RandomRules(t, s, inp))
  {
    var t1 := FirePick(t, Tier(s, inp));
    if Tier(s, inp).Pick? { FireShift(w, t, Tier(s, inp).latch); }
    var t2 := FireIf(t1, FiresDejaVu(s, inp), DejaVuPlayed);
    FireShift(w, t1, DejaVuPlayed);
    var t3 := FireIf(t2, FiresNoEntry(s, inp), NoEntryAlertPlayed);
    FireShift(w, t2, NoEntryAlertPlayed);
    var t4 := FirePick(t3, Steer(s, inp));
    if Steer(s, inp).Pick? { FireShift(w, t3, Steer(s, inp).latch); }
    var t5 := FireIf(t4, FiresVCruise69(s, inp), VCruise69Played);
    FireShift(w, t4, VCruise69Played);
    FireShift(w, t5, FcwPlayed);
  }

  /** A tick's events do not depend on the log before it, and its writes extend that log. */
  lemma EmitFromLog(s: EngineState, inp: Inputs, w: seq<StoreOp>)
    ensures Emit(s, inp, w).events == Step(s, inp).events
    ensures Emit(s, inp, w).writes == w + Step(s, inp).writes
  {
    var t := Emission(Notices([], s, inp), Expire([], s));
    assert Emission(Notices([], s, inp), Expire(w, s)) == Shifted(w, t) by {
      if Cooldown(s).expired {
        assert w + [RemoveCurrentRandomEvent] == w + ([] + [RemoveCurrentRandomEvent]);
      } else {
        assert w == w + [];
      }
    }
    RandomRulesShift(w, t, s, inp);
  }

  /** With the gate closed the random block does nothing. */
  lemma GateClosed(t: Emission, ls: Latches, s: EngineState, inp: Inputs)
    requires !RandomGate(s, inp)
    ensures RandomRules(t, s, inp) == t
    ensures LateRandomLatches(EarlyRandomLatches(ls, s, inp), s, inp) == ls
    ensures !AnyRandomFires(s, inp) && Tier(s, inp) == Nothing && Peak(s, inp) == s.maxAcceleration
  {
  }

  /** Setting latch `l` leaves every other latch as it was. */
  lemma MarkKeeps(ls: Latches, l: Latch)
    ensures !l.Accel30Played? ==> Mark(ls, l).accel30 == ls.accel30
    ensures !l.Accel35Played? ==> Mark(ls, l).accel35 == ls.accel35
    ensures !l.Accel40Played? ==> Mark(ls, l).accel40 == ls.accel40
    ensures !l.DejaVuPlayed? ==> Mark(ls, l).dejaVu == ls.dejaVu
    ensures !l.FcwPlayed? ==> Mark(ls, l).fcw == ls.fcw
    ensures !l.FirefoxPlayed? ==> Mark(ls, l).firefox == ls.firefox
    ensures !l.GoatPlayed? ==> Mark(ls, l).goat == ls.goat
    ensures !l.HolidayThemePlayed? ==> Mark(ls, l).holidayTheme == ls.holidayTheme
    ensures !l.NoEntryAlertPlayed? ==> Mark(ls, l).noEntryAlert == ls.noEntryAlert
    ensures !l.OpenpilotCrashedPlayed? ==> Mark(ls, l).openpilotCrashed == ls.openpilotCrashed
    ensures !l.VCruise69Played? ==> Mark(ls, l).vCruise69 == ls.vCruise69
  {
  }

  lemma SetIfKeeps(ls: Latches, c: bool, l: Latch)
    ensures !l.Accel30Played? ==> SetIf(ls, c, l).accel30 == ls.accel30
    ensures !l.Accel35Played? ==> SetIf(ls, c, l).accel35 == ls.accel35
    ensures !l.Accel40Played? ==> SetIf(ls, c, l).accel40 == ls.accel40
    ensures !l.DejaVuPlayed? ==> SetIf(ls, c, l).dejaVu == ls.dejaVu
    ensures !l.FcwPlayed? ==> SetIf(ls, c, l).fcw == ls.fcw
    ensures !l.FirefoxPlayed? ==> SetIf(ls, c, l).firefox == ls.firefox
    ensures !l.GoatPlayed? ==> SetIf(ls, c, l).goat == ls.goat
    ensures !l.HolidayThemePlayed? ==> SetIf(ls, c, l).holidayTheme == ls.holidayTheme
    ensures !l.NoEntryAlertPlayed? ==> SetIf(ls, c, l).noEntryAlert == ls.noEntryAlert
    ensures !l.OpenpilotCrashedPlayed? ==> SetIf(ls, c, l).openpilotCrashed == ls.openpilotCrashed
    ensures !l.VCruise69Played? ==> SetIf(ls, c, l).vCruise69 == ls.vCruise69
  {
    if c { MarkKeeps(ls, l); }
  }

  /** The notices set no random latch. */
  lemma NoticeLatchesKeepRandom(ls: Latches, s: EngineState, inp: Inputs)
    ensures NoticeLatches(ls, s, inp).accel30 == ls.accel30
    ensures NoticeLatches(ls, s, inp).accel35 == ls.accel35
    ensures NoticeLatches(ls, s, inp).accel40 == ls.accel40
    ensures NoticeLatches(ls, s, inp).dejaVu == ls.dejaVu
    ensures NoticeLatches(ls, s, inp).noEntryAlert == ls.noEntryAlert
    ensures NoticeLatches(ls, s, inp).firefox == ls.firefox
    ensures NoticeLatches(ls, s, inp).goat == ls.goat
    ensures NoticeLatches(ls, s, inp).vCruise69 == ls.vCruise69
    ensures NoticeLatches(ls, s, inp).fcw == ls.fcw
  {
    SetIfKeeps(ls, FiresHoliday(s, inp), HolidayThemePlayed);
    SetIfKeeps(SetIf(ls, FiresHoliday(s, inp), HolidayThemePlayed), FiresCrash(s, inp), OpenpilotCrashedPlayed);
  }

  /** The first random rules set none of the latches of the last ones. */
  lemma EarlyLatchesKeepLate(ls: Latches, s: EngineState, inp: Inputs)
    ensures EarlyRandomLatches(ls, s, inp).firefox == ls.firefox
    ensures EarlyRandomLatches(ls, s, inp).goat == ls.goat
    ensures EarlyRandomLatches(ls, s, inp).vCruise69 == ls.vCruise69
    ensures EarlyRandomLatches(ls, s, inp).fcw == ls.fcw
  {
  }

  /** A tick keeps the state invariant. */
  lemma StepPreservesValid(s: EngineState, inp: Inputs)
    requires Valid(s)
    ensures Valid(StepState(s, inp))
  {
  }

  // ---------------------------------------------------------------------
  // Which events a tick emits, and in which order

  /** The position of each event's rule in `update`; the crash notice's two variants share a rule. */
  function Rank(e: EventName): nat {
    match e
    case ForcingStop => 0
    case GreenLight => 1
    case HolidayActive => 2
    case LeadDeparting => 3
    case OpenpilotCrashedRandomEvent => 4
    case OpenpilotCrashed => 5
    case Accel30 => 6
    case Accel35 => 7
    case Accel40 => 8
    case DejaVuCurve => 9
    case Hal9000 => 10
    case FirefoxSteerSaturated => 11
    case GoatSteerSaturated => 12
    case VCruise69 => 13
    case YourFrogTriedToKillMe => 14
    case SpeedLimitChanged => 15
    case TorqueNNLoad => 16
    case TrafficModeActive => 17
    case TrafficModeInactive => 18
    case TurningLeft => 19
    case TurningRight => 20
  }

  /** The condition under which the source adds event `e`, each read off its own `if`. */
  predicate Raised(s: EngineState, inp: Inputs, e: EventName) {
    match e
    case ForcingStop => inp.planner.forcingStop
    case GreenLight => FiresGreenLight(s, inp)
    case HolidayActive => FiresHoliday(s, inp)
    case LeadDeparting => inp.planner.leadDeparting
    case OpenpilotCrashedRandomEvent => FiresCrash(s, inp) && inp.toggles.randomEvents
    case OpenpilotCrashed => FiresCrash(s, inp) && !inp.toggles.randomEvents
    case Accel30 => Tier(s, inp) == Pick(Accel30Played)
    case Accel35 => Tier(s, inp) == Pick(Accel35Played)
    case Accel40 => Tier(s, inp) == Pick(Accel40Played)
    case DejaVuCurve => FiresDejaVu(s, inp)
    case Hal9000 => FiresNoEntry(s, inp)
    case FirefoxSteerSaturated => Steer(s, inp) == Pick(FirefoxPlayed)
    case GoatSteerSaturated => Steer(s, inp) == Pick(GoatPlayed)
    case VCruise69 => FiresVCruise69(s, inp)
    case YourFrogTriedToKillMe => FiresFcw(s, inp)
    case SpeedLimitChanged => inp.toggles.speedLimitAlert && inp.env.speedLimitChanged
    case TorqueNNLoad => s.frame == NN_LOAD_FRAME && inp.env.nnffModelNameSet
    case TrafficModeActive => inp.trafficModeActive && !s.previousTrafficMode
    case TrafficModeInactive => !inp.trafficModeActive && s.previousTrafficMode
    case TurningLeft => inp.turnDirection == TurnLeft
    case TurningRight => inp.turnDirection == TurnRight
  }

  /** Number of times `e` occurs in `es`. */
  function Count(es: seq<EventName>, e: EventName): nat {
    multiset(es)[e]
  }

  lemma CountAddIf(es: seq<EventName>, c: bool, x: EventName, e: EventName)
    ensures Count(AddIf(es, c, x), e) == Count(es, e) + if c && x == e then 1 else 0
  {
  }

  /** The count as a sum over the notice rules, one term per `if`. */
  lemma NoticeCounts(s: EngineState, inp: Inputs, e: EventName)
    ensures Count(Notices([], s, inp), e)
            == (if inp.planner.forcingStop && ForcingStop == e then 1 else 0)
             + (if FiresGreenLight(s, inp) && GreenLight == e then 1 else 0)
             + (if FiresHoliday(s, inp) && HolidayActive == e then 1 else 0)
             + (if inp.planner.leadDeparting && LeadDeparting == e then 1 else 0)
             + (if FiresCrash(s, inp) && CrashNotice(inp) == e then 1 else 0)
  {
    var es1 := AddIf([], inp.planner.forcingStop, ForcingStop);
    CountAddIf([], inp.planner.forcingStop, ForcingStop, e);
    var es2 := AddIf(es1, FiresGreenLight(s, inp), GreenLight);
    CountAddIf(es1, FiresGreenLight(s, inp), GreenLight, e);
    var es3 := AddIf(es2, FiresHoliday(s, inp), HolidayActive);
    CountAddIf(es2, FiresHoliday(s, inp), HolidayActive, e);
    var es4 := AddIf(es3, inp.planner.leadDeparting, LeadDeparting);
    CountAddIf(es3, inp.planner.leadDeparting, LeadDeparting, e);
    CountAddIf(es4, FiresCrash(s, inp), CrashNotice(inp), e);
  }

  lemma NoticeEvents(s: EngineState, inp: Inputs, e: EventName)
    ensures Count(Notices([], s, inp), e) == if Rank(e) < 6 && Raised(s, inp, e) then 1 else 0
  {
    NoticeCounts(s, inp, e);
  }

  lemma CountFire(t: Emission, l: Latch, e: EventName)
    ensures Count(Fire(t, l).events, e) == Count(t.events, e) + if Announcement(l) == e then 1 else 0
  {
    CountAddIf(t.events, true, Announcement(l), e);
  }

  lemma CountFireIf(t: Emission, c: bool, l: Latch, e: EventName)
    ensures Count(FireIf(t, c, l).events, e) == Count(t.events, e) + if c && Announcement(l) == e then 1 else 0
  {
    if c { CountFire(t, l, e); }
  }

  lemma CountFirePick(t: Emission, p: Pick, e: EventName)
    ensures Count(FirePick(t, p).events, e) == Count(t.events, e) + if p.Pick? && Announcement(p.latch) == e then 1 else 0
  {
    if p.Pick? { CountFire(t, p.latch, e); }
  }

  lemma EarlyRandomCounts(t: Emission, s: EngineState, inp: Inputs, e: EventName)
    ensures Count(EarlyRandomRules(t, s, inp).events, e)
            == Count(t.events, e)
             + (if Tier(s, inp).Pick? && Announcement(Tier(s, inp).latch) == e then 1 else 0)
             + (if FiresDejaVu(s, inp) && DejaVuCurve == e then 1 else 0)
             + (if FiresNoEntry(s, inp) && Hal9000 == e then 1 else 0)
  {
    var t1 := FirePick(t, Tier(s, inp));
    CountFirePick(t, Tier(s, inp), e);
    var t2 := FireIf(t1, FiresDejaVu(s, inp), DejaVuPlayed);
    CountFireIf(t1, FiresDejaVu(s, inp), DejaVuPlayed, e);
    CountFireIf(t2, FiresNoEntry(s, inp), NoEntryAlertPlayed, e);
  }

  lemma TierAnnounced(s: EngineState, inp: Inputs, e: EventName)
    ensures (Tier(s, inp).Pick? && Announcement(Tier(s, inp).latch) == e) == (6 <= Rank(e) < 9 && Raised(s, inp, e))
  {
  }

  lemma EarlyRandomEvents(t: Emission, s: EngineState, inp: Inputs, e: EventName)
    ensures Count(EarlyRandomRules(t, s, inp).events, e)
            == Count(t.events, e) + if 6 <= Rank(e) < 11 && Raised(s, inp, e) then 1 else 0
  {
    EarlyRandomCounts(t, s, inp, e);
    TierAnnounced(s, inp, e);
  }

  lemma LateRandomCounts(t: Emission, s: EngineState, inp: Inputs, e: EventName)
    ensures Count(LateRandomRules(t, s, inp).events, e)
            == Count(t.events, e)
             + (if Steer(s, inp).Pick? && Announcement(Steer(s, inp).latch) == e then 1 else 0)
             + (if FiresVCruise69(s, inp) && VCruise69 == e then 1 else 0)
             + (if FiresFcw(s, inp) && YourFrogTriedToKillMe == e then 1 else 0)
  {
    var t1 := FirePick(t, Steer(s, inp));
    CountFirePick(t, Steer(s, inp), e);
    var t2 := FireIf(t1, FiresVCruise69(s, inp), VCruise69Played);
    CountFireIf(t1, FiresVCruise69(s, inp), VCruise69Played, e);
    CountFireIf(t2, FiresFcw(s, inp), FcwPlayed, e);
  }

  lemma SteerAnnounced(s: EngineState, inp: Inputs, e: EventName)
    ensures (Steer(s, inp).Pick? && Announcement(Steer(s, inp).latch) == e) == (11 <= Rank(e) < 13 && Raised(s, inp, e))
  {
  }

  lemma LateRandomEvents(t: Emission, s: EngineState, inp: Inputs, e: EventName)
    ensures Count(LateRandomRules(t, s, inp).events, e)
            == Count(t.events, e) + if 11 <= Rank(e) < 15 && Raised(s, inp, e) then 1 else 0
  {
    LateRandomCounts(t, s, inp, e);
    SteerAnnounced(s, inp, e);
  }

  /** The status events before the turn signal. */
  function EarlyStatuses(es: seq<EventName>, s: EngineState, inp: Inputs): seq<EventName> {
    var es1 := AddIf(es, inp.toggles.speedLimitAlert && inp.env.speedLimitChanged, SpeedLimitChanged);
    var es2 := AddIf(es1, s.frame == NN_LOAD_FRAME && inp.env.nnffModelNameSet, TorqueNNLoad);
    AddIf(es2, TrafficEdge(s, inp), TrafficNotice(s))
  }

  lemma CountAddIf3(es: seq<EventName>, a: bool, x: EventName, b: bool, y: EventName, c: bool, z: EventName, e: EventName)
    ensures Count(AddIf(AddIf(AddIf(es, a, x), b, y), c, z), e)
            == Count(es, e) + (if a && x == e then 1 else 0) + (if b && y == e then 1 else 0) + (if c && z == e then 1 else 0)
  {
    CountAddIf(es, a, x, e);
    CountAddIf(AddIf(es, a, x), b, y, e);
    CountAddIf(AddIf(AddIf(es, a, x), b, y), c, z, e);
  }

  lemma EarlyStatusCounts(es: seq<EventName>, s: EngineState, inp: Inputs, e: EventName)
    ensures Count(EarlyStatuses(es, s, inp), e)
            == Count(es, e)
             + (if inp.toggles.speedLimitAlert && inp.env.speedLimitChanged && SpeedLimitChanged == e then 1 else 0)
             + (if s.frame == NN_LOAD_FRAME && inp.env.nnffModelNameSet && TorqueNNLoad == e then 1 else 0)
             + (if TrafficEdge(s, inp) && TrafficNotice(s) == e then 1 else 0)
  {
    CountAddIf3(es, inp.toggles.speedLimitAlert && inp.env.speedLimitChanged, SpeedLimitChanged,
                s.frame == NN_LOAD_FRAME && inp.env.nnffModelNameSet, TorqueNNLoad,
                TrafficEdge(s, inp), TrafficNotice(s), e);
  }

  lemma StatusCounts(es: seq<EventName>, s: EngineState, inp: Inputs, e: EventName)
    ensures Count(Statuses(es, s, inp), e)
            == Count(EarlyStatuses(es, s, inp), e)
             + (if inp.turnDirection == TurnLeft && TurningLeft == e then 1 else 0)
             + (if inp.turnDirection == TurnRight && TurningRight == e then 1 else 0)
  {
    var es3 := EarlyStatuses(es, s, inp);
    var es4 := AddIf(es3, inp.turnDirection == TurnLeft, TurningLeft);
    CountAddIf(es3, inp.turnDirection == TurnLeft, TurningLeft, e);
    CountAddIf(es4, inp.turnDirection == TurnRight, TurningRight, e);
  }

  lemma StatusEvents(es: seq<EventName>, s: EngineState, inp: Inputs, e: EventName)
    ensures Count(Statuses(es, s, inp), e) == Count(es, e) + if 15 <= Rank(e) && Raised(s, inp, e) then 1 else 0
  {
    EarlyStatusCounts(es, s, inp, e);
    StatusCounts(es, s, inp, e);
  }

  /** A tick emits each event once if its condition holds and not at all otherwise. */
  lemma StepEvents(s: EngineState, inp: Inputs, e: EventName)
    ensures Count(Step(s, inp).events, e) == if Raised(s, inp, e) then 1 else 0
    ensures e in Step(s, inp).events <==> Raised(s, inp, e)
  {
    var t := Emission(Notices([], s, inp), Expire([], s));
    NoticeEvents(s, inp, e);
    EarlyRandomEvents(t, s, inp, e);
    LateRandomEvents(EarlyRandomRules(t, s, inp), s, inp, e);
    StatusEvents(RandomRules(t, s, inp).events, s, inp, e);
  }

  // ---------------------------------------------------------------------
  // Which store writes a tick makes

  /** The condition under which the source makes store write `op`. */
  predicate Written(s: EngineState, inp: Inputs, op: StoreOp) {
    match op
    case RemoveCurrentRandomEvent => Cooldown(s).expired
    case PutCurrentRandomEvent(c) =>
      || (c == 1 && Steer(s, inp) == Pick(FirefoxPlayed))
      || (c == 2 && Tier(s, inp) == Pick(Accel30Played))
      || (c == 3 && Tier(s, inp) == Pick(Accel35Played))
      || (c == 4 && Tier(s, inp) == Pick(Accel40Played))
      || (c == 5 && FiresDejaVu(s, inp))
  }

  /** Whether firing latch `l` makes write `op`. */
  predicate Writes(l: Latch, op: StoreOp) {
    StoreCode(l) > 0 && op == PutCurrentRandomEvent(StoreCode(l))
  }

  lemma FireIfWrites(t: Emission, c: bool, l: Latch, op: StoreOp)
    ensures op in FireIf(t, c, l).writes <==> op in t.writes || (c && Writes(l, op))
  {
  }

  lemma FirePickWrites(t: Emission, p: Pick, op: StoreOp)
    ensures op in FirePick(t, p).writes <==> op in t.writes || (p.Pick? && Writes(p.latch, op))
  {
  }

  lemma RandomWriteTerms(t: Emission, s: EngineState, inp: Inputs, op: StoreOp)
    ensures op in RandomRules(t, s, inp).writes
            <==> || op in t.writes
                 || (Tier(s, inp).Pick? && Writes(Tier(s, inp).latch, op))
                 || (FiresDejaVu(s, inp) && Writes(DejaVuPlayed, op))
                 || (FiresNoEntry(s, inp) && Writes(NoEntryAlertPlayed, op))
                 || (Steer(s, inp).Pick? && Writes(Steer(s, inp).latch, op))
                 || (FiresVCruise69(s, inp) && Writes(VCruise69Played, op))
                 || (FiresFcw(s, inp) && Writes(FcwPlayed, op))
  {
    var t1 := FirePick(t, Tier(s, inp));
    FirePickWrites(t, Tier(s, inp), op);
    var t2 := FireIf(t1, FiresDejaVu(s, inp), DejaVuPlayed);
    FireIfWrites(t1, FiresDejaVu(s, inp), DejaVuPlayed, op);
    var t3 := FireIf(t2, FiresNoEntry(s, inp), NoEntryAlertPlayed);
    FireIfWrites(t2, FiresNoEntry(s, inp), NoEntryAlertPlayed, op);
    var t4 := FirePick(t3, Steer(s, inp));
    FirePickWrites(t3, Steer(s, inp), op);
    var t5 := FireIf(t4, FiresVCruise69(s, inp), VCruise69Played);
    FireIfWrites(t4, FiresVCruise69(s, inp), VCruise69Played, op);
    FireIfWrites(t5, FiresFcw(s, inp), FcwPlayed, op);
  }

  lemma TierWrites(s: EngineState, inp: Inputs, op: StoreOp)
    ensures (Tier(s, inp).Pick? && Writes(Tier(s, inp).latch, op))
            <==> || (op == PutCurrentRandomEvent(2) && Tier(s, inp) == Pick(Accel30Played))
                 || (op == PutCurrentRandomEvent(3) && Tier(s, inp) == Pick(Accel35Played))
                 || (op == PutCurrentRandomEvent(4) && Tier(s, inp) == Pick(Accel40Played))
  {
  }

  lemma SteerWrites(s: EngineState, inp: Inputs, op: StoreOp)
    ensures (Steer(s, inp).Pick? && Writes(Steer(s, inp).latch, op))
            <==> op == PutCurrentRandomEvent(1) && Steer(s, inp) == Pick(FirefoxPlayed)
  {
  }

  lemma RandomWrites(t: Emission, s: EngineState, inp: Inputs, op: StoreOp)
    ensures op in RandomRules(t, s, inp).writes <==> op in t.writes || (op.PutCurrentRandomEvent? && Written(s, inp, op))
  {
    RandomWriteTerms(t, s, inp, op);
    TierWrites(s, inp, op);
    SteerWrites(s, inp, op);
  }

  /** A tick makes exactly the store writes whose condition holds. */
  lemma StepWrites(s: EngineState, inp: Inputs, op: StoreOp)
    ensures op in Step(s, inp).writes <==> Written(s, inp, op)
  {
    RandomWrites(Emission(Notices([], s, inp), Expire([], s)), s, inp, op);
  }

  /** The removal at the end of a cooldown comes before any write of the tick. */
  lemma RemovalFirst(s: EngineState, inp: Inputs)
    requires Cooldown(s).expired
    ensures |Step(s, inp).writes| > 0 && Step(s, inp).writes[0] == RemoveCurrentRandomEvent
  {
    var t := Emission(Notices([], s, inp), []);
    RandomRulesShift([RemoveCurrentRandomEvent], t, s, inp);
    assert Shifted([RemoveCurrentRandomEvent], t) == Emission(Notices([], s, inp), Expire([], s));
  }

  /** While the cooldown runs, a tick writes nothing to the store. */
  lemma QuietWrites(s: EngineState, inp: Inputs)
    requires Cooldown(s).active
    ensures Step(s, inp).writes == []
  {
    GateClosed(Emission(Notices([], s, inp), Expire([], s)), s.played, s, inp);
  }

  // ---------------------------------------------------------------------
  // The store log of a tick, in order

  /** The single write of code `code` when `c` holds. */
  function PutIf(c: bool, code: nat): seq<StoreOp> {
    if c then [PutCurrentRandomEvent(code)] else []
  }

  /** The write of the chosen tier's code, if a tier is chosen. */
  function PutPick(p: Pick): seq<StoreOp> {
    match p
    case Nothing => []
    case Pick(l) => [PutCurrentRandomEvent(StoreCode(l))]
  }

  /** The removal of `CurrentRandomEvent` when `c` holds. */
  function PutRemoval(c: bool): seq<StoreOp> {
    if c then [RemoveCurrentRandomEvent] else []
  }

  /**
   * The coded writes of the random block in the order the source makes
   * them: the tier's code, then 5 for the curve alert, then 1 for firefox.
   */
  function CodedWrites(s: EngineState, inp: Inputs): seq<StoreOp> {
    PutPick(Tier(s, inp)) + PutIf(FiresDejaVu(s, inp), 5) + PutIf(Steer(s, inp) == Pick(FirefoxPlayed), 1)
  }

  lemma TierLog(t: Emission, s: EngineState, inp: Inputs)
    ensures FirePick(t, Tier(s, inp)).writes == t.writes + PutPick(Tier(s, inp))
  {
  }

  lemma EarlyLog(t: Emission, s: EngineState, inp: Inputs)
    ensures EarlyRandomRules(t, s, inp).writes == t.writes + PutPick(Tier(s, inp)) + PutIf(FiresDejaVu(s, inp), 5)
  {
    var t1 := FirePick(t, Tier(s, inp));
    TierLog(t, s, inp);
    var t2 := FireIf(t1, FiresDejaVu(s, inp), DejaVuPlayed);
    assert t2.writes == t1.writes + PutIf(FiresDejaVu(s, inp), 5);
    assert FireIf(t2, FiresNoEntry(s, inp), NoEntryAlertPlayed).writes == t2.writes;
  }

  lemma LateLog(t: Emission, s: EngineState, inp: Inputs)
    ensures LateRandomRules(t, s, inp).writes == t.writes + PutIf(Steer(s, inp) == Pick(FirefoxPlayed), 1)
  {
    var t1 := FirePick(t, Steer(s, inp));
    assert t1.writes == t.writes + PutIf(Steer(s, inp) == Pick(FirefoxPlayed), 1);
    var t2 := FireIf(t1, FiresVCruise69(s, inp), VCruise69Played);
    assert t2.writes == t1.writes;
    assert FireIf(t2, FiresFcw(s, inp), FcwPlayed).writes == t2.writes;
  }

  lemma RandomLog(t: Emission, s: EngineState, inp: Inputs)
    ensures RandomRules(t, s, inp).writes == t.writes + CodedWrites(s, inp)
  {
    EarlyLog(t, s, inp);
    LateLog(EarlyRandomRules(t, s, inp), s, inp);
    var a, b, c := PutPick(Tier(s, inp)), PutIf(FiresDejaVu(s, inp), 5), PutIf(Steer(s, inp) == Pick(FirefoxPlayed), 1);
    assert t.writes + a + b + c == t.writes + (a + b + c);
  }

  /** A tick's store log, in order: the cooldown removal, then the coded writes. */
  lemma StepLog(s: EngineState, inp: Inputs)
    ensures Step(s, inp).writes == PutRemoval(Cooldown(s).expired) + CodedWrites(s, inp)
  {
    var t := Emission(Notices([], s, inp), Expire([], s));
    RandomLog(t, s, inp);
    assert Expire([], s) == PutRemoval(Cooldown(s).expired);
  }
}
