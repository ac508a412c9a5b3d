# FrogPilot event engine, modelled in Dafny

This project models `FrogPilotEvents`, the per-tick alert engine of FrogPilot's
longitudinal planner. On every model tick its `update`:

- clears the event list;
- runs the four-second cooldown of the "random events";
- adds the plain notices (forcing stop, green light, holiday theme, lead
  departing, openpilot crashed);
- when the cooldown is idle and random events are enabled, tracks the running
  peak acceleration and fires the one-shot random events: three acceleration
  tiers, the curve alert, the no-entry alert, the steer-saturation arbiter,
  the 69 cruise-speed alert and the forward-collision alert;
- adds the status notices (speed limit changed, neural-network torque model
  loaded, traffic mode on/off, turn direction);
- advances its clock.

The random events also write a code to the `CurrentRandomEvent` key of the
in-memory parameter store, and the end of the cooldown removes that key.

Modules:

- `EventTypes`: event names, inputs, store operations, time constants. Time is
  counted in integer hundredths of a second: a tick is 5, the cooldown 400, the
  holiday delay 1000, the torque notice frame 550.
- `EventSpec`: the abstract session state and `Step`, one tick as a closed
  form over the state at the start of the tick.
- `EventRules`: the rules as the source sequences them, each acting on the
  state the previous rule left. `TickIsStep` proves that the chain equals `Step`.
- `Engine`: class `FrogPilotEvents`, with the source's fields updated in
  place. There is one method per `if` block of `update`, each proved to perform
  its rule. `Update` is proved to equal `Step`, and the store is a ghost write log.
- `EventFacts`: exactly which events and which store writes a tick produces.
- `TickProperties`: what one tick guarantees.
- `EventTraces`: runs over input sequences, with lifetime properties.

Below, `frogpilot_events.py` stands for
`selfdrive/frogpilot/controls/lib/frogpilot_events.py`.

## Behaviour as written

The model follows `frogpilot_events.py` where a prose reading of the engine
would suggest otherwise:

- The holiday delay is ten seconds of session age. `self.frame` counts
  seconds, so `self.frame >= 10` means 200 ticks, not ten ticks.
- The running peak is reset only while the gas pedal is pressed. A brake
  input does not reset it. The peak is also kept unchanged through a cooldown,
  so a tier can fire right after a cooldown on a peak reached before it.
- The arbiter chooses only between the two steer-saturation variants. The
  other random events are independent `if` blocks, so several of them can fire
  on the same tick. Its cadence is in seconds of session age: every 50 s with
  two variants left, every 100 s with one. Frame zero qualifies.
- The cooldown ends on the tick on which four seconds are reached. That tick
  already evaluates the random events again.

## Model

| member | source | states |
|---|---|---|
| Engine.FrogPilotEvents.constructor | selfdrive/frogpilot/controls/lib/frogpilot_events.py:12-37 | a new engine has every latch clear, the cooldown idle, timer, peak and clock at zero, no events and no store writes |
| Engine.FrogPilotEvents.Update | selfdrive/frogpilot/controls/lib/frogpilot_events.py:39-159 | one call keeps the invariant, leaves exactly the state, the event list and the appended store writes of `Step` |
| Engine.FrogPilotEvents.AdvanceCooldown | selfdrive/frogpilot/controls/lib/frogpilot_events.py:42-47 | the cooldown block: timer plus one tick while the flag is up; at four seconds flag down, timer zero, key removed |
| Engine.FrogPilotEvents.AddNotices | selfdrive/frogpilot/controls/lib/frogpilot_events.py:49-71 | the five notice blocks in source order |
| Engine.FrogPilotEvents.AddForcingStop | selfdrive/frogpilot/controls/lib/frogpilot_events.py:49-50 | adds the forcing-stop notice when the planner forces a stop |
| Engine.FrogPilotEvents.UpdateGreenLight | selfdrive/frogpilot/controls/lib/frogpilot_events.py:52-57 | green-light alert under its gating, and the stopped-for-light memory update |
| Engine.FrogPilotEvents.AddHoliday | selfdrive/frogpilot/controls/lib/frogpilot_events.py:59-61 | holiday notice once, after ten seconds, when a theme is active |
| Engine.FrogPilotEvents.AddLeadDeparting | selfdrive/frogpilot/controls/lib/frogpilot_events.py:63-64 | adds the lead-departing notice when the planner reports it |
| Engine.FrogPilotEvents.AddCrashNotice | selfdrive/frogpilot/controls/lib/frogpilot_events.py:66-71 | crash notice once, in the flavour chosen by the random-events toggle |
| Engine.FrogPilotEvents.FireRandomEvents | selfdrive/frogpilot/controls/lib/frogpilot_events.py:73-139 | the random block runs only with the cooldown idle and the toggle on |
| Engine.FrogPilotEvents.TrackPeak | selfdrive/frogpilot/controls/lib/frogpilot_events.py:74-79 | peak becomes zero under gas, otherwise the larger of peak and `aEgo` |
| Engine.FrogPilotEvents.FireAccelerationTier | selfdrive/frogpilot/controls/lib/frogpilot_events.py:81-100 | the `elif` chain of the three tiers with codes 2, 3, 4 and the peak reset |
| Engine.FrogPilotEvents.FireDejaVu | selfdrive/frogpilot/controls/lib/frogpilot_events.py:102-106 | curve alert once, code 5 |
| Engine.FrogPilotEvents.FireNoEntry | selfdrive/frogpilot/controls/lib/frogpilot_events.py:108-111 | no-entry alert once, no store write |
| Engine.FrogPilotEvents.ArbitrateSteerSaturated | selfdrive/frogpilot/controls/lib/frogpilot_events.py:113-129 | the arbiter over the list of unplayed variants, with the source's choice codes 1 and 2 |
| Engine.FrogPilotEvents.FireVCruise69 | selfdrive/frogpilot/controls/lib/frogpilot_events.py:131-134 | cruise-speed alert once, in the configured unit |
| Engine.FrogPilotEvents.FireFcw | selfdrive/frogpilot/controls/lib/frogpilot_events.py:136-139 | forward-collision alert once |
| Engine.FrogPilotEvents.AddStatusEvents | selfdrive/frogpilot/controls/lib/frogpilot_events.py:141-159 | the status blocks in source order, then the clock advances one tick |
| Engine.FrogPilotEvents.AddSpeedLimitChanged | selfdrive/frogpilot/controls/lib/frogpilot_events.py:141-142 | speed-limit notice when the alert is on and the limit changed |
| Engine.FrogPilotEvents.AddTorqueNNLoad | selfdrive/frogpilot/controls/lib/frogpilot_events.py:144-145 | torque-model notice at frame 5.5 s when the model name is set |
| Engine.FrogPilotEvents.UpdateTrafficMode | selfdrive/frogpilot/controls/lib/frogpilot_events.py:147-152 | the traffic-mode edge detector and its snapshot update |
| Engine.FrogPilotEvents.AddTurn | selfdrive/frogpilot/controls/lib/frogpilot_events.py:154-157 | left or right turn notice, `elif` |
| EventRules.TickIsStep | selfdrive/frogpilot/controls/lib/frogpilot_events.py:39-159 | the sequential rules, each reading what the previous left, compute the closed-form `Step`: next state, events, appended writes |
| EventRules.SteerRuleIsSteer | selfdrive/frogpilot/controls/lib/frogpilot_events.py:113-129 | the source's list of choice codes and its draw pick the same variant as the latch-level arbiter |
| EventSpec.Step | selfdrive/frogpilot/controls/lib/frogpilot_events.py:39-159 | definition, no contract: one tick as a closed form, the next state together with the event list and the store writes; its properties are the `EventFacts` and `TickProperties` lemmas |
| EventSpec.StepState | selfdrive/frogpilot/controls/lib/frogpilot_events.py:39-159 | definition, no contract: the state after a tick (latches, cooldown flag and timer, peak, green-light and traffic memories, clock); `StepPreservesValid`, `LatchStep`, `CooldownFlag` and `PeakTracking` are about it |
| EventSpec.Emit | selfdrive/frogpilot/controls/lib/frogpilot_events.py:39-159 | definition, no contract: the tick's events and writes, notices then random rules then statuses, after the cooldown's removal; `StepEvents` and `StepLog` are about it |
| EventSpec.Cooldown | selfdrive/frogpilot/controls/lib/frogpilot_events.py:42-46 | definition, no contract: the cooldown block's flag, timer and expiry; `CooldownClock` and `CooldownRuns` are about it |
| EventSpec.Expire | selfdrive/frogpilot/controls/lib/frogpilot_events.py:47 | definition, no contract: the removal of `CurrentRandomEvent` appended when the cooldown ends; `RemovalFirst` and `ClearedAfterCooldown` are about it |
| EventSpec.RandomGate | selfdrive/frogpilot/controls/lib/frogpilot_events.py:73 | definition, no contract: random rules run only with the cooldown idle and the toggle on; `CooldownSuppresses` is about it |
| EventSpec.Peak | selfdrive/frogpilot/controls/lib/frogpilot_events.py:74-79 | definition, no contract: the running peak of `aEgo`, reset under gas; `PeakTracking` is about it |
| EventSpec.Tier | selfdrive/frogpilot/controls/lib/frogpilot_events.py:81-100 | definition, no contract: the acceleration tier the `elif` chain picks; `TierPick`, `TierIff`, `AtMostOneTier` and `TierEffects` are about it |
| EventSpec.Notices | selfdrive/frogpilot/controls/lib/frogpilot_events.py:49-71 | definition, no contract: the five notice blocks appended in source order; `StepEvents` is about it |
| EventSpec.RandomRules | selfdrive/frogpilot/controls/lib/frogpilot_events.py:73-139 | definition, no contract: the random blocks appended in source order with their store writes; `StepEvents`, `StepWrites` and `StepLog` are about it |
| EventSpec.Statuses | selfdrive/frogpilot/controls/lib/frogpilot_events.py:141-157 | definition, no contract: the status blocks appended in source order; `StepEvents` is about it |
| EventRules.Tick | selfdrive/frogpilot/controls/lib/frogpilot_events.py:39-159 | definition, no contract: the rules chained in source order, each reading what the previous left; `TickIsStep` proves it equals `Step` |
| EventSpec.Init | selfdrive/frogpilot/controls/lib/frogpilot_events.py:20-37 | the initial state is valid, idle, at frame zero with every latch clear |
| EventSpec.TierPick | selfdrive/frogpilot/controls/lib/frogpilot_events.py:81-100 | a picked tier is unplayed, in band, with `aEgo` below 1.5; any such tier is the one picked |
| EventSpec.SteerChoices | selfdrive/frogpilot/controls/lib/frogpilot_events.py:114-118 | the candidates are exactly the unplayed variants, at most two, distinct |
| EventSpec.Steer | selfdrive/frogpilot/controls/lib/frogpilot_events.py:113-121 | a chosen variant is firefox or goat and has not played |
| EventFacts.StepPreservesValid | selfdrive/frogpilot/controls/lib/frogpilot_events.py:42-100 | a tick keeps the timer below four seconds, zero while idle, and the peak non-negative |
| EventFacts.StepEvents | selfdrive/frogpilot/controls/lib/frogpilot_events.py:49-157 | each event occurs in a tick's list exactly once when its condition holds and never otherwise, so no event is listed twice |
| EventFacts.StepWrites | selfdrive/frogpilot/controls/lib/frogpilot_events.py:47-124 | a tick makes a store write if and only if the source's condition for it holds: removal at cooldown end, codes 1 to 5 for firefox, the tiers and the curve alert |
| EventFacts.RemovalFirst | selfdrive/frogpilot/controls/lib/frogpilot_events.py:42-47 | the removal at cooldown end precedes every other write of the tick |
| EventFacts.QuietWrites | selfdrive/frogpilot/controls/lib/frogpilot_events.py:73 | while the cooldown runs a tick writes nothing |
| EventFacts.Raised | selfdrive/frogpilot/controls/lib/frogpilot_events.py:49-157 | definition, no contract: for each event, the condition under which its block adds it; `StepEvents` proves each event occurs once exactly under it |
| EventFacts.Written | selfdrive/frogpilot/controls/lib/frogpilot_events.py:47-124 | definition, no contract: for each store operation, the condition under which the tick performs it; `StepWrites` proves the log holds exactly these |
| EventFacts.StepLog | selfdrive/frogpilot/controls/lib/frogpilot_events.py:47-124 | the tick's writes are, in order, the cooldown removal, the tier code, code 5 of the curve alert and code 1 of firefox, each present only when its block writes |
| TickProperties.LatchStep | selfdrive/frogpilot/controls/lib/frogpilot_events.py:59-139 | a latch is set after a tick if and only if it was set or its rule fired; rules fire only while their latch is clear |
| TickProperties.LatchesMonotone | selfdrive/frogpilot/controls/lib/frogpilot_events.py:20-33 | no tick clears a latch |
| TickProperties.AnnouncedIffFires | selfdrive/frogpilot/controls/lib/frogpilot_events.py:59-139 | a latch's event is in the list, exactly once, if and only if the latch fires this tick |
| TickProperties.CrashNoticeOnce | selfdrive/frogpilot/controls/lib/frogpilot_events.py:66-71 | exactly one of the two crash flavours appears when the crash latch fires, matching the toggle, none otherwise |
| TickProperties.CooldownClock | selfdrive/frogpilot/controls/lib/frogpilot_events.py:42-47 | timer advance while running; reset, flag drop and first-place removal at four seconds; zero timer and no removal while idle |
| TickProperties.CooldownFlag | selfdrive/frogpilot/controls/lib/frogpilot_events.py:42-139 | the flag after a tick is up if and only if the cooldown still runs or some random latch fired |
| TickProperties.CooldownSuppresses | selfdrive/frogpilot/controls/lib/frogpilot_events.py:73 | while the cooldown runs: no random-group event, no store write, peak and random latches unchanged, flag still up |
| TickProperties.TierIff | selfdrive/frogpilot/controls/lib/frogpilot_events.py:73-95 | a tier fires if and only if the gate is open, it is unplayed, the updated peak is in its band and `aEgo` is below 1.5 |
| TickProperties.AtMostOneTier | selfdrive/frogpilot/controls/lib/frogpilot_events.py:81-100 | at most one tier event per tick |
| TickProperties.TierEffects | selfdrive/frogpilot/controls/lib/frogpilot_events.py:81-100 | a firing tier is announced, writes its `StoreCode` 2, 3 or 4, latches, raises the flag and zeroes the peak |
| TickProperties.PeakTracking | selfdrive/frogpilot/controls/lib/frogpilot_events.py:73-100 | peak unchanged outside the gate, zero under gas, else the larger of old peak and `aEgo`, zero after a tier |
| TickProperties.SteerCadenceIff | selfdrive/frogpilot/controls/lib/frogpilot_events.py:113-120 | a variant is chosen if and only if the gate is open, the trigger pulses, one is left and the age in seconds divides by 50 (two left) or 100 (one left) |
| TickProperties.SteerDraw | selfdrive/frogpilot/controls/lib/frogpilot_events.py:114-121 | with both left the draw's parity decides; with one left it is chosen |
| TickProperties.SteerEffects | selfdrive/frogpilot/controls/lib/frogpilot_events.py:122-129 | firefox: its event, code 1, its latch, flag up; goat: its event, its latch, flag up, no write |
| TickProperties.SteerExhausted | selfdrive/frogpilot/controls/lib/frogpilot_events.py:113-129 | with both variants played the trigger gives no event, no write and no effect on the flag |
| TickProperties.VCruise69Metric | selfdrive/frogpilot/controls/lib/frogpilot_events.py:131 | the metric window is 69/3.6 to 70/3.6 m/s, upper end excluded |
| TickProperties.VCruise69Imperial | selfdrive/frogpilot/controls/lib/frogpilot_events.py:131 | the imperial window is 69 to 70 mph expressed in m/s, upper end excluded |
| TickProperties.VCruise69Window | selfdrive/frogpilot/controls/lib/frogpilot_events.py:131-134 | the cruise-speed alert is in the tick's list if and only if the gate is open, it has not played and the set speed is in [69/3.6, 70/3.6) m/s (metric) or [69, 70) mph in m/s (imperial) |
| TickProperties.LastWriteWins | selfdrive/frogpilot/controls/lib/frogpilot_events.py:47-124 | replaying a non-empty log of puts and removes leaves the key as the last operation set it |
| TickProperties.StoreAfterTick | selfdrive/frogpilot/controls/lib/frogpilot_events.py:47-124 | after a tick `CurrentRandomEvent` holds 1 if firefox fired, else 5 if the curve alert fired, else the tier's code, else is absent if the cooldown ended, else is unchanged |
| TickProperties.WritesOnce | selfdrive/frogpilot/controls/lib/frogpilot_events.py:47-124 | no store operation occurs twice in one tick's writes |
| TickProperties.TrafficEdgeDetector | selfdrive/frogpilot/controls/lib/frogpilot_events.py:147-152 | active on a rise, inactive on a fall, nothing when steady; the snapshot follows the input |
| TickProperties.GreenLightMemory | selfdrive/frogpilot/controls/lib/frogpilot_events.py:52-57 | green light if and only if toggle, no lead, standstill, model not stopping and stopped for a light before; the memory is the detection under the gating, false otherwise |
| TickProperties.ClockGatedNotices | selfdrive/frogpilot/controls/lib/frogpilot_events.py:59-61 | clock plus one tick; holiday only from ten seconds on; torque notice only at 5.5 s; never both turn notices |
| EventTraces.RunValid | selfdrive/frogpilot/controls/lib/frogpilot_events.py:39-159 | every state of a run from a valid state is valid |
| EventTraces.RunClock | selfdrive/frogpilot/controls/lib/frogpilot_events.py:159 | after n ticks the clock has advanced n ticks |
| EventTraces.LatchesNeverReset | selfdrive/frogpilot/controls/lib/frogpilot_events.py:20-33 | a latch set at the start of a run is set at its end |
| EventTraces.FiresOnce | selfdrive/frogpilot/controls/lib/frogpilot_events.py:59-139 | a latch fires on exactly one tick of a run when it ends set having started clear, on none otherwise |
| EventTraces.AnnouncedAtMostOnce | selfdrive/frogpilot/controls/lib/frogpilot_events.py:59-139 | over a run, each one-shot event is emitted once if its latch became set and never otherwise |
| EventTraces.CrashNoticedOnce | selfdrive/frogpilot/controls/lib/frogpilot_events.py:66-71 | over a session, the two crash flavours together are emitted once if the crash latch ends set, never otherwise |
| EventTraces.CooldownRuns | selfdrive/frogpilot/controls/lib/frogpilot_events.py:42-47 | an undisturbed cooldown's timer counts the ticks |
| EventTraces.CooldownStarts | selfdrive/frogpilot/controls/lib/frogpilot_events.py:73-139 | a tick that fires a random event leaves the flag up and the timer at zero |
| EventTraces.QuietAfterRandomEvent | selfdrive/frogpilot/controls/lib/frogpilot_events.py:42-47 | for the 79 ticks after a random event no random-group event and no store write, whatever the inputs |
| EventTraces.ClearedAfterCooldown | selfdrive/frogpilot/controls/lib/frogpilot_events.py:42-47 | the 80th tick after a random event removes `CurrentRandomEvent` before any other write |
| EventTraces.HolidayNotEarly | selfdrive/frogpilot/controls/lib/frogpilot_events.py:59 | from construction the holiday notice never shows before ten seconds |
| EventTraces.TorqueNoticeTick | selfdrive/frogpilot/controls/lib/frogpilot_events.py:144 | from construction the torque notice can show only on the tick at 5.5 s |

## Left out

- Parameter stores. `Params` and `params_memory` are external key-value
  stores. The engine's writes to `CurrentRandomEvent` are kept as a ghost log
  of put and remove operations. Reading `NNFFModelName` is a boolean input.
- Crash marker. The `os.path.isfile` check on the crash directory is a boolean input.
- Randomness. `random.choice` is replaced by a natural-number draw supplied
  with the inputs. The draw picks the candidate at its index modulo the number
  of candidates, so every unplayed variant can be chosen.
- `self.speed_limit_changed` is never assigned in `frogpilot_events.py`. It is
  an input decided outside the engine.
- Planner facts. Forcing stop, tracking lead, model stopped, stop light
  detected, lead departing and taking a curve quickly are computed elsewhere
  and are inputs here.
- Floating point. The timer and the clock are integers in hundredths of a second:
  - `random_event_timer` adds `DT_MDL` without rounding. Under IEEE doubles
    the tick on which it first reaches four seconds may differ by one from the
    exact count modelled here.
  - `round(self.frame + DT_MDL, 2)` is exact in the integer model.
  - `CV.MS_TO_KPH` and `CV.MS_TO_MPH` are the exact reals 3.6 and 3.6/1.609344.
  - `aEgo`, `max_acceleration` and `v_cruise` are exact reals. NaN and
    infinities are not modelled.
  - `v_cruise * CV.MS_TO_*` at line 131 is rounded to a double in the source.
    For a set speed within rounding distance of the 69 or 70 edge, the source
    and the model can decide the window differently.
- Event ordering. `Events.add` of openpilot's `events` module is not part of
  this model. The model keeps events in the order they are added, and the
  proved properties are about membership and multiplicity only.
- `Events.clear` and the event list are one `seq` field that `Update` resets.
- Latches. The eleven `*_played` attributes are one record of booleans on the
  object. Each rule reassigns only its own latch, and this is proved: the
  other latches stay unchanged.
- `Desire` members other than the two turns are listed for completeness and
  carry no behaviour.
- External enums. openpilot's `EventName` and `Desire` are replaced by
  local datatypes with the members the engine uses.
