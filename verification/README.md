# Flipper arm and manipulator of an FRC 2019 robot, in Dafny

This project models two subsystems of a 2019 FIRST Robotics Competition robot.

**The flipper arm (`Maflipulator`).** A motor rotates the arm, and a
potentiometer reads its position. The arm can work on either of two sides,
front or back. The subsystem remembers which side it is on. It picks that
side once at start-up from the potentiometer. Every closed-loop or manual
drive command goes through `restrict`. That clamp forces the speed to zero
when the speed would push the arm into the remembered side's hard stop.

Around the clamp sit these commands:
- `manualRotate`, the default command, driven by the joystick;
- `Flip`, which toggles the side and starts a PID move;
- `CrappyFlip`, an open-loop flip;
- the scoring and pickup moves;
- the PID move itself (`moveToPosition`).

From the source's limits, a positive drive lowers the reading. The front
side works between 0.69 and 0.94. The back side works between 0.099 and 0.42.

**The manipulator.** It has a beak piston, an arms piston, a roller motor and
a gamepiece limit switch. Its one-shot commands are total functions on an
actuator record. The `Intake` and `Eject` commands have a start, a finish
test and an end. There are three command chains: `pickUpCargo`,
`releaseCargo` and `pickUpHatch`. Each is a list of steps run by a cursor
that moves on only when the current step finishes. A step that waits on the
limit switch or on a timer finishes in the first tick its signal holds.

Time is a sequence of ticks. Each tick carries the inputs the source reads:
- for the arm: the potentiometer, the joystick, and the PID controller's
  output and on-target flag;
- for the manipulator: the limit switch and an abstract "time is up" signal.

Files:
- `maflipulator.dfy` models the flipper arm.
- `manipulator.dfy` models the manipulator's actuators, one-shot commands,
  `Intake` and `Eject`.
- `command_chain.dfy` holds the chain runner.
- `manipulator_chains.dfy` holds the three chains and their lemmas.

## Model

| member | source | states |
|---|---|---|
| `Maflipulator.InitialSide` | src/main/java/frc/robot/subsystems/Maflipulator.java:50-53 | The start-up side is front exactly when the reading is above 0.5. A reading of exactly 0.5 gives the back side. |
| `Maflipulator.Restrict` | src/main/java/frc/robot/subsystems/Maflipulator.java:68-86 | On the front side, a positive speed at a reading ≤ 0.69 is zeroed, and so is a negative speed at a reading ≥ 0.94. On the back side, a negative speed at ≥ 0.42 is zeroed, and so is a positive speed at ≤ 0.099. Otherwise the speed passes unchanged. The result is 0 or the input, so it is never larger in magnitude. The result never pushes into a stop. |
| `Maflipulator.RestrictIdempotent` | src/main/java/frc/robot/subsystems/Maflipulator.java:68-86 | Clamping a clamped speed again changes nothing. |
| `Maflipulator.RestrictReleasesFromLimit` | src/main/java/frc/robot/subsystems/Maflipulator.java:69-83 | The bounds are inclusive. At or beyond a limit, a speed that drives away from it still passes unchanged. |
| `Maflipulator.RestrictPassesInsideRange` | src/main/java/frc/robot/subsystems/Maflipulator.java:69-83 | Strictly inside a side's working range, every speed passes unchanged. |
| `Maflipulator.Flip` | src/main/java/frc/robot/subsystems/Maflipulator.java:110-123 | The side toggles at once, before the move runs. From front, the move targets 90 and the side becomes back. From back, it targets 270 and the side becomes front. The motor is untouched. |
| `Maflipulator.FlipTwiceRestoresSide` | src/main/java/frc/robot/subsystems/Maflipulator.java:110-123 | Flipping twice restores the arm state. The two flips aim at different targets. |
| `Maflipulator.ScoringPosition` | src/main/java/frc/robot/subsystems/Maflipulator.java:167-179 | The scoring move targets 90 on the front and 270 on the back. The side does not change. |
| `Maflipulator.PickupPosition` | src/main/java/frc/robot/subsystems/Maflipulator.java:181-192 | The pickup move targets 0.94 on the front and 0.099 on the back. The side does not change. |
| `Maflipulator.FlipAimsAtScoringPosition` | src/main/java/frc/robot/subsystems/Maflipulator.java:23-28 | A flip aims at the scoring target of the side it leaves, because each flip position is defined as that side's scoring angle. |
| `Maflipulator.PickupTargetIsOwnStop` | src/main/java/frc/robot/subsystems/Maflipulator.java:185-188 | The start-up rule puts each pickup target on its own side. The target is that side's hard stop: there the clamp refuses outward drive and passes inward drive. |
| `Maflipulator.CrappyFlipEnd` | src/main/java/frc/robot/subsystems/Maflipulator.java:156-161 | As written, the two sequential tests in `end` always leave the front side. |
| `Maflipulator.CorrectedCrappyFlipEnd` | src/main/java/frc/robot/subsystems/Maflipulator.java:156-161 | The intended end always changes the side. |
| `Maflipulator.CorrectedCrappyFlipTracksSensor` | src/main/java/frc/robot/subsystems/Maflipulator.java:140-161 | Once the crappy flip's finish test holds, the corrected end leaves the side that the start-up rule reads from the potentiometer. |
| `Maflipulator.Initialize` | src/main/java/frc/robot/subsystems/Maflipulator.java:129-137 | Only the crappy flip writes the motor on start. It writes 0.5 on the front and -0.5 on the back, without the clamp. Other commands leave the arm unchanged. No command changes the side on start. |
| `Maflipulator.Execute` | src/main/java/frc/robot/subsystems/Maflipulator.java:94-224 | Manual rotation's `execute` (lines 94-97) writes `restrict(joystick * 1)`. A move's `usePIDOutput` (lines 220-224) writes `restrict(correction)`. Each writes one motor value per tick, and that value never pushes into a stop of the remembered side. The side is unchanged. The crappy flip has no execute step. |
| `Maflipulator.End` | src/main/java/frc/robot/subsystems/Maflipulator.java:154-212 | A move's end (lines 209-212) writes 0 and keeps the side. The crappy flip's end (lines 154-163) writes 0 and, as written, leaves front. Manual rotation's end does nothing. |
| `Maflipulator.CrappyFlipDone` | src/main/java/frc/robot/subsystems/Maflipulator.java:139-151 | The crappy flip is done at a reading ≤ 0.25 on the front or ≥ 0.7 on the back. Whenever it is done, the start-up rule would read the arm on the opposite side. |
| `Maflipulator.MoveSettled` | src/main/java/frc/robot/subsystems/Maflipulator.java:204-207 | A move is settled exactly when the controller is on target and the correction lies strictly between -0.1 and 0.1. |
| `Maflipulator.Demand` | src/main/java/frc/robot/subsystems/Maflipulator.java:95-221 | Before the clamp, manual rotation asks for the joystick value, because the scale factor is 1 (line 95). A move asks for the PID correction (line 221). |
| `Maflipulator.IsFinished` | src/main/java/frc/robot/subsystems/Maflipulator.java:102-207 | Manual rotation never finishes (lines 102-105). A move finishes exactly when on target with a correction strictly inside ±0.1 (lines 204-207). The crappy flip finishes at ≤ 0.25 on the front or ≥ 0.7 on the back, and then the reading lies on the opposite side (lines 139-151). |
| `Maflipulator.Steps` | src/main/java/frc/robot/subsystems/Maflipulator.java:89-226 | Ticks of a started command. Manual rotation never finishes. An unfinished clamped command has written once per tick. The crappy flip writes only its stop. A finished command's last write is the stop at 0, and it wrote at most once per tick plus the stop. |
| `Maflipulator.Run` | src/main/java/frc/robot/subsystems/Maflipulator.java:89-226 | A command scheduled and run for a number of ticks. With no ticks nothing happens. An unfinished clamped command has written once per tick. The crappy flip writes ±0.5 first, then only its stop at 0. Any finished command's last write is 0. |
| `Maflipulator.StepsFinishIff` | src/main/java/frc/robot/subsystems/Maflipulator.java:139-151 | A command finishes within a run exactly when some tick meets its finish test. Until then the side does not change. |
| `Maflipulator.ClampedStepsAreSafe` | src/main/java/frc/robot/subsystems/Maflipulator.java:220-224 | Over any run of manual rotation or a PID move, no motor write pushes into a hard stop, and the side is unchanged. |
| `Maflipulator.StepsHoldLastWrite` | src/main/java/frc/robot/subsystems/Maflipulator.java:220-223 | An unfinished clamped command holds the clamped demand of its last tick. |
| `Maflipulator.FinishedStepsStopMotor` | src/main/java/frc/robot/subsystems/Maflipulator.java:209-212 | A finished move or crappy flip leaves the motor at 0. The move keeps the side. The crappy flip leaves front. |
| `Maflipulator.ManualRotateBehaviour` | src/main/java/frc/robot/subsystems/Maflipulator.java:89-108 | Manual rotation never finishes and never changes the side. It writes `restrict(joystick * 1)`, and none of its writes pushes into a stop. |
| `Maflipulator.MoveBehaviour` | src/main/java/frc/robot/subsystems/Maflipulator.java:194-226 | A move finishes exactly when some tick has on-target with a correction of magnitude below 0.1. It then stops the motor. Until then the motor holds `restrict(correction)`. The side is unchanged, and every write respects the clamp. |
| `Maflipulator.FlipMoveRunsOnNewSide` | src/main/java/frc/robot/subsystems/Maflipulator.java:110-122 | The move a flip starts runs and is clamped under the new side, whether or not it finishes. |
| `Maflipulator.CrappyFlipBehaviour` | src/main/java/frc/robot/subsystems/Maflipulator.java:126-165 | It writes 0.5 on the front or -0.5 on the back first. It finishes exactly when a tick reads ≤ 0.25 on the front or ≥ 0.7 on the back. It then leaves the motor at 0 and the side at front. Until then it keeps the side and its speed. |
| `Maflipulator.CrappyStepsKeepSpeed` | src/main/java/frc/robot/subsystems/Maflipulator.java:126-151 | While the crappy flip is unfinished, nothing changes the arm: it has no execute step. |
| `Maflipulator.CrappyFlipBypassesClamp` | src/main/java/frc/robot/subsystems/Maflipulator.java:129-137 | The crappy flip's open-loop write can push into a stop that `restrict` would guard: 0.5 on the front at reading 0.3. |
| `Maflipulator.CrappyFlipLosesTrack` | src/main/java/frc/robot/subsystems/Maflipulator.java:153-163 | A front-to-back crappy flip that finishes at reading 0.2 still reports front, although the start-up rule reads back there. |
| `Manipulator.Apply` | src/main/java/frc/robot/subsystems/Manipulator.java:92-132 | Open or close beak sets the beak forward or reverse. Extend or retract arms sets the arms forward or reverse. Intake, eject and stop set the rollers to 0.7, -0.7 and 0. Each command leaves the other devices unchanged. |
| `Manipulator.ApplyIdempotent` | src/main/java/frc/robot/subsystems/Manipulator.java:92-132 | Running a one-shot command twice equals running it once. |
| `Manipulator.ApplyOrder` | src/main/java/frc/robot/subsystems/Manipulator.java:92-132 | Commands on different devices commute. On the same device the later one wins. |
| `Manipulator.Start` | src/main/java/frc/robot/subsystems/Manipulator.java:150-173 | `Intake` starts as extend arms followed by roller intake. `Eject` starts as roller eject. These are the same writes as the one-shot commands. |
| `Manipulator.RoutineFinished` | src/main/java/frc/robot/subsystems/Manipulator.java:155-158 | `Intake` never finishes by itself. `Eject` finishes exactly when its time is up. No routine finishes on the limit switch. |
| `Manipulator.Stop` | src/main/java/frc/robot/subsystems/Manipulator.java:160-179 | `Intake` ends as retract arms followed by roller stop. `Eject` ends as roller stop. |
| `Manipulator.Await` | src/main/java/frc/robot/subsystems/Manipulator.java:146-181 | A started routine's actuators are its start state until it finishes, and its end applied to that state once it has. `Intake` never finishes. |
| `Manipulator.RunRoutine` | src/main/java/frc/robot/subsystems/Manipulator.java:146-181 | A scheduled routine holds its start state while running and its end applied to the start state once finished. With no ticks nothing happens. |
| `Manipulator.AwaitFinishIff` | src/main/java/frc/robot/subsystems/Manipulator.java:155-163 | A started routine finishes exactly when some tick meets its finish test. It then runs its end once. Until then nothing changes. |
| `Manipulator.IntakeBehaviour` | src/main/java/frc/robot/subsystems/Manipulator.java:146-166 | `Intake` never finishes and holds the arms forward with the rollers at 0.7. The beak is untouched. Interrupting it retracts the arms and stops the rollers. |
| `Manipulator.EjectBehaviour` | src/main/java/frc/robot/subsystems/Manipulator.java:168-181 | `Eject` finishes exactly when its time is up. The rollers are -0.7 before that and 0 after. The pistons are never touched. |
| `CommandChain.Ready` | src/main/java/frc/robot/subsystems/Manipulator.java:134-143 | A one-shot step is ready at once. The gamepiece check is ready exactly when the switch reads true. A timed wait is ready exactly when its time is up. A tick with both signals makes every step ready. |
| `CommandChain.Tick` | src/main/java/frc/robot/subsystems/Manipulator.java:134-143 | Only the step under the cursor runs. The cursor moves on exactly when that step finishes: a one-shot at once, a gamepiece check exactly when the switch reads true. A cursor that stays means no actuator changed; a cursor that moves means that one step took effect. A complete chain stays put. |
| `CommandChain.Run` | src/main/java/frc/robot/subsystems/Manipulator.java:63-87 | The cursor never moves back and never passes the end. It advances at most one step per tick. |
| `CommandChain.RunApplies` | src/main/java/frc/robot/subsystems/Manipulator.java:63-87 | Wherever the cursor stops, the actuators are the one-shot steps it passed, applied in order. |
| `CommandChain.RunWaitsFor` | src/main/java/frc/robot/subsystems/Manipulator.java:134-143 | No step after a wait step runs unless an earlier tick had that step's signal. |
| `CommandChain.RunCompletes` | src/main/java/frc/robot/subsystems/Manipulator.java:63-87 | If every tick has both signals, the chain completes in as many ticks as it has steps left. |
| `ManipulatorChains.PickUpCargoPrefixes` | src/main/java/frc/robot/subsystems/Manipulator.java:65 | The step list `PickUpCargo` is the chain at line 65. This lemma gives the actuators at each cursor position of `pickUpCargo`, in the order open beak, intake, retract arms, check, stop. |
| `ManipulatorChains.PickUpCargoWaitsForSwitch` | src/main/java/frc/robot/subsystems/Manipulator.java:65 | The cursor passes the gamepiece check, and so reaches the roller stop, only if some earlier tick had the switch reading true. |
| `ManipulatorChains.PickUpCargoActuators` | src/main/java/frc/robot/subsystems/Manipulator.java:63-67 | The beak opens, the rollers pull in and the arms retract. The rollers keep pulling in while the chain waits. On completion the beak is forward, the arms reversed and the rollers at 0. |
| `ManipulatorChains.ReleaseCargoPrefixes` | src/main/java/frc/robot/subsystems/Manipulator.java:79 | The step list `ReleaseCargo` is the chain at line 79. This lemma gives the actuators at each cursor position of `releaseCargo`, in the order eject, check, wait, stop. |
| `ManipulatorChains.ReleaseCargoWaits` | src/main/java/frc/robot/subsystems/Manipulator.java:79 | The chain passes its gamepiece check only after a tick with the switch reading true. It passes its wait only after a tick with the timer run out. |
| `ManipulatorChains.ReleaseCargoActuators` | src/main/java/frc/robot/subsystems/Manipulator.java:77-81 | The rollers push out through both waits and are 0 on completion. The pistons are never touched. |
| `ManipulatorChains.PickUpHatchPrefixes` | src/main/java/frc/robot/subsystems/Manipulator.java:85 | The step list `PickUpHatch` is the chain at line 85. This lemma gives the actuators at each cursor position of `pickUpHatch`, in the order close beak, retract arms, check, open beak. |
| `ManipulatorChains.PickUpHatchWaitsForSwitch` | src/main/java/frc/robot/subsystems/Manipulator.java:85 | The beak reopens only after a tick with the switch reading true. |
| `ManipulatorChains.PickUpHatchActuators` | src/main/java/frc/robot/subsystems/Manipulator.java:83-87 | The beak and arms are reversed while the chain waits on the switch. On completion the beak is forward and the arms reversed. The rollers are never touched. |
| `ManipulatorChains.ChainsComplete` | src/main/java/frc/robot/subsystems/Manipulator.java:63-87 | With both signals present in every tick, each chain completes in as many ticks as it has steps. |

## Left out

- Robot.java is not part of this model. It holds the button bindings, the camera set-up and the autonomous start and cancel.
- Leds.java is not part of this model. It holds the light-driver writes, the alliance lookup and the duty-cycle breathing.
- The PID controller is not modelled: its gains, integral and derivative terms, and its `onTarget` tolerance. Its output and on-target flag are per-tick inputs. Its output is used once per tick, although the library calls `usePIDOutput` from its own loop.
- The scheduler is not modelled: subsystem requirements, preemption, and running several commands at once. Interruption appears only as applying a command's end, as for `Intake`.
- The chain runtime comes from a library the source does not show. The model assumes sequential, advance-on-finish execution with one step attempted per tick.
- Real time is not modelled. The half-second wait and the one-second `Eject` timeout are an abstract per-tick "time is up" signal. That signal is not measured from the step's own start.
- `moveCommand.start()` is not scheduled. `Flip`, `ScoringPosition` and `PickupPosition` return the move they would start, and its run is modelled separately.
- Dashboard telemetry, `addChildren`, and the two limit switches the subsystem creates but never reads are left out.
- Floating point is not modelled. Speeds and readings are mathematical reals, and the joystick scale `* 1` is exact.
- The code has no sensor-fault handling, no move timeout and no resource arbiter of its own, so the model has none.
- The side toggles in `Flip` before the move runs, not when the move completes. The model follows the code (`Maflipulator.Flip`).
- The scoring and flip targets (90 and 270) and the clamp limits (0.099 to 0.94) appear to be in different units. The model takes each number as written.
- `releaseCargo` waits for the limit switch to read true after it starts ejecting. This follows the code, even though waiting for the switch to clear would seem more natural.

## Findings

| source | as written | input that shows it | evidently intended | confidence | as-written member | corrected member |
|---|---|---|---|---|---|---|
| src/main/java/frc/robot/subsystems/Maflipulator.java:156-161 | Two sequential `if`s in `CrappyFlip.end`. The first sets front to back, and the second then sets back to front, so the side is always front. | Start on the front and finish at reading 0.2. The side reads front, but the start-up rule gives back. | `else if`, so the side toggles and matches the side the arm reached. | high; not executed | `Maflipulator.CrappyFlipLosesTrack` | `Maflipulator.CorrectedCrappyFlipTracksSensor` |

The run model `Maflipulator.Run` keeps the as-written end, because that is
what the code does. `Maflipulator.CorrectedCrappyFlipEnd` is the intended
toggle. `Maflipulator.CorrectedCrappyFlipTracksSensor` proves that it agrees
with the sensor whenever the flip's finish test holds.
