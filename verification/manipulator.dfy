/** The manipulator: a beak piston, an arms piston and a roller motor, a
    limit switch that reads true while a gamepiece is held, and the
    commands that set them.

    Each one-shot command (`openBeak`, `rollerIntake`, ...) is a total
    function on the actuator record.  `Intake` and `Eject` are commands
    with a start, a finish test and an end, run over a sequence of ticks
    whose inputs are the limit switch and an abstract "time is up" signal
    standing for the library timer. */
module Manipulator {

  /** A double solenoid's setting (kOff, kForward, kReverse). */
  datatype Piston = Off | Forward | Reverse

  /** Everything the subsystem drives. */
  datatype Actuators = Actuators(beak: Piston, arms: Piston, rollers: real)

  /** `rollerspeed`: the roller duty cycle for intake, negated for eject. */
  const RollerSpeed: real := 0.7

  /** The subsystem's instant commands. */
  datatype Action =
    | OpenBeak
    | CloseBeak
    | ExtendArms
    | RetractArms
    | RollerIntake
    | RollerEject
    | RollerStop

  /** The actuator an action writes. */
  datatype Device = Beak | Arms | Rollers

  function DeviceOf(a: Action): Device {
    match a
    case OpenBeak | CloseBeak => Beak
    case ExtendArms | RetractArms => Arms
    case _ => Rollers
  }

  /** One tick's inputs: the gamepiece limit switch, and whether the
      running timed step's time is up. */
  datatype Signals = Signals(gamepiece: bool, elapsed: bool)

  /** Runs one instant command: it writes its own device and leaves the
      other two as they were. */
  function Apply(a: Action, s: Actuators): (r: Actuators)
    ensures DeviceOf(a) != Beak ==> r.beak == s.beak
    ensures DeviceOf(a) != Arms ==> r.arms == s.arms
    ensures DeviceOf(a) != Rollers ==> r.rollers == s.rollers
    ensures a == OpenBeak ==> r.beak == Forward
    ensures a == CloseBeak ==> r.beak == Reverse
    ensures a == ExtendArms ==> r.arms == Forward
    ensures a == RetractArms ==> r.arms == Reverse
    ensures a == RollerIntake ==> r.rollers == 0.7
    ensures a == RollerEject ==> r.rollers == -0.7
    ensures a == RollerStop ==> r.rollers == 0.0
  {
    match a
    case OpenBeak => s.(beak := Forward)
    case CloseBeak => s.(beak := Reverse)
    case ExtendArms => s.(arms := Forward)
    case RetractArms => s.(arms := Reverse)
    case RollerIntake => s.(rollers := RollerSpeed)
    case RollerEject => s.(rollers := -RollerSpeed)
    case RollerStop => s.(rollers := 0.0)
  }

  /** Running an instant command twice is the same as running it once. */
  lemma ApplyIdempotent(a: Action, s: Actuators)
    ensures Apply(a, Apply(a, s)) == Apply(a, s)
  {}

  /** Commands on different devices commute; on the same device the later
      one wins. */
  lemma ApplyOrder(a: Action, b: Action, s: Actuators)
    ensures DeviceOf(a) != DeviceOf(b) ==> Apply(b, Apply(a, s)) == Apply(a, Apply(b, s))
    ensures DeviceOf(a) == DeviceOf(b) ==> Apply(b, Apply(a, s)) == Apply(b, s)
  {}

  // ---------------------------------------------------------------------
  // Intake and Eject
  // ---------------------------------------------------------------------

  /** The two manipulator commands with a running phase. */
  datatype Routine = Intake | Eject

  /** `initialize`: `Intake` extends the arms and runs the rollers in,
      `Eject` runs them out; the same writes as the one-shot commands. */
  function Start(r: Routine, s: Actuators): (t: Actuators)
    ensures r == Intake ==> t == Apply(RollerIntake, Apply(ExtendArms, s))
    ensures r == Eject ==> t == Apply(RollerEject, s)
  {
    match r
    case Intake => s.(arms := Forward, rollers := RollerSpeed)
    case Eject => s.(rollers := -RollerSpeed)
  }

  /** `isFinished`: `Intake` never finishes; `Eject` is a one-second timed
      command, finished when the timer says so. */
  function RoutineFinished(r: Routine, sig: Signals): (done: bool)
    ensures done ==> r == Eject && sig.elapsed
    ensures r == Eject && sig.elapsed ==> done
  {
    match r
    case Intake => false
    case Eject => sig.elapsed
  }

  /** `end`, which also runs when the command is interrupted: `Intake`
      retracts the arms and stops the rollers, `Eject` stops the rollers. */
  function Stop(r: Routine, s: Actuators): (t: Actuators)
    ensures r == Intake ==> t == Apply(RollerStop, Apply(RetractArms, s))
    ensures r == Eject ==> t == Apply(RollerStop, s)
  {
    match r
    case Intake => s.(arms := Reverse, rollers := 0.0)
    case Eject => s.(rollers := 0.0)
  }

  datatype RoutineState = RoutineState(act: Actuators, finished: bool)

  /** Ticks of a started routine; neither routine has an `execute`. */
  function Await(r: Routine, s: Actuators, ticks: seq<Signals>): (o: RoutineState)
    ensures o.act == (if o.finished then Stop(r, s) else s)
    ensures r == Intake || ticks == [] ==> !o.finished
    decreases |ticks|
  {
    if ticks == [] then RoutineState(s, false)
    else if RoutineFinished(r, ticks[0]) then RoutineState(Stop(r, s), true)
    else Await(r, s, ticks[1..])
  }

  /** The routine scheduled on `s` and run for `ticks`. */
  function RunRoutine(r: Routine, s: Actuators, ticks: seq<Signals>): (o: RoutineState)
    ensures ticks == [] ==> o == RoutineState(s, false)
    ensures ticks != [] && !o.finished ==> o.act == Start(r, s)
    ensures o.finished ==> o.act == Stop(r, Start(r, s))
  {
    if ticks == [] then RoutineState(s, false) else Await(r, Start(r, s), ticks)
  }

  lemma {:induction false} AwaitFinishIff(r: Routine, s: Actuators, ticks: seq<Signals>)
    ensures Await(r, s, ticks).finished <==>
      exists i :: 0 <= i < |ticks| && RoutineFinished(r, ticks[i])
    ensures Await(r, s, ticks).act == (if Await(r, s, ticks).finished then Stop(r, s) else s)
    decreases |ticks|
  {
    if ticks != [] && !RoutineFinished(r, ticks[0]) {
      AwaitFinishIff(r, s, ticks[1..]);
      if exists i :: 0 <= i < |ticks| && RoutineFinished(r, ticks[i]) {
        var i :| 0 <= i < |ticks| && RoutineFinished(r, ticks[i]);
        assert ticks[1..][i - 1] == ticks[i];
      }
    }
  }

  /** `Intake` runs until interrupted with the arms out and the rollers
      pulling in, beak untouched; interrupting it retracts the arms and stops
      the rollers. */
  lemma IntakeBehaviour(s: Actuators, ticks: seq<Signals>)
    requires ticks != []
    ensures var o := RunRoutine(Intake, s, ticks);
      && !o.finished
      && o.act == Actuators(s.beak, Forward, 0.7)
      && Stop(Intake, o.act) == Actuators(s.beak, Reverse, 0.0)
  {
    AwaitFinishIff(Intake, Start(Intake, s), ticks);
  }

  /** `Eject` pushes out at -0.7 until its time is up, then stops the
      rollers; it never touches the pistons. */
  lemma EjectBehaviour(s: Actuators, ticks: seq<Signals>)
    requires ticks != []
    ensures var o := RunRoutine(Eject, s, ticks);
      && (o.finished <==> exists i :: 0 <= i < |ticks| && ticks[i].elapsed)
      && o.act == Actuators(s.beak, s.arms, if o.finished then 0.0 else -0.7)
      && Stop(Eject, o.act) == Actuators(s.beak, s.arms, 0.0)
  {
    AwaitFinishIff(Eject, Start(Eject, s), ticks);
  }
}
