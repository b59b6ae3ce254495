/** The flipper arm ("Maflipulator"): a motor-driven arm read by a
    potentiometer, with two operating sides.  The subsystem remembers which
    side it believes it is on, and every drive command it issues through
    `Restrict` is clamped so that the arm is never pushed into that side's
    hard stop.

    Direction convention, fixed by the source's limits: a positive drive
    lowers the potentiometer reading, a negative drive raises it.  The
    front side works between 0.69 and 0.94, the back side between 0.099
    and 0.42.

    The PID controller is library code that is not part of this model: its
    output (`correction`) and its `onTarget` flag are inputs, sampled once
    per scheduler tick. */
module Maflipulator {

  /** The two sides the arm can be on (kFront, kBack). */
  datatype Side = Front | Back

  function Opposite(s: Side): Side {
    if s == Front then Back else Front
  }

  const FrontLowerAngle: real := 0.94
  const FrontScoringAngle: real := 90.0
  const FrontFlipPosition: real := FrontScoringAngle
  const FrontUpperAngle: real := 0.69
  const BackLowerAngle: real := 0.099
  const BackScoringAngle: real := 270.0
  const BackFlipPosition: real := BackScoringAngle
  const BackUpperAngle: real := 0.42

  /** Joystick scale factor of manual rotation. */
  const FlipMotorSpeed: real := 1.0

  /** Start-up reading above which the arm is taken to be on the front. */
  const SideThreshold: real := 0.5

  /** Open-loop speed and stop readings of the "crappy" flip. */
  const CrappyFlipSpeed: real := 0.5
  const CrappyFrontDone: real := 0.25
  const CrappyBackDone: real := 0.7

  /** A PID move only counts as finished while its correction is below this. */
  const SettledCorrection: real := 0.1

  function Abs(x: real): real {
    if x < 0.0 then -x else x
  }

  // ---------------------------------------------------------------------
  // Side tracking and the safety clamp
  // ---------------------------------------------------------------------

  /** The side chosen by the constructor from the first potentiometer reading. */
  function InitialSide(pot: real): (s: Side)
    ensures s == Front <==> pot > SideThreshold
    ensures s == Back <==> pot <= SideThreshold
  {
    if pot > SideThreshold then Front else Back
  }

  /** Reference definition of the clamp: `speed` would push the arm, now at
      reading `pot`, further into a hard stop of `side`.  Each side has one
      stop per direction, and both bounds are inclusive. */
  predicate PushesIntoStop(side: Side, speed: real, pot: real) {
    match side
    case Front =>
      || (speed > 0.0 && pot <= FrontUpperAngle)
      || (speed < 0.0 && pot >= FrontLowerAngle)
    case Back =>
      || (speed < 0.0 && pot >= BackUpperAngle)
      || (speed > 0.0 && pot <= BackLowerAngle)
  }

  /** `restrict`: the speed actually sent to the motor.  Written as the
      source writes it, two sequential tests that may each zero the speed. */
  function Restrict(speed: real, pot: real, side: Side): (r: real)
    ensures side == Front && speed > 0.0 && pot <= FrontUpperAngle ==> r == 0.0
    ensures side == Front && speed < 0.0 && pot >= FrontLowerAngle ==> r == 0.0
    ensures side == Back && speed < 0.0 && pot >= BackUpperAngle ==> r == 0.0
    ensures side == Back && speed > 0.0 && pot <= BackLowerAngle ==> r == 0.0
    ensures r == (if PushesIntoStop(side, speed, pot) then 0.0 else speed)
    ensures r == 0.0 || r == speed
    ensures Abs(r) <= Abs(speed)
    ensures !PushesIntoStop(side, r, pot)
  {
    if side == Front then
      var s1 := if speed > 0.0 && pot <= FrontUpperAngle then 0.0 else speed;
      if s1 < 0.0 && pot >= FrontLowerAngle then 0.0 else s1
    else
      var s1 := if speed < 0.0 && pot >= BackUpperAngle then 0.0 else speed;
      if s1 > 0.0 && pot <= BackLowerAngle then 0.0 else s1
  }

  /** Clamping an already clamped speed changes nothing. */
  lemma RestrictIdempotent(speed: real, pot: real, side: Side)
    ensures Restrict(Restrict(speed, pot, side), pot, side) == Restrict(speed, pot, side)
  {}

  /** At or beyond a limit the arm can still be driven back, away from it. */
  lemma RestrictReleasesFromLimit(speed: real, pot: real)
    ensures pot <= FrontUpperAngle && speed <= 0.0 ==> Restrict(speed, pot, Front) == speed
    ensures pot >= FrontLowerAngle && speed >= 0.0 ==> Restrict(speed, pot, Front) == speed
    ensures pot >= BackUpperAngle && speed >= 0.0 ==> Restrict(speed, pot, Back) == speed
    ensures pot <= BackLowerAngle && speed <= 0.0 ==> Restrict(speed, pot, Back) == speed
  {}

  /** Strictly inside a side's working range every speed passes unchanged. */
  lemma RestrictPassesInsideRange(speed: real, pot: real)
    ensures FrontUpperAngle < pot < FrontLowerAngle ==> Restrict(speed, pot, Front) == speed
    ensures BackLowerAngle < pot < BackUpperAngle ==> Restrict(speed, pot, Back) == speed
  {}

  // ---------------------------------------------------------------------
  // Commands
  // ---------------------------------------------------------------------

  /** What the subsystem owns: the side it believes it is on and the last
      speed written to the flip motor. */
  datatype Arm = Arm(side: Side, motor: real)

  /** One scheduler tick's worth of inputs: the potentiometer, the co-pilot
      joystick's left Y axis, and the PID controller's output and on-target
      flag. */
  datatype Sample = Sample(pot: real, joystick: real, correction: real, onTarget: bool)

  /** A write to the flip motor and the reading at which it was made. */
  datatype Write = Write(speed: real, pot: real)

  /** The commands that drive the flip motor. */
  datatype Command =
    | ManualRotate
    | CrappyFlip
    | MoveToPosition(target: real)

  /** An instant command's result: the new arm state and the move it starts. */
  datatype Launch = Launch(arm: Arm, move: Command)

  /** `Flip`: toggles the remembered side at once, before the move it starts
      has done anything, and moves to the flip position of the side it leaves. */
  function Flip(arm: Arm): (r: Launch)
    ensures r.arm.side == Opposite(arm.side) && r.arm.motor == arm.motor
    ensures arm.side == Front ==> r.move == MoveToPosition(90.0) && r.arm.side == Back
    ensures arm.side == Back ==> r.move == MoveToPosition(270.0) && r.arm.side == Front
  {
    if arm.side == Front then
      Launch(arm.(side := Back), MoveToPosition(FrontFlipPosition))
    else
      Launch(arm.(side := Front), MoveToPosition(BackFlipPosition))
  }

  /** Flipping twice restores the remembered side, and the two flips aim at
      different positions. */
  lemma FlipTwiceRestoresSide(arm: Arm)
    ensures Flip(Flip(arm).arm).arm == arm
    ensures Flip(Flip(arm).arm).move != Flip(arm).move
  {}

  /** `PIDScoringPosition`: the scoring angle of the current side. */
  function ScoringPosition(arm: Arm): (r: Launch)
    ensures r.arm == arm
    ensures r.move == MoveToPosition(if arm.side == Front then 90.0 else 270.0)
  {
    if arm.side == Front then Launch(arm, MoveToPosition(FrontScoringAngle))
    else Launch(arm, MoveToPosition(BackScoringAngle))
  }

  /** `PIDPickupPosition`: the lower limit of the current side. */
  function PickupPosition(arm: Arm): (r: Launch)
    ensures r.arm == arm
    ensures r.move == MoveToPosition(if arm.side == Front then 0.94 else 0.099)
  {
    if arm.side == Front then Launch(arm, MoveToPosition(FrontLowerAngle))
    else Launch(arm, MoveToPosition(BackLowerAngle))
  }

  /** A flip aims where scoring on the side being left would aim. */
  lemma FlipAimsAtScoringPosition(arm: Arm)
    ensures Flip(arm).move == ScoringPosition(arm).move
  {}

  /** The pickup target lies on its own side (by the start-up rule), and it
      is that side's hard stop: there the clamp refuses to drive further
      outward, yet lets the arm back in. */
  lemma PickupTargetIsOwnStop(arm: Arm, speed: real)
    ensures InitialSide(PickupPosition(arm).move.target) == arm.side
    ensures var t := PickupPosition(arm).move.target;
      && (arm.side == Front && speed < 0.0 ==> Restrict(speed, t, Front) == 0.0)
      && (arm.side == Front && speed > 0.0 ==> Restrict(speed, t, Front) == speed)
      && (arm.side == Back && speed > 0.0 ==> Restrict(speed, t, Back) == 0.0)
      && (arm.side == Back && speed < 0.0 ==> Restrict(speed, t, Back) == speed)
  {}

  /** `CrappyFlip.isFinished`: the arm has swung far enough that the
      start-up rule would read it on the other side. */
  function CrappyFlipDone(pot: real, side: Side): (done: bool)
    ensures done <==> (side == Front && pot <= 0.25) || (side == Back && pot >= 0.7)
    ensures done ==> InitialSide(pot) == Opposite(side)
  {
    (pot <= CrappyFrontDone && side == Front) || (pot >= CrappyBackDone && side == Back)
  }

  /** `moveToPosition.isFinished`: on target, with a correction strictly
      between -0.1 and 0.1. */
  function MoveSettled(onTarget: bool, correction: real): (settled: bool)
    ensures settled <==> onTarget && -0.1 < correction < 0.1
  {
    onTarget && Abs(correction) < SettledCorrection
  }

  /** `CrappyFlip.end`'s side update as written: two sequential tests, the
      second of which undoes the first. */
  function CrappyFlipEnd(side: Side): (r: Side)
    ensures r == Front
  {
    var s1 := if side.Front? then Back else side;
    if s1.Back? then Front else s1
  }

  /** The side update `CrappyFlip.end` evidently intends: a toggle. */
  function CorrectedCrappyFlipEnd(side: Side): (r: Side)
    ensures r != side
  {
    if side == Front then Back else Front
  }

  /** With the corrected end, a finished crappy flip leaves the remembered
      side agreeing with the side the start-up rule reads off the
      potentiometer. */
  lemma CorrectedCrappyFlipTracksSensor(pot: real, side: Side)
    requires CrappyFlipDone(pot, side)
    ensures CorrectedCrappyFlipEnd(side) == InitialSide(pot)
  {}

  /** An arm state and the motor writes produced along the way. */
  datatype Effect = Effect(arm: Arm, writes: seq<Write>)

  /** The speed a clamped command asks for before `Restrict`. */
  function Demand(cmd: Command, s: Sample): (d: real)
    ensures cmd.ManualRotate? ==> d == s.joystick
    ensures cmd.MoveToPosition? ==> d == s.correction
    ensures cmd.CrappyFlip? ==> d == 0.0
  {
    match cmd
    case ManualRotate => s.joystick * FlipMotorSpeed
    case MoveToPosition(_) => s.correction
    case CrappyFlip => 0.0
  }

  /** `initialize`: only the crappy flip writes the motor (open loop, not
      through `Restrict`); a move resets and enables the PID controller,
      which is outside this model. */
  function Initialize(cmd: Command, arm: Arm, pot: real): (e: Effect)
    ensures e.arm.side == arm.side
    ensures cmd.CrappyFlip? ==>
              e.writes == [Write(e.arm.motor, pot)] && e.arm.motor == (if arm.side == Front then 0.5 else -0.5)
    ensures !cmd.CrappyFlip? ==> e == Effect(arm, [])
  {
    match cmd
    case CrappyFlip =>
      var v := if arm.side == Front then CrappyFlipSpeed else -CrappyFlipSpeed;
      Effect(arm.(motor := v), [Write(v, pot)])
    case _ => Effect(arm, [])
  }

  /** `execute` (manual rotation) and `usePIDOutput` (moves): the demand is
      clamped for the remembered side and written to the motor. */
  function Execute(cmd: Command, arm: Arm, s: Sample): (e: Effect)
    ensures e.arm.side == arm.side
    ensures cmd.CrappyFlip? ==> e == Effect(arm, [])
    ensures !cmd.CrappyFlip? ==>
              e.writes == [Write(e.arm.motor, s.pot)] && !PushesIntoStop(arm.side, e.arm.motor, s.pot)
    ensures cmd.ManualRotate? ==> e.arm.motor == Restrict(s.joystick * FlipMotorSpeed, s.pot, arm.side)
    ensures cmd.MoveToPosition? ==> e.arm.motor == Restrict(s.correction, s.pot, arm.side)
  {
    match cmd
    case CrappyFlip => Effect(arm, [])
    case _ =>
      var v := Restrict(Demand(cmd, s), s.pot, arm.side);
      Effect(arm.(motor := v), [Write(v, s.pot)])
  }

  /** `isFinished`: manual rotation never finishes; a move finishes once
      settled; the crappy flip once the arm reads as the other side. */
  function IsFinished(cmd: Command, side: Side, s: Sample): (done: bool)
    ensures cmd.ManualRotate? ==> !done
    ensures cmd.MoveToPosition? ==> (done <==> s.onTarget && -0.1 < s.correction < 0.1)
    ensures cmd.CrappyFlip? ==> (done <==> (side == Front && s.pot <= 0.25) || (side == Back && s.pot >= 0.7))
    ensures cmd.CrappyFlip? && done ==> InitialSide(s.pot) == Opposite(side)
  {
    match cmd
    case ManualRotate => false
    case CrappyFlip => CrappyFlipDone(s.pot, side)
    case MoveToPosition(_) => MoveSettled(s.onTarget, s.correction)
  }

  /** `end`: a move and the crappy flip stop the motor; manual rotation keeps
      the default, which does nothing. */
  function End(cmd: Command, arm: Arm, pot: real): (e: Effect)
    ensures cmd.ManualRotate? ==> e == Effect(arm, [])
    ensures !cmd.ManualRotate? ==> e.arm.motor == 0.0 && e.writes == [Write(0.0, pot)]
    ensures cmd.MoveToPosition? ==> e.arm.side == arm.side
    ensures cmd.CrappyFlip? ==> e.arm.side == Front
  {
    match cmd
    case ManualRotate => Effect(arm, [])
    case CrappyFlip => Effect(Arm(CrappyFlipEnd(arm.side), 0.0), [Write(0.0, pot)])
    case MoveToPosition(_) => Effect(arm.(motor := 0.0), [Write(0.0, pot)])
  }

  /** Where a command is after a run of ticks. */
  datatype Outcome = Outcome(arm: Arm, finished: bool, writes: seq<Write>)

  /** Ticks of a started command: execute, then test for the end; a
      finished command runs `end` and ignores the remaining samples. */
  function Steps(cmd: Command, arm: Arm, samples: seq<Sample>): (o: Outcome)
    ensures cmd.ManualRotate? ==> !o.finished
    ensures !o.finished && !cmd.CrappyFlip? ==> |o.writes| == |samples|
    ensures cmd.CrappyFlip? ==> |o.writes| == (if o.finished then 1 else 0)
    ensures o.finished ==> 1 <= |o.writes| <= |samples| + 1 && o.writes[|o.writes| - 1].speed == 0.0
    decreases |samples|
  {
    if samples == [] then Outcome(arm, false, [])
    else
      var e := Execute(cmd, arm, samples[0]);
      if IsFinished(cmd, e.arm.side, samples[0]) then
        var f := End(cmd, e.arm, samples[0].pot);
        Outcome(f.arm, true, e.writes + f.writes)
      else
        var rest := Steps(cmd, e.arm, samples[1..]);
        Outcome(rest.arm, rest.finished, e.writes + rest.writes)
  }

  /** A command scheduled on `arm` and run for `samples`: `initialize` in the
      first tick, then the ticks as in `Steps`. */
  function Run(cmd: Command, arm: Arm, samples: seq<Sample>): (o: Outcome)
    ensures samples == [] ==> o == Outcome(arm, false, [])
    ensures !o.finished && !cmd.CrappyFlip? ==> |o.writes| == |samples|
    ensures cmd.CrappyFlip? && samples != [] ==>
              && |o.writes| == (if o.finished then 2 else 1)
              && o.writes[0].speed == (if arm.side == Front then 0.5 else -0.5)
    ensures o.finished ==> o.writes != [] && o.writes[|o.writes| - 1].speed == 0.0
  {
    if samples == [] then Outcome(arm, false, [])
    else
      var i := Initialize(cmd, arm, samples[0].pot);
      var o := Steps(cmd, i.arm, samples);
      Outcome(o.arm, o.finished, i.writes + o.writes)
  }

  /** Every write in `writes` respects the clamp of `side`. */
  predicate AllClamped(side: Side, writes: seq<Write>) {
    forall i :: 0 <= i < |writes| ==> !PushesIntoStop(side, writes[i].speed, writes[i].pot)
  }

  lemma AllClampedAppend(side: Side, a: seq<Write>, b: seq<Write>)
    requires AllClamped(side, a) && AllClamped(side, b)
    ensures AllClamped(side, a + b)
  {
    forall i | 0 <= i < |a + b|
      ensures !PushesIntoStop(side, (a + b)[i].speed, (a + b)[i].pot)
    {
      if i >= |a| {
        assert (a + b)[i] == b[i - |a|];
      }
    }
  }

  /** A command finishes within `samples` exactly when one of them meets its
      finish test; until then the remembered side does not change. */
  lemma {:induction false} StepsFinishIff(cmd: Command, arm: Arm, samples: seq<Sample>)
    ensures Steps(cmd, arm, samples).finished <==>
      exists i :: 0 <= i < |samples| && IsFinished(cmd, arm.side, samples[i])
    ensures !Steps(cmd, arm, samples).finished ==> Steps(cmd, arm, samples).arm.side == arm.side
    decreases |samples|
  {
    if samples != [] {
      var e := Execute(cmd, arm, samples[0]);
      if !IsFinished(cmd, e.arm.side, samples[0]) {
        StepsFinishIff(cmd, e.arm, samples[1..]);
        if exists i :: 0 <= i < |samples| && IsFinished(cmd, arm.side, samples[i]) {
          var i :| 0 <= i < |samples| && IsFinished(cmd, arm.side, samples[i]);
          assert samples[1..][i - 1] == samples[i];
        }
      }
    }
  }

  /** Manual rotation and PID moves never push into a hard stop of the side
      they run on, and neither changes that side. */
  lemma {:induction false} ClampedStepsAreSafe(cmd: Command, arm: Arm, samples: seq<Sample>)
    requires !cmd.CrappyFlip?
    ensures Steps(cmd, arm, samples).arm.side == arm.side
    ensures AllClamped(arm.side, Steps(cmd, arm, samples).writes)
    decreases |samples|
  {
    if samples != [] {
      var e := Execute(cmd, arm, samples[0]);
      if IsFinished(cmd, e.arm.side, samples[0]) {
        var f := End(cmd, e.arm, samples[0].pot);
        AllClampedAppend(arm.side, e.writes, f.writes);
      } else {
        ClampedStepsAreSafe(cmd, e.arm, samples[1..]);
        AllClampedAppend(arm.side, e.writes, Steps(cmd, e.arm, samples[1..]).writes);
      }
    }
  }

  /** A command that has not finished holds the speed of its last tick. */
  lemma {:induction false} StepsHoldLastWrite(cmd: Command, arm: Arm, samples: seq<Sample>)
    requires !cmd.CrappyFlip? && samples != []
    requires !Steps(cmd, arm, samples).finished
    ensures Steps(cmd, arm, samples).arm
         == arm.(motor := Restrict(Demand(cmd, samples[|samples| - 1]), samples[|samples| - 1].pot, arm.side))
    decreases |samples|
  {
    var e := Execute(cmd, arm, samples[0]);
    if |samples| > 1 {
      assert samples[1..][|samples[1..]| - 1] == samples[|samples| - 1];
      StepsHoldLastWrite(cmd, e.arm, samples[1..]);
    }
  }

  /** A finished move or crappy flip leaves the motor stopped. */
  lemma {:induction false} FinishedStepsStopMotor(cmd: Command, arm: Arm, samples: seq<Sample>)
    requires !cmd.ManualRotate?
    requires Steps(cmd, arm, samples).finished
    ensures Steps(cmd, arm, samples).arm.motor == 0.0
    ensures cmd.MoveToPosition? ==> Steps(cmd, arm, samples).arm.side == arm.side
    ensures cmd.CrappyFlip? ==> Steps(cmd, arm, samples).arm.side == Front
    decreases |samples|
  {
    var e := Execute(cmd, arm, samples[0]);
    if !IsFinished(cmd, e.arm.side, samples[0]) {
      FinishedStepsStopMotor(cmd, e.arm, samples[1..]);
    }
  }

  /** `manualRotate`, the default command: it never finishes, never changes
      the side, always writes the clamped joystick value and never pushes
      into a hard stop. */
  lemma ManualRotateBehaviour(arm: Arm, samples: seq<Sample>)
    ensures var o := Run(ManualRotate, arm, samples);
      && !o.finished
      && o.arm.side == arm.side
      && AllClamped(arm.side, o.writes)
      && (samples != [] ==>
            o.arm.motor == Restrict(samples[|samples| - 1].joystick * FlipMotorSpeed, samples[|samples| - 1].pot, arm.side))
  {
    if samples != [] {
      StepsFinishIff(ManualRotate, arm, samples);
      ClampedStepsAreSafe(ManualRotate, arm, samples);
      StepsHoldLastWrite(ManualRotate, arm, samples);
    }
  }

  /** `moveToPosition`: it finishes exactly when some tick is on target with
      a correction below 0.1, stopping the motor; until then the motor holds
      the clamped correction.  No write pushes into a hard stop and the side
      does not change. */
  lemma MoveBehaviour(target: real, arm: Arm, samples: seq<Sample>)
    ensures var o := Run(MoveToPosition(target), arm, samples);
      && (o.finished <==>
            exists i :: 0 <= i < |samples| && samples[i].onTarget && -0.1 < samples[i].correction < 0.1)
      && (o.finished ==> o.arm.motor == 0.0)
      && (!o.finished && samples != [] ==>
            o.arm.motor == Restrict(samples[|samples| - 1].correction, samples[|samples| - 1].pot, arm.side))
      && o.arm.side == arm.side
      && AllClamped(arm.side, o.writes)
  {
    var cmd := MoveToPosition(target);
    if samples != [] {
      StepsFinishIff(cmd, arm, samples);
      ClampedStepsAreSafe(cmd, arm, samples);
      if Steps(cmd, arm, samples).finished {
        FinishedStepsStopMotor(cmd, arm, samples);
      } else {
        StepsHoldLastWrite(cmd, arm, samples);
      }
    }
  }

  /** The move a flip starts runs under the side the flip already switched
      to, whether or not it ever finishes. */
  lemma FlipMoveRunsOnNewSide(arm: Arm, samples: seq<Sample>)
    ensures var l := Flip(arm);
      var o := Run(l.move, l.arm, samples);
      o.arm.side == Opposite(arm.side) && AllClamped(Opposite(arm.side), o.writes)
  {
    MoveBehaviour(Flip(arm).move.target, Flip(arm).arm, samples);
  }

  /** `CrappyFlip` as written: it first drives 0.5 (front) or -0.5 (back)
      without the clamp, finishes exactly when the reading passes 0.25
      (front) or 0.7 (back), then stops the motor and always reports the
      front side. */
  lemma CrappyFlipBehaviour(arm: Arm, samples: seq<Sample>)
    ensures var o := Run(CrappyFlip, arm, samples);
      && (samples != [] ==> o.writes[0] == Write(if arm.side == Front then 0.5 else -0.5, samples[0].pot))
      && (o.finished <==>
            exists i :: 0 <= i < |samples| &&
              ((arm.side == Front && samples[i].pot <= 0.25) || (arm.side == Back && samples[i].pot >= 0.7)))
      && (o.finished ==> o.arm == Arm(Front, 0.0))
      && (!o.finished && samples != [] ==>
            o.arm.side == arm.side && o.arm.motor == (if arm.side == Front then 0.5 else -0.5))
  {
    if samples != [] {
      var i := Initialize(CrappyFlip, arm, samples[0].pot);
      StepsFinishIff(CrappyFlip, i.arm, samples);
      if Steps(CrappyFlip, i.arm, samples).finished {
        FinishedStepsStopMotor(CrappyFlip, i.arm, samples);
      } else {
        CrappyStepsKeepSpeed(i.arm, samples);
      }
    }
  }

  lemma {:induction false} CrappyStepsKeepSpeed(arm: Arm, samples: seq<Sample>)
    requires !Steps(CrappyFlip, arm, samples).finished
    ensures Steps(CrappyFlip, arm, samples).arm == arm
    decreases |samples|
  {
    if samples != [] {
      CrappyStepsKeepSpeed(arm, samples[1..]);
    }
  }

  /** The open-loop crappy flip can drive straight into a stop the clamp
      would guard: on the front side at reading 0.3 it writes 0.5. */
  lemma CrappyFlipBypassesClamp()
    ensures var o := Run(CrappyFlip, Arm(Front, 0.0), [Sample(0.3, 0.0, 0.0, false)]);
      o.writes[0] == Write(0.5, 0.3) && PushesIntoStop(Front, 0.5, 0.3)
  {}

  /** The as-written end loses track of the side: a front-to-back crappy flip
      that finishes at reading 0.2 still reports the front side, although
      the start-up rule would read the back side there. */
  lemma CrappyFlipLosesTrack()
    ensures var o := Run(CrappyFlip, Arm(Front, 0.0), [Sample(0.2, 0.0, 0.0, false)]);
      o.finished && o.arm.side == Front && InitialSide(0.2) == Back
  {}
}
