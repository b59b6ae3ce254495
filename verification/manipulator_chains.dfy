/** The manipulator's three command chains, built in the source with
    `.then(...)`, and what running them guarantees: the actuators at each
    point of the chain, and that no step after a gamepiece check runs
    before the limit switch has read true. */
module ManipulatorChains {
  import opened Manipulator
  import opened CommandChain

  /** `pickUpCargo`. */
  const PickUpCargo: seq<Step> :=
    [Do(OpenBeak), Do(RollerIntake), Do(RetractArms), AwaitGamepiece, Do(RollerStop)]

  /** `releaseCargo`; the half-second wait is the `AwaitElapsed` step. */
  const ReleaseCargo: seq<Step> :=
    [Do(RollerEject), AwaitGamepiece, AwaitElapsed, Do(RollerStop)]

  /** `pickUpHatch`. */
  const PickUpHatch: seq<Step> :=
    [Do(CloseBeak), Do(RetractArms), AwaitGamepiece, Do(OpenBeak)]

  /** The actuators after the first `k + 1` steps are those after the first
      `k`, then step `k`. */
  lemma ApplyAllSnoc(steps: seq<Step>, k: nat, s: Actuators)
    requires k < |steps|
    ensures ApplyAll(steps[0..k + 1], s) == StepEffect(steps[k], ApplyAll(steps[0..k], s))
  {
    assert steps[0..k + 1] == steps[0..k] + [steps[k]];
    ApplyAllAppend(steps[0..k], [steps[k]], s);
    assert [steps[k]][1..] == [];
  }

  /** The actuators at each cursor position of `pickUpCargo`. */
  lemma PickUpCargoPrefixes(s: Actuators)
    ensures ApplyAll(PickUpCargo[0..0], s) == s
    ensures ApplyAll(PickUpCargo[0..1], s) == Actuators(Forward, s.arms, s.rollers)
    ensures ApplyAll(PickUpCargo[0..2], s) == Actuators(Forward, s.arms, 0.7)
    ensures ApplyAll(PickUpCargo[0..3], s) == Actuators(Forward, Reverse, 0.7)
    ensures ApplyAll(PickUpCargo[0..4], s) == Actuators(Forward, Reverse, 0.7)
    ensures ApplyAll(PickUpCargo[0..5], s) == Actuators(Forward, Reverse, 0.0)
  {
    assert PickUpCargo[0..0] == [];
    ApplyAllSnoc(PickUpCargo, 0, s);
    ApplyAllSnoc(PickUpCargo, 1, s);
    ApplyAllSnoc(PickUpCargo, 2, s);
    ApplyAllSnoc(PickUpCargo, 3, s);
    ApplyAllSnoc(PickUpCargo, 4, s);
  }

  /** `pickUpCargo` stops the rollers only after the limit switch has read
      true: the cursor passes the gamepiece check only then. */
  lemma PickUpCargoWaitsForSwitch(s: Actuators, ticks: seq<Signals>)
    ensures Run(PickUpCargo, Begin(s), ticks).cursor > 3 ==> SignalSeen(AwaitGamepiece, ticks)
  {
    RunWaitsFor(PickUpCargo, Begin(s), ticks, 3);
  }

  /** `pickUpCargo`: the beak opens, the rollers pull in and the arms retract;
      the rollers keep pulling in while the chain waits for the limit switch.
      On completion the beak is forward, the arms reversed and the rollers
      still. */
  lemma PickUpCargoActuators(s: Actuators, ticks: seq<Signals>)
    ensures var c := Run(PickUpCargo, Begin(s), ticks);
      && (c.cursor >= 1 ==> c.act.beak == Forward)
      && (2 <= c.cursor <= 4 ==> c.act.rollers == 0.7)
      && (c.cursor >= 3 ==> c.act.arms == Reverse)
      && (c.cursor == |PickUpCargo| ==> c.act == Actuators(Forward, Reverse, 0.0))
  {
    var c := Run(PickUpCargo, Begin(s), ticks);
    RunApplies(PickUpCargo, Begin(s), ticks);
    PickUpCargoPrefixes(s);
    assert c.act == ApplyAll(PickUpCargo[0..c.cursor], s);
    assert c.cursor in {0, 1, 2, 3, 4, 5};
  }

  /** The actuators at each cursor position of `releaseCargo`. */
  lemma ReleaseCargoPrefixes(s: Actuators)
    ensures ApplyAll(ReleaseCargo[0..0], s) == s
    ensures ApplyAll(ReleaseCargo[0..1], s) == Actuators(s.beak, s.arms, -0.7)
    ensures ApplyAll(ReleaseCargo[0..2], s) == Actuators(s.beak, s.arms, -0.7)
    ensures ApplyAll(ReleaseCargo[0..3], s) == Actuators(s.beak, s.arms, -0.7)
    ensures ApplyAll(ReleaseCargo[0..4], s) == Actuators(s.beak, s.arms, 0.0)
  {
    assert ReleaseCargo[0..0] == [];
    ApplyAllSnoc(ReleaseCargo, 0, s);
    ApplyAllSnoc(ReleaseCargo, 1, s);
    ApplyAllSnoc(ReleaseCargo, 2, s);
    ApplyAllSnoc(ReleaseCargo, 3, s);
  }

  /** `releaseCargo` passes its gamepiece check only after the limit switch
      has read true, and its wait only after the timer has run out. */
  lemma ReleaseCargoWaits(s: Actuators, ticks: seq<Signals>)
    ensures var c := Run(ReleaseCargo, Begin(s), ticks);
      && (c.cursor > 1 ==> SignalSeen(AwaitGamepiece, ticks))
      && (c.cursor > 2 ==> SignalSeen(AwaitElapsed, ticks))
  {
    RunWaitsFor(ReleaseCargo, Begin(s), ticks, 1);
    RunWaitsFor(ReleaseCargo, Begin(s), ticks, 2);
  }

  /** `releaseCargo`: the rollers push out through both waits and are
      stopped on completion.  The pistons are never touched. */
  lemma ReleaseCargoActuators(s: Actuators, ticks: seq<Signals>)
    ensures var c := Run(ReleaseCargo, Begin(s), ticks);
      && c.act.beak == s.beak && c.act.arms == s.arms
      && (1 <= c.cursor <= 3 ==> c.act.rollers == -0.7)
      && (c.cursor == |ReleaseCargo| ==> c.act.rollers == 0.0)
  {
    var c := Run(ReleaseCargo, Begin(s), ticks);
    RunApplies(ReleaseCargo, Begin(s), ticks);
    ReleaseCargoPrefixes(s);
    assert c.act == ApplyAll(ReleaseCargo[0..c.cursor], s);
    assert c.cursor in {0, 1, 2, 3, 4};
  }

  /** The actuators at each cursor position of `pickUpHatch`. */
  lemma PickUpHatchPrefixes(s: Actuators)
    ensures ApplyAll(PickUpHatch[0..0], s) == s
    ensures ApplyAll(PickUpHatch[0..1], s) == Actuators(Reverse, s.arms, s.rollers)
    ensures ApplyAll(PickUpHatch[0..2], s) == Actuators(Reverse, Reverse, s.rollers)
    ensures ApplyAll(PickUpHatch[0..3], s) == Actuators(Reverse, Reverse, s.rollers)
    ensures ApplyAll(PickUpHatch[0..4], s) == Actuators(Forward, Reverse, s.rollers)
  {
    assert PickUpHatch[0..0] == [];
    ApplyAllSnoc(PickUpHatch, 0, s);
    ApplyAllSnoc(PickUpHatch, 1, s);
    ApplyAllSnoc(PickUpHatch, 2, s);
    ApplyAllSnoc(PickUpHatch, 3, s);
  }

  /** `pickUpHatch` opens the beak only after the limit switch has read
      true. */
  lemma PickUpHatchWaitsForSwitch(s: Actuators, ticks: seq<Signals>)
    ensures Run(PickUpHatch, Begin(s), ticks).cursor > 2 ==> SignalSeen(AwaitGamepiece, ticks)
  {
    RunWaitsFor(PickUpHatch, Begin(s), ticks, 2);
  }

  /** `pickUpHatch`: the beak closes and the arms retract; the beak stays
      closed while the chain waits for the limit switch and is open on
      completion.  The rollers are never touched. */
  lemma PickUpHatchActuators(s: Actuators, ticks: seq<Signals>)
    ensures var c := Run(PickUpHatch, Begin(s), ticks);
      && c.act.rollers == s.rollers
      && (1 <= c.cursor <= 3 ==> c.act.beak == Reverse)
      && (c.cursor == 2 ==> c.act == Actuators(Reverse, Reverse, s.rollers))
      && (c.cursor == |PickUpHatch| ==> c.act == Actuators(Forward, Reverse, s.rollers))
  {
    var c := Run(PickUpHatch, Begin(s), ticks);
    RunApplies(PickUpHatch, Begin(s), ticks);
    PickUpHatchPrefixes(s);
    assert c.act == ApplyAll(PickUpHatch[0..c.cursor], s);
    assert c.cursor in {0, 1, 2, 3, 4};
  }

  /** With the limit switch and the timer both reporting in every tick, each
      chain completes in as many ticks as it has steps. */
  lemma {:induction false} ChainsComplete(s: Actuators, ticks: seq<Signals>)
    requires forall i :: 0 <= i < |ticks| ==> ticks[i].gamepiece && ticks[i].elapsed
    ensures |ticks| >= 5 ==> Run(PickUpCargo, Begin(s), ticks).cursor == |PickUpCargo|
    ensures |ticks| >= 4 ==> Run(ReleaseCargo, Begin(s), ticks).cursor == |ReleaseCargo|
    ensures |ticks| >= 4 ==> Run(PickUpHatch, Begin(s), ticks).cursor == |PickUpHatch|
  {
    if |ticks| >= 5 {
      RunCompletes(PickUpCargo, Begin(s), ticks);
    }
    if |ticks| >= 4 {
      RunCompletes(ReleaseCargo, Begin(s), ticks);
      RunCompletes(PickUpHatch, Begin(s), ticks);
    }
  }
}
