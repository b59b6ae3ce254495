/** A command chain: an ordered list of steps run one at a time.  The chain
    keeps a cursor on the step it is running; in each tick that step runs
    and, if it reports finished, the cursor moves on to the next one.  The
    chain is complete once the cursor has passed the last step.

    One-shot steps finish in the tick they run.  A wait step finishes in
    the first tick its signal holds: the gamepiece limit switch, or the
    "time is up" signal of a timed wait. */
module CommandChain {
  import opened Manipulator

  datatype Step =
    | Do(action: Action)
    | AwaitGamepiece
    | AwaitElapsed

  /** Whether `step` reports finished in a tick with inputs `sig`. */
  function Ready(step: Step, sig: Signals): (ready: bool)
    ensures step.Do? ==> ready
    ensures step == AwaitGamepiece ==> (ready <==> sig.gamepiece)
    ensures step == AwaitElapsed ==> (ready <==> sig.elapsed)
    ensures sig.gamepiece && sig.elapsed ==> ready
  {
    match step
    case Do(_) => true
    case AwaitGamepiece => sig.gamepiece
    case AwaitElapsed => sig.elapsed
  }

  /** What running `step` does to the actuators; wait steps touch nothing. */
  function StepEffect(step: Step, s: Actuators): Actuators {
    match step
    case Do(a) => Apply(a, s)
    case _ => s
  }

  /** The actuators after the one-shot steps of `steps`, in order. */
  function ApplyAll(steps: seq<Step>, s: Actuators): Actuators
    decreases |steps|
  {
    if steps == [] then s else ApplyAll(steps[1..], StepEffect(steps[0], s))
  }

  lemma {:induction false} ApplyAllAppend(xs: seq<Step>, ys: seq<Step>, s: Actuators)
    ensures ApplyAll(xs + ys, s) == ApplyAll(ys, ApplyAll(xs, s))
    decreases |xs|
  {
    if xs != [] {
      assert (xs + ys)[1..] == xs[1..] + ys;
      ApplyAllAppend(xs[1..], ys, StepEffect(xs[0], s));
    } else {
      assert xs + ys == ys;
    }
  }

  /** A running chain: the cursor and the actuators. */
  datatype Chain = Chain(cursor: nat, act: Actuators)

  /** A chain about to run its first step. */
  function Begin(s: Actuators): Chain {
    Chain(0, s)
  }

  /** One tick of a chain.  Only the step under the cursor runs; the cursor
      moves on exactly when that step finishes, and a complete chain stays
      as it is. */
  function Tick(steps: seq<Step>, c: Chain, sig: Signals): (r: Chain)
    ensures c.cursor >= |steps| ==> r == c
    ensures c.cursor < |steps| ==>
              && (r.cursor == c.cursor + 1 <==> Ready(steps[c.cursor], sig))
              && (r.cursor == c.cursor || r.cursor == c.cursor + 1)
    ensures r.cursor == c.cursor ==> r.act == c.act
    ensures c.cursor < |steps| && r.cursor == c.cursor + 1 ==> r.act == StepEffect(steps[c.cursor], c.act)
  {
    if c.cursor >= |steps| then c
    else if Ready(steps[c.cursor], sig) then Chain(c.cursor + 1, StepEffect(steps[c.cursor], c.act))
    else c
  }

  /** A chain run for `ticks`.  The cursor never moves back, never passes the
      end and advances at most one step per tick. */
  function Run(steps: seq<Step>, c: Chain, ticks: seq<Signals>): (r: Chain)
    ensures c.cursor <= r.cursor <= c.cursor + |ticks|
    ensures c.cursor <= |steps| ==> r.cursor <= |steps|
    decreases |ticks|
  {
    if ticks == [] then c else Run(steps, Tick(steps, c, ticks[0]), ticks[1..])
  }

  /** Wherever the cursor stops, the actuators are what the one-shot steps it
      passed made of them, in order; wait steps change nothing. */
  lemma {:induction false} RunApplies(steps: seq<Step>, c: Chain, ticks: seq<Signals>)
    requires c.cursor <= |steps|
    ensures Run(steps, c, ticks).act == ApplyAll(steps[c.cursor..Run(steps, c, ticks).cursor], c.act)
    decreases |ticks|
  {
    if ticks != [] {
      var c1 := Tick(steps, c, ticks[0]);
      var r := Run(steps, c1, ticks[1..]);
      RunApplies(steps, c1, ticks[1..]);
      if c1.cursor == c.cursor {
        assert steps[c.cursor..c1.cursor] == [];
      } else {
        assert steps[c.cursor..c1.cursor] == [steps[c.cursor]];
        assert [steps[c.cursor]][1..] == [];
      }
      assert steps[c.cursor..r.cursor] == steps[c.cursor..c1.cursor] + steps[c1.cursor..r.cursor];
      ApplyAllAppend(steps[c.cursor..c1.cursor], steps[c1.cursor..r.cursor], c.act);
    }
  }

  /** Some tick of `ticks` would let `step` finish: for a wait step, its
      signal held in that tick. */
  predicate SignalSeen(step: Step, ticks: seq<Signals>) {
    exists i :: 0 <= i < |ticks| && Ready(step, ticks[i])
  }

  /** No step after step `k` runs before a tick in which step `k` was ready:
      for a wait step, a tick whose signal held. */
  lemma {:induction false} RunWaitsFor(steps: seq<Step>, c: Chain, ticks: seq<Signals>, k: nat)
    requires c.cursor <= k < |steps|
    ensures Run(steps, c, ticks).cursor > k ==> SignalSeen(steps[k], ticks)
    decreases |ticks|
  {
    if ticks != [] {
      var c1 := Tick(steps, c, ticks[0]);
      if c1.cursor > k {
        assert Ready(steps[k], ticks[0]);
      } else {
        RunWaitsFor(steps, c1, ticks[1..], k);
        if Run(steps, c1, ticks[1..]).cursor > k {
          var i :| 0 <= i < |ticks[1..]| && Ready(steps[k], ticks[1..][i]);
          assert ticks[1..][i] == ticks[i + 1];
        }
      }
    }
  }

  /** A chain whose wait signals hold in every tick completes, one step per
      tick. */
  lemma {:induction false} RunCompletes(steps: seq<Step>, c: Chain, ticks: seq<Signals>)
    requires c.cursor <= |steps|
    requires |ticks| >= |steps| - c.cursor
    requires forall i :: 0 <= i < |ticks| ==> ticks[i].gamepiece && ticks[i].elapsed
    ensures Run(steps, c, ticks).cursor == |steps|
    decreases |ticks|
  {
    if ticks != [] {
      var c1 := Tick(steps, c, ticks[0]);
      assert ticks[0].gamepiece && ticks[0].elapsed;
      forall i | 0 <= i < |ticks[1..]|
        ensures ticks[1..][i].gamepiece && ticks[1..][i].elapsed
      {
        assert ticks[1..][i] == ticks[i + 1];
      }
      RunCompletes(steps, c1, ticks[1..]);
    }
  }
}
