/** The number-stepping state machine, on values: one run's state, the
    step that advances it, the rule that decides whether another step
    follows, and the facts that make a run end exactly on its target. */
module Stepping {
  import opened JsValues

  type Positive = n: int | n > 0 witness 1

  /** The props that shape every step: the `steps` divisor and the
      optional fixed step `countBy`. */
  datatype Config = Config(steps: Positive, countBy: Option<real>)

  /** The instance state a step reads and writes: `state.value`, the run
      bounds `startFrom` and `endWith`, the `dirty` flag, and `direction`,
      which is undefined (`None`) until a step has been taken. */
  datatype Run = Run(value: real, startFrom: real, endWith: real, dirty: bool, direction: Option<bool>)

  /** What `componentDidUpdate` does when the target has not changed. */
  datatype Action = ScheduleStep | Finish | Idle

  /** The amount one step adds: the span divided by `steps`, or, when
      `countBy` is truthy, `countBy`'s magnitude with the span's sign,
      where a zero span counts as positive. */
  function Increment(cfg: Config, startFrom: real, endWith: real): (inc: real)
    ensures !Truthy(cfg.countBy) ==> inc * (cfg.steps as real) == endWith - startFrom
    ensures Truthy(cfg.countBy) ==> Abs(inc) == Abs(cfg.countBy.value)
    ensures Truthy(cfg.countBy) ==> (inc > 0.0 <==> endWith >= startFrom)
    ensures inc == 0.0 <==> !Truthy(cfg.countBy) && startFrom == endWith
  {
    var raw := (endWith - startFrom) / (cfg.steps as real);
    var sign := if raw >= 0.0 then 1.0 else -1.0;
    if Truthy(cfg.countBy) then sign * Abs(cfg.countBy.value) else raw
  }

  /** The termination test of a step, written without the XOR: moving up,
      the candidate passes the end only when strictly above it; moving
      down (or not moving), when at or below it. */
  predicate Overshoots(inc: real, value: real, endWith: real)
    ensures Overshoots(inc, value, endWith) <==> JsXor(inc > 0.0, value + inc <= endWith) == 1
  {
    if inc > 0.0 then value + inc > endWith else value + inc <= endWith
  }

  /** The body of the step timer: compute the increment, record the
      direction, clamp to `endWith` and clear `dirty` when the XOR test
      fires, then commit the candidate. */
  function StepRun(cfg: Config, r: Run): (r': Run)
    ensures r'.startFrom == r.startFrom && r'.endWith == r.endWith
    ensures r'.direction == Some(Increment(cfg, r.startFrom, r.endWith) > 0.0)
    ensures Overshoots(Increment(cfg, r.startFrom, r.endWith), r.value, r.endWith) ==>
              r'.value == r.endWith && !r'.dirty
    ensures !Overshoots(Increment(cfg, r.startFrom, r.endWith), r.value, r.endWith) ==>
              r'.value == r.value + Increment(cfg, r.startFrom, r.endWith) && r'.dirty == r.dirty
  {
    var inc := Increment(cfg, r.startFrom, r.endWith);
    var total := r.value + inc;
    var direction := inc > 0.0;
    if JsXor(direction, total <= r.endWith) == 1 then
      r.(value := r.endWith, dirty := false, direction := Some(direction))
    else
      r.(value := total, direction := Some(direction))
  }

  /** The continuation rule, for an update that leaves the target alone. */
  function Continuation(r: Run, target: real): (a: Action)
    ensures a == Finish <==> !r.dirty
    ensures a == ScheduleStep <==>
              r.dirty && ((r.direction == Some(true) && r.value <= target) ||
                          (r.direction == Some(false) && r.value >= target))
  {
    if !r.dirty then Finish
    else if r.direction == Some(true) then
      (if r.value <= target then ScheduleStep else Idle)
    else if r.direction == Some(false) then
      (if r.value >= target then ScheduleStep else Idle)
    else Idle
  }

  /** `componentDidMount`: the run goes from the current value to `target`. */
  function MountRun(r: Run, target: real): (r': Run)
    ensures r'.startFrom == r.value && r'.endWith == target && r'.dirty
    ensures r'.value == r.value && r'.direction == r.direction
  {
    r.(startFrom := r.value, endWith := target, dirty := true)
  }

  /** The retarget branch of `componentDidUpdate`: the run goes from the
      previous target to the new one; the current value is kept. */
  function RetargetRun(r: Run, prevTarget: real, newTarget: real): (r': Run)
    ensures r'.startFrom == prevTarget && r'.endWith == newTarget && r'.dirty
    ensures r'.value == r.value && r'.direction == r.direction
  {
    r.(startFrom := prevTarget, endWith := newTarget, dirty := true)
  }

  /** Up to `n` further steps, each taken only when the continuation rule
      asks for one; the target the rule compares with is `endWith`. */
  function RunSteps(cfg: Config, r: Run, n: nat): (r': Run)
    ensures r'.startFrom == r.startFrom && r'.endWith == r.endWith
    ensures r'.direction == r.direction ||
            r'.direction == Some(Increment(cfg, r.startFrom, r.endWith) > 0.0)
    decreases n
  {
    if n == 0 || Continuation(r, r.endWith) != ScheduleStep then r
    else RunSteps(cfg, StepRun(cfg, r), n - 1)
  }

  /** A started run: the step scheduled at run start, then up to `n` more
      under the continuation rule. */
  function Animate(cfg: Config, r: Run, n: nat): (r': Run)
    ensures r'.startFrom == r.startFrom && r'.endWith == r.endWith
    ensures r'.direction == Some(Increment(cfg, r.startFrom, r.endWith) > 0.0)
  {
    RunSteps(cfg, StepRun(cfg, r), n)
  }

  /** A run that is over: it sits exactly on its end and is no longer dirty. */
  predicate Finished(r: Run) {
    !r.dirty && r.value == r.endWith
  }

  /** A run can make progress: either it moves, or it stands at or below
      its end (where a zero step clamps at once). */
  predicate Live(cfg: Config, r: Run) {
    Increment(cfg, r.startFrom, r.endWith) != 0.0 || r.value <= r.endWith
  }

  /** A step keeps a run live. */
  lemma StepKeepsLive(cfg: Config, r: Run)
    requires Live(cfg, r)
    ensures Live(cfg, StepRun(cfg, r))
  {
  }

  /** Mounting starts a live, dirty run whose first step is yet to come. */
  lemma MountIsLive(cfg: Config, r: Run, target: real)
    ensures Live(cfg, MountRun(r, target)) && MountRun(r, target).dirty
  {
  }

  /** A retarget to a different value starts a live, dirty run. */
  lemma RetargetIsLive(cfg: Config, r: Run, prevTarget: real, newTarget: real)
    requires prevTarget != newTarget
    ensures Live(cfg, RetargetRun(r, prevTarget, newTarget))
    ensures RetargetRun(r, prevTarget, newTarget).dirty
  {
  }

  /** A finished run stays as it is: the rule calls `onFinish` instead of
      stepping. */
  lemma FinishedStays(cfg: Config, r: Run, n: nat)
    requires Finished(r)
    ensures RunSteps(cfg, r, n) == r
    ensures Continuation(r, r.endWith) == Finish
  {
  }

  /** Dividing by a step: removing one step from the distance removes one
      from the quotient. */
  lemma DivShift(d: real, inc: real)
    requires inc != 0.0
    ensures (d - inc) / inc == d / inc - 1.0
  {
    var q := d / inc;
    assert q * inc == d;
    assert (q - 1.0) * inc == q * inc - inc;
    DivUnique(q - 1.0, inc, d - inc);
  }

  lemma DivUnique(a: real, b: real, c: real)
    requires b != 0.0 && a * b == c
    ensures a == c / b
  {
  }

  lemma DivSign(d: real, inc: real)
    requires inc != 0.0
    ensures d >= 0.0 && inc > 0.0 ==> d / inc >= 0.0
    ensures d < 0.0 && inc < 0.0 ==> d / inc > 0.0
  {
  }

  /** One rising step: it is asked for, and it either finishes the run or
      adds the increment, leaving one increment less to go. */
  lemma RisingStep(cfg: Config, r: Run)
    requires Increment(cfg, r.startFrom, r.endWith) > 0.0
    requires r.dirty && r.direction == Some(true) && r.value <= r.endWith
    ensures Continuation(r, r.endWith) == ScheduleStep
    ensures Finished(StepRun(cfg, r)) ||
            (StepRun(cfg, r) == r.(value := r.value + Increment(cfg, r.startFrom, r.endWith)) &&
             StepRun(cfg, r).value <= r.endWith)
  {
  }

  /** One falling step: it is asked for, and it either finishes the run or
      adds the (negative) increment, staying above the end. */
  lemma FallingStep(cfg: Config, r: Run)
    requires Increment(cfg, r.startFrom, r.endWith) < 0.0
    requires r.dirty && r.direction == Some(false) && r.value > r.endWith
    ensures Continuation(r, r.endWith) == ScheduleStep
    ensures Finished(StepRun(cfg, r)) ||
            (StepRun(cfg, r) == r.(value := r.value + Increment(cfg, r.startFrom, r.endWith)) &&
             StepRun(cfg, r).value > r.endWith)
  {
  }

  /** Going up, a dirty run at or below its end finishes within `k` steps
      once the distance to the end is less than `k` increments. */
  lemma {:induction false} RisingRunFinishes(cfg: Config, r: Run, k: nat)
    requires Increment(cfg, r.startFrom, r.endWith) > 0.0
    requires r.dirty && r.direction == Some(true) && r.value <= r.endWith
    requires (r.endWith - r.value) / Increment(cfg, r.startFrom, r.endWith) < k as real
    ensures Finished(RunSteps(cfg, r, k))
    decreases k
  {
    var inc := Increment(cfg, r.startFrom, r.endWith);
    var x := (r.endWith - r.value) / inc;
    DivSign(r.endWith - r.value, inc);
    assert k != 0;
    var r1 := StepRun(cfg, r);
    RisingStep(cfg, r);
    assert RunSteps(cfg, r, k) == RunSteps(cfg, r1, k - 1);
    if Finished(r1) {
      FinishedStays(cfg, r1, k - 1);
    } else {
      DivShift(r.endWith - r.value, inc);
      assert (r.endWith - r1.value) / inc == x - 1.0;
      RisingRunFinishes(cfg, r1, k - 1);
    }
  }

  /** Going down, a dirty run above its end finishes within `k` steps once
      `k` increments cover the distance to the end. */
  lemma {:induction false} FallingRunFinishes(cfg: Config, r: Run, k: nat)
    requires Increment(cfg, r.startFrom, r.endWith) < 0.0
    requires r.dirty && r.direction == Some(false) && r.value > r.endWith
    requires (r.endWith - r.value) / Increment(cfg, r.startFrom, r.endWith) <= k as real
    ensures Finished(RunSteps(cfg, r, k))
    decreases k
  {
    var inc := Increment(cfg, r.startFrom, r.endWith);
    var x := (r.endWith - r.value) / inc;
    DivSign(r.endWith - r.value, inc);
    assert k != 0;
    var r1 := StepRun(cfg, r);
    FallingStep(cfg, r);
    assert RunSteps(cfg, r, k) == RunSteps(cfg, r1, k - 1);
    if Finished(r1) {
      FinishedStays(cfg, r1, k - 1);
    } else {
      DivShift(r.endWith - r.value, inc);
      assert (r.endWith - r1.value) / inc == x - 1.0;
      FallingRunFinishes(cfg, r1, k - 1);
    }
  }

  /** How many steps, after the first, a run may need: the number of
      whole increments between the value and the end. */
  function StepBound(cfg: Config, r: Run): nat {
    var inc := Increment(cfg, r.startFrom, r.endWith);
    if inc == 0.0 then 0
    else
      var x := (r.endWith - r.value) / inc;
      if x < 0.0 then 0 else x.Floor
  }

  /** Every live run that has just been started (mounted or retargeted)
      ends, within 1 + StepBound steps driven by the continuation rule,
      exactly on `endWith` with `dirty` cleared, its bounds untouched. */
  lemma {:induction false} RunFinishes(cfg: Config, r: Run)
    requires Live(cfg, r) && r.dirty
    ensures Finished(Animate(cfg, r, StepBound(cfg, r)))
    ensures Animate(cfg, r, StepBound(cfg, r)).startFrom == r.startFrom
    ensures Animate(cfg, r, StepBound(cfg, r)).endWith == r.endWith
  {
    var inc := Increment(cfg, r.startFrom, r.endWith);
    var r1 := StepRun(cfg, r);
    var n := StepBound(cfg, r);
    if Finished(r1) {
      FinishedStays(cfg, r1, n);
    } else {
      assert inc != 0.0;
      var x := (r.endWith - r.value) / inc;
      DivShift(r.endWith - r.value, inc);
      DivSign(r.endWith - r.value - inc, inc);
      assert r.endWith - r1.value == r.endWith - r.value - inc;
      assert x >= 0.0 && n == x.Floor;
      assert (n as real) > x - 1.0;
      if inc > 0.0 {
        RisingRunFinishes(cfg, r1, n);
      } else {
        FallingRunFinishes(cfg, r1, n);
      }
    }
  }

  /** A zero-length run (no truthy `countBy`, start, end and value equal)
      lands on its end with `dirty` cleared after one step. */
  lemma ZeroLengthRunStopsAtOnce(cfg: Config, r: Run)
    requires !Truthy(cfg.countBy) && r.startFrom == r.endWith && r.value == r.endWith
    ensures Finished(StepRun(cfg, r)) && StepRun(cfg, r).direction == Some(false)
  {
  }


  /** `k` increments added one after the other. */
  function Scaled(k: nat, inc: real): real
    decreases k
  {
    if k == 0 then 0.0 else inc + Scaled(k - 1, inc)
  }

  /** Adding `k` increments one by one adds `k` times the increment. */
  lemma {:induction false} ScaledIsProduct(k: nat, inc: real)
    ensures Scaled(k, inc) == (k as real) * inc
    decreases k
  {
    if k != 0 {
      ScaledIsProduct(k - 1, inc);
      assert ((k - 1) as real) * inc == (k as real) * inc - inc;
    }
  }

  /** Increments of one sign add up to a sum of that sign. */
  lemma {:induction false} ScaledSign(k: nat, inc: real)
    ensures inc >= 0.0 ==> Scaled(k, inc) >= 0.0
    ensures inc <= 0.0 ==> Scaled(k, inc) <= 0.0
    decreases k
  {
    if k != 0 {
      ScaledSign(k - 1, inc);
    }
  }

  /** Rising steps that do not reach past the end add the increment `k`
      times (`Scaled(k, inc)`, which is `k * inc`) and leave the run dirty. */
  lemma {:induction false} RisingSteps(cfg: Config, r: Run, k: nat, inc: real)
    requires inc == Increment(cfg, r.startFrom, r.endWith) && inc > 0.0
    requires r.dirty && r.direction == Some(true)
    requires r.value + Scaled(k, inc) <= r.endWith
    ensures RunSteps(cfg, r, k) == r.(value := r.value + Scaled(k, inc))
    decreases k
  {
    if k != 0 {
      ScaledSign(k - 1, inc);
      var r1 := r.(value := r.value + inc);
      assert StepRun(cfg, r) == r1;
      RisingSteps(cfg, r1, k - 1, inc);
    }
  }

  /** A span cut into n >= 1 equal parts: a part has the span's sign and,
      for a positive span, is no longer than the span. */
  lemma StepWithinSpan(inc: real, n: real, d: real)
    requires n >= 1.0 && inc * n == d
    ensures d > 0.0 ==> 0.0 < inc <= d
    ensures d < 0.0 ==> d <= inc < 0.0
  {
    assert inc * n - inc == inc * (n - 1.0);
  }

  /** Without `countBy` an upward run from its start takes `steps` steps to
      reach its end exactly, and, the upward test being strict, it is still
      dirty there. */
  lemma {:induction false} RisingRunReachesEnd(cfg: Config, r: Run)
    requires !Truthy(cfg.countBy) && r.dirty && r.value == r.startFrom < r.endWith
    ensures Animate(cfg, r, cfg.steps - 1) == r.(value := r.endWith, direction := Some(true))
  {
    var inc := Increment(cfg, r.startFrom, r.endWith);
    StepWithinSpan(inc, cfg.steps as real, r.endWith - r.startFrom);
    var r1 := StepRun(cfg, r);
    assert r1 == r.(value := r.value + inc, direction := Some(true));
    ScaledIsProduct(cfg.steps, inc);
    RisingSteps(cfg, r1, cfg.steps - 1, inc);
  }

  /** Without `countBy` an upward run from its start is finished after
      `steps` + 1 steps: the step after the one that lands on the end
      clears `dirty`. */
  lemma {:induction false} RisingRunTakesOneExtraStep(cfg: Config, r: Run)
    requires !Truthy(cfg.countBy) && r.dirty && r.value == r.startFrom < r.endWith
    ensures Finished(Animate(cfg, r, cfg.steps))
  {
    var inc := Increment(cfg, r.startFrom, r.endWith);
    DivUnique(cfg.steps as real, inc, r.endWith - r.startFrom);
    assert StepBound(cfg, r) == cfg.steps;
    RunFinishes(cfg, r);
  }


  /** Falling steps that stay above the end add the increment `k` times
      and leave the run dirty. */
  lemma {:induction false} FallingSteps(cfg: Config, r: Run, k: nat, inc: real)
    requires inc == Increment(cfg, r.startFrom, r.endWith) && inc < 0.0
    requires r.dirty && r.direction == Some(false)
    requires r.value + Scaled(k, inc) > r.endWith
    ensures RunSteps(cfg, r, k) == r.(value := r.value + Scaled(k, inc))
    decreases k
  {
    if k != 0 {
      ScaledSign(k - 1, inc);
      var r1 := r.(value := r.value + inc);
      assert StepRun(cfg, r) == r1;
      FallingSteps(cfg, r1, k - 1, inc);
    }
  }

  /** Without `countBy` a downward run from its start is finished after
      exactly `steps` steps, and not before: the downward test includes
      equality, so the step that lands on the end clears `dirty`. */
  lemma {:induction false} FallingRunTakesSteps(cfg: Config, r: Run)
    requires !Truthy(cfg.countBy) && r.dirty && r.value == r.startFrom > r.endWith
    ensures Finished(Animate(cfg, r, cfg.steps - 1))
    ensures cfg.steps >= 2 ==> !Finished(Animate(cfg, r, cfg.steps - 2))
  {
    if cfg.steps >= 2 {
      FallingNotEarlier(cfg, r);
    }
    var inc := Increment(cfg, r.startFrom, r.endWith);
    var n := cfg.steps as real;
    assert inc * n == r.endWith - r.startFrom;
    DivUnique(n, inc, r.endWith - r.startFrom);
    var r1 := StepRun(cfg, r);
    if Finished(r1) {
      FinishedStays(cfg, r1, cfg.steps - 1);
    } else {
      assert r1 == r.(value := r.value + inc, direction := Some(false));
      DivShift(r.endWith - r.startFrom, inc);
      FallingRunFinishes(cfg, r1, cfg.steps - 1);
    }
  }

  /** A downward span cut into more than one part: the first part stops
      short of the end. */
  lemma FallingPartShort(inc: real, n: real, v: real, e: real)
    requires inc < 0.0 && n > 1.0 && inc * n == e - v
    ensures v + inc > e
  {
    assert inc * n - inc == inc * (n - 1.0);
  }

  /** Without `countBy` a downward run of at least two steps is still above
      its end after `steps` - 1 steps: it stands at `endWith - inc`. */
  lemma FallingNotEarlier(cfg: Config, r: Run)
    requires !Truthy(cfg.countBy) && r.dirty && r.value == r.startFrom > r.endWith
    requires cfg.steps >= 2
    ensures Animate(cfg, r, cfg.steps - 2).value > r.endWith
  {
    var inc := Increment(cfg, r.startFrom, r.endWith);
    var n := cfg.steps as real;
    var m := cfg.steps - 2;
    assert inc * n == r.endWith - r.startFrom;
    FallingPartShort(inc, n, r.value, r.endWith);
    var r1 := StepRun(cfg, r);
    assert r1 == r.(value := r.value + inc, direction := Some(false));
    ScaledIsProduct(cfg.steps, inc);
    assert Scaled(cfg.steps, inc) == inc + (inc + Scaled(m, inc));
    FallingSteps(cfg, r1, m, inc);
  }

  /** From 0 to 90 in 45 steps each step adds exactly 2. After 45 steps the
      value is 90 and, the upward clamp being strict, the run is still
      dirty; the 46th step clears it. */
  lemma ZeroToNinety()
    ensures var cfg := Config(45, None);
            var r := MountRun(Run(0.0, 0.0, 0.0, false, None), 90.0);
            Increment(cfg, r.startFrom, r.endWith) == 2.0 &&
            Animate(cfg, r, 44) == Run(90.0, 0.0, 90.0, true, Some(true)) &&
            Finished(Animate(cfg, r, 45))
  {
    var cfg := Config(45, None);
    var r := MountRun(Run(0.0, 0.0, 0.0, false, None), 90.0);
    RisingRunReachesEnd(cfg, r);
    RisingRunTakesOneExtraStep(cfg, r);
  }

  /** From 0 to 10 counting by 3: 3, 6, 9, then the fourth step clamps to
      10 instead of landing on 12. */
  lemma CountByThree()
    ensures var cfg := Config(45, Some(3.0));
            var r := MountRun(Run(0.0, 0.0, 0.0, false, None), 10.0);
            StepRun(cfg, r).value == 3.0 &&
            Animate(cfg, r, 1).value == 6.0 &&
            Animate(cfg, r, 2) == Run(9.0, 0.0, 10.0, true, Some(true)) &&
            Animate(cfg, r, 3) == Run(10.0, 0.0, 10.0, false, Some(true))
  {
    var cfg := Config(45, Some(3.0));
    var r := MountRun(Run(0.0, 0.0, 0.0, false, None), 10.0);
    assert Increment(cfg, 0.0, 10.0) == 3.0;
    var r1 := StepRun(cfg, r);
    assert r1 == Run(3.0, 0.0, 10.0, true, Some(true));
    var r2 := StepRun(cfg, r1);
    assert r2 == Run(6.0, 0.0, 10.0, true, Some(true));
    var r3 := StepRun(cfg, r2);
    assert r3 == Run(9.0, 0.0, 10.0, true, Some(true));
    var r4 := StepRun(cfg, r3);
    assert r4 == Run(10.0, 0.0, 10.0, false, Some(true));
    assert RunSteps(cfg, r3, 1) == RunSteps(cfg, r4, 0);
    assert RunSteps(cfg, r2, 2) == RunSteps(cfg, r3, 1);
    assert RunSteps(cfg, r1, 3) == RunSteps(cfg, r2, 2);
    assert RunSteps(cfg, r2, 1) == RunSteps(cfg, r3, 0);
    assert RunSteps(cfg, r1, 2) == RunSteps(cfg, r2, 1);
    assert RunSteps(cfg, r1, 1) == RunSteps(cfg, r2, 0);
  }

  /** Retargeting from 90 to 50 while the value is 40 restarts from 90,
      the previous target, not from 40: the first step moves down, lands at
      or below 50 and is clamped up to 50, finishing the run at once. */
  lemma RetargetFromPreviousTarget()
    ensures var cfg := Config(45, None);
            var r := RetargetRun(Run(40.0, 0.0, 90.0, true, Some(true)), 90.0, 50.0);
            r.startFrom == 90.0 && r.value == 40.0 &&
            StepRun(cfg, r) == Run(50.0, 90.0, 50.0, false, Some(false))
  {
    var cfg := Config(45, None);
    assert Increment(cfg, 90.0, 50.0) == -40.0 / 45.0;
  }
}
