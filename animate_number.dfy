/** The `AnimateNumber` component: the instance fields of the stepping
    state machine and the lifecycle hooks that change them. React, the
    rendering and the timers stay outside; a step the component schedules
    is a later call of `Step`. */
module AnimateNumberComponent {
  import opened JsValues
  import opened Timing
  import opened Stepping

  /** The arguments `onProgress` receives: the value before the step and
      the value the step commits. */
  datatype ProgressCall = ProgressCall(oldValue: real, newValue: real)

  class AnimateNumber {
    // Props. Only `value` (here `target`) changes between renders.
    var target: real
    const steps: Positive
    const countBy: Option<real>
    const interval: real
    const timing: TimingProp
    const formatter: real -> real
    const hasOnProgress: bool

    // The React state.
    var value: real
    var displayValue: real

    // Instance fields.
    var direction: Option<bool>
    var startFrom: real
    var endWith: real
    var dirty: bool

    /** Whether `componentDidMount` has run. */
    ghost var mounted: bool

    function Cfg(): Config {
      Config(steps, countBy)
    }

    function Snapshot(): Run
      reads this
    {
      Run(value, startFrom, endWith, dirty, direction)
    }

    /** Once mounted, the run ends at the current target and can always
      make progress. */
    ghost predicate Valid()
      reads this
    {
      mounted ==> endWith == target && Live(Cfg(), Snapshot())
    }

    /** The constructor: the value starts at `initial` when that is truthy
        and at 0 otherwise; nothing is dirty and both bounds are 0. */
    constructor (valueProp: real, initial: Option<real>, steps: Positive, countBy: Option<real>,
                 interval: real, timing: TimingProp, formatter: real -> real, hasOnProgress: bool)
      ensures Valid() && !mounted
      ensures target == valueProp && this.steps == steps && this.countBy == countBy
      ensures this.interval == interval && this.timing == timing
      ensures this.formatter == formatter && this.hasOnProgress == hasOnProgress
      ensures value == (if Truthy(initial) then initial.value else 0.0)
      ensures displayValue == 0.0 && !dirty && startFrom == 0.0 && endWith == 0.0
      ensures direction == None
    {
      target := valueProp;
      this.steps := steps;
      this.countBy := countBy;
      this.interval := interval;
      this.timing := timing;
      this.formatter := formatter;
      this.hasOnProgress := hasOnProgress;
      value := if Truthy(initial) then initial.value else 0.0;
      displayValue := 0.0;
      dirty := false;
      startFrom := 0.0;
      endWith := 0.0;
      direction := None;
      mounted := false;
    }

    /** `componentDidMount`: start the run from the current value to the
        target; `startAnimate` then arms the first step's timer with
        `delay`, or throws the TypeError of a `NotAFunction` delay, in
        which case no step follows. */
    method Mount(sine: QuarterSine) returns (delay: TimingOutcome)
      requires Valid() && !mounted
      modifies this
      ensures Valid() && mounted
      ensures Snapshot() == MountRun(old(Snapshot()), target)
      ensures startFrom == old(value) && endWith == target && dirty
      ensures target == old(target) && value == old(value) && displayValue == old(displayValue)
      ensures delay == StartAnimateDelay(sine)
      ensures delay.NotAFunction? <==> timing.Named? && timing.key !in TimingKeys
    {
      startFrom := value;
      endWith := target;
      dirty := true;
      mounted := true;
      MountIsLive(Cfg(), old(Snapshot()), target);
      delay := StartAnimateDelay(sine);
    }

    /** The retarget branch of `componentDidUpdate`, for new props whose
        value differs from the previous one: the run restarts from the
        previous target, not from the current value; a step is scheduled. */
    method Retarget(newTarget: real)
      requires Valid() && mounted && newTarget != target
      modifies this
      ensures Valid() && mounted && target == newTarget
      ensures Snapshot() == RetargetRun(old(Snapshot()), old(target), newTarget)
      ensures startFrom == old(target) && endWith == newTarget && dirty
      ensures value == old(value) && displayValue == old(displayValue) && direction == old(direction)
    {
      var prevTarget := target;
      target := newTarget;
      startFrom := prevTarget;
      endWith := target;
      dirty := true;
      RetargetIsLive(Cfg(), old(Snapshot()), prevTarget, newTarget);
    }

    /** The rest of `componentDidUpdate`, when the value prop is unchanged:
        report the end of the run, schedule another step, or do nothing. */
    method NextAction() returns (action: Action)
      ensures action == Continuation(Snapshot(), target)
      ensures action == Finish <==> !dirty
      ensures action == ScheduleStep ==> dirty && direction.Some?
    {
      if !dirty {
        action := Finish;
        return;
      }
      action := Idle;
      if direction == Some(true) {
        if value <= target {
          action := ScheduleStep;
        }
      } else if direction == Some(false) {
        if value >= target {
          action := ScheduleStep;
        }
      }
    }

    /** `componentDidUpdate` after a render with value prop `newTarget`.
        When a step is scheduled, `startAnimate` arms its timer with
        `delay`, computed on the new state; a `NotAFunction` delay is the
        TypeError `startAnimate` throws, and then no step follows. */
    method DidUpdate(newTarget: real, sine: QuarterSine) returns (action: Action, delay: Option<TimingOutcome>)
      requires Valid() && mounted
      modifies this
      ensures Valid() && mounted && target == newTarget
      ensures newTarget != old(target) ==>
                action == ScheduleStep &&
                Snapshot() == RetargetRun(old(Snapshot()), old(target), newTarget)
      ensures newTarget == old(target) ==>
                action == Continuation(old(Snapshot()), newTarget) && Snapshot() == old(Snapshot())
      ensures value == old(value) && displayValue == old(displayValue)
      ensures delay.Some? <==> action == ScheduleStep
      ensures delay.Some? ==> delay.value == StartAnimateDelay(sine)
      ensures delay.Some? ==> (delay.value.NotAFunction? <==> timing.Named? && timing.key !in TimingKeys)
    {
      if newTarget != target {
        Retarget(newTarget);
        action := ScheduleStep;
      } else {
        action := NextAction();
      }
      delay := if action == ScheduleStep then Some(StartAnimateDelay(sine)) else None;
    }

    /** The body of the step timer: compute the increment, record the
        direction, clamp to `endWith` and clear `dirty` when the XOR test
        fires, report the step to `onProgress` (when given) and commit the
        new value and its formatted display value. */
    method Step() returns (call: Option<ProgressCall>)
      requires Valid()
      modifies this
      ensures Valid() && mounted == old(mounted) && target == old(target)
      ensures Snapshot() == StepRun(Cfg(), old(Snapshot()))
      ensures displayValue == formatter(value)
      ensures call == (if hasOnProgress then Some(ProgressCall(old(value), value)) else None)
    {
      var inc := (endWith - startFrom) / (steps as real);
      var sign := if inc >= 0.0 then 1.0 else -1.0;
      if Truthy(countBy) {
        inc := sign * Abs(countBy.value);
      }
      var total := value + inc;
      direction := Some(inc > 0.0);
      if JsXor(inc > 0.0, total <= endWith) == 1 {
        dirty := false;
        total := endWith;
      }
      call := if hasOnProgress then Some(ProgressCall(value, total)) else None;
      value := total;
      displayValue := formatter(total);
      if mounted {
        StepKeepsLive(Cfg(), old(Snapshot()));
      }
    }

    /** The delay `startAnimate` arms its timer with: the timing function
        chosen by the `timing` prop, applied to `interval` and the current
        progress. */
    function StartAnimateDelay(sine: QuarterSine): (o: TimingOutcome)
      reads this
      ensures timing.NeitherStringNorFunction? || timing == Named("linear") ==> o == Delay(Finite(interval))
      ensures timing == Named("easeOut") ==>
                o == Delay(EaseOut(interval, AnimationProgress(value, startFrom, endWith), sine))
      ensures timing == Named("easeIn") ==>
                o == Delay(EaseIn(interval, AnimationProgress(value, startFrom, endWith), sine))
      ensures timing.Custom? ==> o == Delay(timing.fn(interval, AnimationProgress(value, startFrom, endWith)))
      ensures o.NotAFunction? <==> timing.Named? && timing.key !in TimingKeys
    {
      GetTimingFunction(timing, interval, AnimationProgress(value, startFrom, endWith), sine)
    }
  }

  /** At mount the progress is 0 whenever the target differs from the
      current value, and there is no progress to speak of otherwise. */
  lemma MountProgressZero(r: Run, target: real)
    ensures var m := MountRun(r, target);
            AnimationProgress(m.value, m.startFrom, m.endWith) ==
              (if r.value != target then Finite(0.0) else NonFinite)
  {
    if r.value != target {
      ProgressAtBounds(r.value, target);
    }
  }
}
