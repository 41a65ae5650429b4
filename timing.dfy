/** The per-step delay: how far the run has progressed, the table of
    named timing functions, and the dispatch on the `timing` prop. */
module Timing {
  import opened JsValues

  /** `sine(t)` stands for `Math.sin(HALF_RAD * t)` with HALF_RAD = pi/2,
      the trigonometry the easing curves use; it is supplied from outside
      because the model has no floating-point sine. */
  type QuarterSine = real -> real

  /** The `timing` prop: a key into the table of timing functions, a
      caller-supplied function of (interval, progress), or anything else
      (undefined, null, a number, ...). */
  datatype TimingProp =
    | Named(key: string)
    | Custom(fn: (real, Num) -> Num)
    | NeitherStringNorFunction

  /** What choosing and calling the timing function yields: the delay
      before the next step, or the TypeError thrown when a string key
      names no entry of the table. */
  datatype TimingOutcome = Delay(ms: Num) | NotAFunction(key: string)

  /** The keys of the table of timing functions. */
  const TimingKeys: set<string> := {"linear", "easeOut", "easeIn"}

  /** `(value - startFrom) / (endWith - startFrom)`: the fraction of the
      run's span covered so far. A zero span divides by zero, which in
      JavaScript gives NaN or an infinity. */
  function AnimationProgress(value: real, startFrom: real, endWith: real): (p: Num)
    ensures p.Finite? <==> endWith != startFrom
    ensures p.Finite? ==> startFrom + p.v * (endWith - startFrom) == value
  {
    if endWith == startFrom then NonFinite
    else Finite((value - startFrom) / (endWith - startFrom))
  }

  /** The constant cadence. */
  function Linear(interval: real, progress: Num): (r: real)
    ensures r == interval
  {
    interval
  }

  /** `interval * Math.sin(HALF_RAD * progress) * 5`. */
  function EaseOut(interval: real, progress: Num, sine: QuarterSine): (r: Num)
    ensures r.Finite? <==> progress.Finite?
    ensures progress.Finite? ==> r.v == interval * sine(progress.v) * 5.0
    ensures progress == Finite(0.0) && sine(0.0) == 0.0 ==> r == Finite(0.0)
  {
    match progress
    case Finite(p) => Finite(interval * sine(p) * 5.0)
    case NonFinite => NonFinite
  }

  /** `interval * Math.sin(HALF_RAD - HALF_RAD * progress) * 5`; the angle
      is HALF_RAD * (1 - progress). */
  function EaseIn(interval: real, progress: Num, sine: QuarterSine): (r: Num)
    ensures r.Finite? <==> progress.Finite?
    ensures progress.Finite? ==> r.v == interval * sine(1.0 - progress.v) * 5.0
    ensures progress == Finite(1.0) && sine(0.0) == 0.0 ==> r == Finite(0.0)
  {
    match progress
    case Finite(p) => Finite(interval * sine(1.0 - p) * 5.0)
    case NonFinite => NonFinite
  }

  /** The delay `getTimingFunction` computes for the given prop. */
  function GetTimingFunction(timing: TimingProp, interval: real, progress: Num, sine: QuarterSine): (o: TimingOutcome)
    ensures timing.Named? ==> (o.NotAFunction? <==> timing.key !in TimingKeys)
    ensures o.NotAFunction? ==> timing.Named? && o.key == timing.key
    ensures timing.Named? && timing.key == "easeOut" ==> o == Delay(EaseOut(interval, progress, sine))
    ensures timing.Named? && timing.key == "easeIn" ==> o == Delay(EaseIn(interval, progress, sine))
    ensures timing.Custom? ==> o == Delay(timing.fn(interval, progress))
    ensures timing.NeitherStringNorFunction? || timing == Named("linear") ==> o == Delay(Finite(interval))
  {
    match timing
    case Named(key) =>
      if key == "linear" then Delay(Finite(Linear(interval, progress)))
      else if key == "easeOut" then Delay(EaseOut(interval, progress, sine))
      else if key == "easeIn" then Delay(EaseIn(interval, progress, sine))
      else NotAFunction(key)
    case Custom(fn) => Delay(fn(interval, progress))
    case NeitherStringNorFunction => Delay(Finite(Linear(interval, progress)))
  }

  /** Progress is 0 at the start of a run and 1 at its end, whenever the
      run's span is not zero. */
  lemma ProgressAtBounds(startFrom: real, endWith: real)
    requires startFrom != endWith
    ensures AnimationProgress(startFrom, startFrom, endWith) == Finite(0.0)
    ensures AnimationProgress(endWith, startFrom, endWith) == Finite(1.0)
  {
    var span := endWith - startFrom;
    assert span / span == 1.0;
  }

  /** With linear timing, or with a prop that is neither a string nor a
      function, every step waits `interval`, whatever the progress. */
  lemma LinearDelayIsConstant(timing: TimingProp, interval: real, p: Num, q: Num, sine: QuarterSine)
    requires timing.NeitherStringNorFunction? || timing == Named("linear")
    ensures GetTimingFunction(timing, interval, p, sine) == GetTimingFunction(timing, interval, q, sine)
    ensures GetTimingFunction(timing, interval, p, sine) == Delay(Finite(interval))
  {
  }

  ghost predicate NonDecreasingOnUnit(sine: QuarterSine) {
    forall x: real, y: real :: 0.0 <= x <= y <= 1.0 ==> sine(x) <= sine(y)
  }

  lemma ScaleMonotone(interval: real, a: real, b: real)
    requires interval >= 0.0 && a <= b
    ensures interval * a * 5.0 <= interval * b * 5.0
  {
    assert interval * b - interval * a == interval * (b - a);
  }

  /** Where sin(pi/2 * t) rises on [0, 1], the easeOut delay grows with
      progress: the animation slows down towards its end. */
  lemma EaseOutNonDecreasing(interval: real, p: real, q: real, sine: QuarterSine)
    requires interval >= 0.0 && 0.0 <= p <= q <= 1.0
    requires NonDecreasingOnUnit(sine)
    ensures EaseOut(interval, Finite(p), sine).v <= EaseOut(interval, Finite(q), sine).v
  {
    ScaleMonotone(interval, sine(p), sine(q));
  }

  /** Where sin(pi/2 * t) rises on [0, 1], the easeIn delay shrinks as
      progress grows: the animation speeds up. */
  lemma EaseInNonIncreasing(interval: real, p: real, q: real, sine: QuarterSine)
    requires interval >= 0.0 && 0.0 <= p <= q <= 1.0
    requires NonDecreasingOnUnit(sine)
    ensures EaseIn(interval, Finite(q), sine).v <= EaseIn(interval, Finite(p), sine).v
  {
    ScaleMonotone(interval, sine(1.0 - q), sine(1.0 - p));
  }
}
