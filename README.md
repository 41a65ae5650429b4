# AnimateNumber stepping engine, modelled in Dafny

`AnimateNumber` is a React Native component that animates a displayed
number from a start value to a target value in discrete steps. When the
`value` prop changes, a new run starts. This project models the number-stepping state machine inside
the component (`dist/index.js`) and proves what it does:

- `js_values.dfy` (module `JsValues`): optional props, truthiness of
  numbers, NaN/Infinity as `NonFinite`, and the boolean XOR of the
  termination test.
- `timing.dfy` (module `Timing`): animation progress, the table of timing
  functions (`linear`, `easeOut`, `easeIn`) and the dispatch on the
  `timing` prop.
- `stepping.dfy` (module `Stepping`): the pure state machine on a `Run`
  value (`value`, `startFrom`, `endWith`, `dirty`, `direction`). It holds
  the increment, one step, the continuation rule, run start and retarget,
  and the lemmas that a run ends exactly on its target.
- `animate_number.dfy` (module `AnimateNumberComponent`): the class
  `AnimateNumber`. Its fields mirror the instance fields. `Mount`,
  `Retarget`, `NextAction`, `DidUpdate` and `Step` update them in place.
  Each method is proved against the pure functions of `Stepping`.
  `Valid()` is the invariant the methods keep: once mounted, `endWith` is
  the current target and the run can make progress.

Numbers are exact `real`s. `steps` is a positive integer. `countBy` is
optional, and a `countBy` of 0 is falsy, so it behaves as absent. A step
the component schedules with a timer is modelled as a later call of
`Step`. `Mount` and `DidUpdate` return the delay `startAnimate` arms that
timer with. When that delay is `NotAFunction`, `startAnimate` throws and no
step follows.

Behaviour of the code worth knowing, which the model keeps:

- A retarget restarts the run from the previous target. The current value
  is kept, and the steps are sized by the distance between the two
  targets.
- Moving up, the clamp is strict (`>`), so a step that lands exactly on
  `endWith` leaves `dirty` set and one more step is needed. Moving down,
  the test includes equality.
- An unknown string timing key throws a `TypeError`, because the code calls
  `undefined` when it arms the timer. This happens in every `startAnimate`
  call, so such a component never takes a step. After a retarget the run's
  fields are already set when the error is thrown.
- A run with a zero span has NaN or infinite progress.
- `onFinish` fires on every update that finds the run not dirty, so it can
  fire more than once.

## Model

| member | source | states |
|---|---|---|
| JsValues.JsXor | dist/index.js:164 | `direction ^ (total <= endWith)` is the number 1 exactly when the two booleans differ, and otherwise 0 |
| JsValues.Truthy | dist/index.js:158 | `undefined`/`null` and 0 are falsy, every other number is truthy; this is how `if (this.props.countBy)` (and `initial` at line 94) test a prop |
| Timing.AnimationProgress | dist/index.js:182-184 | progress is finite iff the span is non-zero; then it is the fraction `p` of the span with `startFrom + p * span == value` |
| Timing.ProgressAtBounds | dist/index.js:183 | for a non-zero span, progress is 0 at `startFrom` and 1 at `endWith` |
| Timing.Linear | dist/index.js:54-56 | the delay is `interval`, whatever the progress |
| Timing.EaseOut | dist/index.js:58-60 | finite exactly when the progress is; then `interval * sin(pi/2 * p) * 5`; zero delay at progress 0 where sin 0 = 0 |
| Timing.EaseIn | dist/index.js:62-64 | finite exactly when the progress is; then `interval * sin(pi/2 * (1 - p)) * 5`; zero delay at progress 1 where sin 0 = 0 |
| Timing.GetTimingFunction | dist/index.js:186-194 | a string key gives the table's entry, or a TypeError iff the key is not `linear`/`easeOut`/`easeIn`; a function is called with `(interval, progress)`; any other prop falls back to `linear`, i.e. `interval` |
| Timing.LinearDelayIsConstant | dist/index.js:54-56 | linear timing, and the fallback, give the delay `interval` whatever the progress |
| Timing.EaseOutNonDecreasing | dist/index.js:58-60 | for progress in [0, 1], where sin(pi/2 t) rises on [0,1] and `interval >= 0`, the easeOut delay does not decrease as progress grows |
| Timing.EaseInNonIncreasing | dist/index.js:62-64 | for progress in [0, 1], under the same conditions, the easeIn delay does not increase as progress grows |
| Stepping.Increment | dist/index.js:156-159 | without a truthy `countBy`, `inc * steps == endWith - startFrom`; with one, `abs(inc) == abs(countBy)` and `inc > 0` iff `endWith >= startFrom` (a zero span counts as positive); `inc == 0` iff no truthy `countBy` and a zero span |
| Stepping.StepRun | dist/index.js:156-167 | bounds unchanged; `direction == (inc > 0)`; moving up, the value is clamped to exactly `endWith` and `dirty` cleared iff `value + inc > endWith`; moving down or not at all, iff `value + inc <= endWith`; otherwise `value + inc` with `dirty` unchanged |
| Stepping.Overshoots | dist/index.js:164 | the XOR-free test (up: `value + inc > endWith`; down or still: `value + inc <= endWith`) holds exactly when `direction ^ (total <= endWith)` is 1 |
| Stepping.Continuation | dist/index.js:125-138 | `Finish` iff not dirty; `ScheduleStep` iff dirty and either moving up with `value <= target` or moving down with `value >= target`; otherwise `Idle` |
| Stepping.RunSteps | dist/index.js:129-138 | steps taken by the continuation rule never change the run's bounds; `direction` is unchanged or the sign of the increment |
| Stepping.MountRun | dist/index.js:103-105 | the run goes from the current value to the target prop and is dirty; value and direction are kept |
| Stepping.RetargetRun | dist/index.js:117-120 | the run goes from the previous target to the new one and is dirty; value and direction are kept |
| Stepping.Animate | dist/index.js:107-138 | the step scheduled at run start always runs, then the rule-driven chain: bounds are kept and `direction` is the sign of the increment |
| Stepping.StepKeepsLive | dist/index.js:156-167 | a step keeps a run able to make progress: it moves, or it stands at or below its end |
| Stepping.MountIsLive | dist/index.js:103-105 | the run a mount starts is dirty and able to make progress |
| Stepping.RetargetIsLive | dist/index.js:117-120 | a retarget to a different value starts a dirty run that is able to make progress |
| Stepping.FinishedStays | dist/index.js:125-127 | a run at its end and not dirty gets `Finish` and no further step |
| Stepping.RisingStep | dist/index.js:129-133 | moving up at or below the end, another step is scheduled; it either finishes the run or adds the increment and stays at or below the end |
| Stepping.FallingStep | dist/index.js:134-138 | moving down above the end, another step is scheduled; it either finishes the run or adds the increment and stays above the end |
| Stepping.RisingRunFinishes | dist/index.js:129-133 | moving up, a dirty run finishes within `k` rule-driven steps once the distance to the end is less than `k` increments |
| Stepping.FallingRunFinishes | dist/index.js:134-138 | moving down, a dirty run finishes within `k` rule-driven steps once `k` increments cover the distance to the end |
| Stepping.RunFinishes | dist/index.js:125-167 | every started run that can make progress, stepped by the continuation rule, ends exactly on `endWith`, with `dirty` false and its bounds untouched, within 1 + floor(distance / increment) steps (the steps only happen when the timing prop is not an unknown key) |
| Stepping.ZeroLengthRunStopsAtOnce | dist/index.js:156-167 | with no `countBy` and start, end and value equal, one step lands on the end with `dirty` false and `direction` false |
| Stepping.RisingSteps | dist/index.js:156-167 | upward steps that stay at or below the end add the increment `k` times (`Scaled(k, inc)`, equal to `k * inc` by `ScaledIsProduct`) and leave the run dirty |
| Stepping.FallingSteps | dist/index.js:156-167 | downward steps that stay above the end add the increment `k` times and leave the run dirty |
| Stepping.RisingRunReachesEnd | dist/index.js:164-167 | without `countBy`, an upward run from its start (`value == startFrom`, as at mount) stands exactly on its end after `steps` steps and is still dirty there |
| Stepping.RisingRunTakesOneExtraStep | dist/index.js:164-167 | without `countBy`, an upward run from its start (`value == startFrom`, as at mount) is finished after `steps` + 1 steps |
| Stepping.FallingNotEarlier | dist/index.js:164-167 | without `countBy`, a downward run from its start (`value == startFrom`, as at mount) with at least two steps is still above its end after `steps` - 1 steps |
| Stepping.FallingRunTakesSteps | dist/index.js:164-167 | without `countBy`, a downward run from its start (`value == startFrom`, as at mount) is finished once `steps` steps have run, and (for `steps >= 2`) not after `steps` - 1 |
| Stepping.ZeroToNinety | dist/index.js:156-167 | from 0 to 90 with 45 steps each step adds 2; after 45 steps the value is 90 and still dirty; after 46 the run is finished |
| Stepping.CountByThree | dist/index.js:156-167 | from 0 to 10 counting by 3 the values are 3, 6, 9 and then 10, clamped, with `dirty` false |
| Stepping.RetargetFromPreviousTarget | dist/index.js:117-121 | retargeting from 90 to 50 at value 40 restarts from 90; the first step moves down and is clamped to 50, which finishes the run |
| AnimateNumberComponent.AnimateNumber.constructor | dist/index.js:90-100 | the value starts at `initial` if truthy, else 0; display value 0, not dirty, both bounds 0, direction undefined |
| AnimateNumberComponent.AnimateNumber.Mount | dist/index.js:102-113 | `startFrom` becomes the current value, `endWith` the target prop, `dirty` true; the value is untouched; the returned delay is the one `startAnimate` arms the first step with on the new state, and it is a TypeError iff the timing key is unknown |
| AnimateNumberComponent.AnimateNumber.Retarget | dist/index.js:117-122 | `startFrom` becomes the previous target, `endWith` the new one, `dirty` true; value, display value and direction are untouched |
| AnimateNumberComponent.AnimateNumber.NextAction | dist/index.js:124-138 | returns the continuation rule's decision for the current state and target; `Finish` iff not dirty |
| AnimateNumberComponent.AnimateNumber.DidUpdate | dist/index.js:115-139 | a changed value prop retargets and calls `startAnimate`; an unchanged one leaves the state alone and returns the continuation rule's decision; each `startAnimate` call comes with the delay it computes on the new state, which is a TypeError iff the timing key is unknown |
| AnimateNumberComponent.AnimateNumber.Step | dist/index.js:153-176 | the new state is one `StepRun` of the old; `displayValue == formatter(value)`; `onProgress`, when given, receives the old value and the new one |
| AnimateNumberComponent.AnimateNumber.StartAnimateDelay | dist/index.js:150-178 | the timer's delay for the current progress: `interval` for `linear` and for a prop that is neither string nor function, the easeOut/easeIn curve for those keys, the custom function's result for a function; a TypeError iff the key is unknown |
| AnimateNumberComponent.MountProgressZero | dist/index.js:182-184 | at mount the progress is 0 when the target differs from the current value, and non-finite otherwise |

## Left out

- Rendering (`render`, `renderContent`, `Text`/`View`), `setState` batching and the `mounted` flag behind `componentWillUnmount`. They are React plumbing. `setState` is a direct field update, and the timer body always runs.
- `setTimeout`, `clearTimeout`, the `timer` field and the `startAt` delay. These are platform timers. A scheduled step is a later `Step` call. A retarget does not clear a step that is still pending, so two chains of steps can interleave. The class allows any sequence of `Step` calls, but the termination lemmas describe a single chain.
- `Math.sin`. It is floating-point trigonometry, so `easeOut` and `easeIn` take `sin(pi/2 * t)` as a function parameter. `easeIn`'s angle `pi/2 - pi/2 * p` is written as `pi/2 * (1 - p)`, which is exact for reals.
- `parseFloat` coercion, string-valued props and IEEE-754 rounding. Values are exact reals, and NaN and the infinities are one `NonFinite` value.
- Timing keys that name inherited object properties (such as `toString`). Only the table's three own keys are looked up.
- Arbitrary results of `formatter`: the display value is a number.
- `onFinish` and `onProgress` are recorded as returned actions and events, not called.
- Props other than `value` changing after construction. `steps`, `countBy`, `interval`, `timing`, `formatter` and `onProgress` are fixed.
- AnimateNumberComponent.AnimateNumber.DidUpdate: `ScheduleStep` stands for the call of `startAnimate`. When the returned delay is `NotAFunction`, that call throws and no timer is set. The class does not forbid a later `Step` call in that case. The termination lemmas describe the steps, which only happen when the timing prop is not an unknown key. The same holds for the delay `Mount` returns.
- AnimateNumberComponent.AnimateNumber.constructor: `steps` must be a positive integer. The source accepts any number, and a zero or fractional `steps` is not modelled.
