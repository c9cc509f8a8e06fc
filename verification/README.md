# Rectangle gesture interaction, modelled in Dafny

The `RectangleGesture` input interaction watches the pointer position of a bound control,
one sample per `Process` call, and recognises a rectangle traced clockwise as four legs:
right, down, left, up. Its state is a phase (`None`, `FirstLineMovement`,
`SecondLineMovement`, `ThirdLineMovement`, `LastLineMovement`) and three remembered points:
the previous sample, the start of the current leg and the start of the gesture. On each
sample it compares coordinate differences with the effective sloppiness threshold `T` and
then may move one phase forward and may send `Started`, `Canceled` or `Performed` to the
host (in the last leg, both of the latter two). Every actuated sample also becomes the
remembered previous sample.

The project has four modules:

- `Vectors` (`vectors.dfy`): the 2-D position and the difference helpers `DiffX`, `DiffY`,
  `AbsDiffX` and `AbsDiffY`.
- `RectangleGesture` (`rectangle_gesture.dfy`): the phases, the signals and the state as a
  value. It also holds the threshold selection and the pure transition `Step`, which takes
  one sample and returns the new state and the signals in the order they are sent. `Run`
  feeds a sequence of samples to `Step` through `Fold`, which runs any transition function
  over a sequence.
- `RectangleGestureProperties` (`rectangle_gesture_properties.dfy`): each phase's rules
  stated on raw coordinates, the strict boundaries, and properties of whole runs. Examples:
  no `Performed` before the fifth sample, the exact-rectangle trace, and `Performed`
  together with `Canceled` on one sample.
- `Interactions` (`interactions.dfy`): the class `RectangleGestureInteraction`. Its fields
  are updated in place by `Process`, `StartRecognition` and `Reset`. `Process` is written
  as the C# interaction's sequential `if`s inside a `match` on the phase, and it is proved to
  leave exactly the state and signals that `Step` gives.

Coordinates and thresholds are `real`. The process-wide default threshold is a parameter of
`Process`. Whether the control is actuated is a boolean argument. The callbacks to the host
context become the returned sequence of signals.

Behaviour of the code that is easy to expect otherwise, and that the model keeps:

- Once an attempt has started, an off-axis step between two samples never cancels; it
  only blocks the advance (`OffAxisStepOnlyBlocks`, `DiagonalNoiseDoesNotCancel`,
  `CancelIgnoresOffAxis`, `ThirdLine`). A cancel for an off-axis move comes only from a
  first move steeper than T in `None` (`FromNone`), and from the third leg's test that the
  up leg is back on the start's x (`ThirdLine`).
- A fresh recognizer's previous position is the origin. So the samples (0,0), (10,0),
  (10,-10), (0,-10), (0,0) with `T = 1` give `[Canceled], [Started], [], [], []`, with no
  `Performed` (`CornerFirstTrace`). The rectangle is performed when the fresh previous position
  (0,0) is the starting corner, so the first sample is already (10,0), and the start point
  is sampled twice at the end (`UnitRectangleTrace`).
- `Canceled` and `Performed` never reset the phase. A `Canceled` in `None` keeps the phase
  `None`, and any later phase keeps its phase on `Canceled`. Only `Reset` returns to `None`.
  `Performed` is sent again on every later sample that is within T of the start on both
  axes and moved less than T horizontally since the previous sample; holding the pointer
  still after a `Performed` sends it again (`PerformedRepeats`).
- In the last leg, `Performed` and `Canceled` can both be sent for one sample, in that
  order. This is reachable from a fresh recognizer (`PerformedAndCanceledTogether`).

## Model

| member | source | states |
|---|---|---|
| `Vectors.DiffX` | Packages/com.unity.inputsystem/InputSystem/Actions/Interactions/RectangleGestureInteraction.cs:61-66 | the result is the signed x displacement: adding it to `b.x` gives `a.x` |
| `Vectors.DiffY` | Packages/com.unity.inputsystem/InputSystem/Actions/Interactions/RectangleGestureInteraction.cs:68-73 | the result is the signed y displacement: adding it to `b.y` gives `a.y` |
| `Vectors.AbsDiffX` | Packages/com.unity.inputsystem/InputSystem/Actions/Interactions/RectangleGestureInteraction.cs:47-52 | the result is non-negative and is the x distance in one direction or the other |
| `Vectors.AbsDiffY` | Packages/com.unity.inputsystem/InputSystem/Actions/Interactions/RectangleGestureInteraction.cs:54-59 | the result is non-negative and is the y distance in one direction or the other |
| `RectangleGesture.SloppinessOrDefault` | Packages/com.unity.inputsystem/InputSystem/Actions/Interactions/RectangleGestureInteraction.cs:33 | the configured threshold when it is > 0, the default otherwise; positive whenever the default is positive |
| `RectangleGesture.SloppinessNegativeOrDefault` | Packages/com.unity.inputsystem/InputSystem/Actions/Interactions/RectangleGestureInteraction.cs:34 | exactly the negation of the effective threshold, so negative whenever the default is positive |
| `RectangleGestureProperties.ThresholdFallback` | Packages/com.unity.inputsystem/InputSystem/Actions/Interactions/RectangleGestureInteraction.cs:33-34 | an unset (≤ 0) configured threshold selects the same threshold as one configured with the default, whatever the default's sign, and the negated threshold is minus the default |
| `RectangleGesture.StartRecognition` | Packages/com.unity.inputsystem/InputSystem/Actions/Interactions/RectangleGestureInteraction.cs:75-80 | phase becomes `FirstLineMovement`, and both the leg start and the gesture start become the previous sample |
| `RectangleGesture.Step` | Packages/com.unity.inputsystem/InputSystem/Actions/Interactions/RectangleGestureInteraction.cs:82-196 | inactive: nothing changes and nothing is sent; actuated: previous position becomes the sample; the phase stays or moves exactly one step forward, so it never returns to `None`; a new leg starts at the old previous sample, otherwise both starts are kept; the gesture start changes only when an attempt starts; `Started` is sent exactly when `None` moves to the first leg; `Canceled` and `Performed` never change the phase, and `Performed` comes only from the last leg; at most two signals |
| `RectangleGesture.Run` | Packages/com.unity.inputsystem/InputSystem/Actions/Interactions/RectangleGestureInteraction.cs:82-196 | one signal list per sample; the phase rank never decreases and grows at most by the number of samples, so a started attempt never returns to `None` |
| `Interactions.RectangleGestureInteraction.constructor` | Packages/com.unity.inputsystem/InputSystem/Actions/Interactions/RectangleGestureInteraction.cs:28-45 | a new interaction is in `None` with all three positions zero and keeps the given threshold |
| `Interactions.RectangleGestureInteraction.StartRecognition` | Packages/com.unity.inputsystem/InputSystem/Actions/Interactions/RectangleGestureInteraction.cs:75-80 | updates the fields to the state `RectangleGesture.StartRecognition` gives and keeps the threshold |
| `Interactions.RectangleGestureInteraction.Process` | Packages/com.unity.inputsystem/InputSystem/Actions/Interactions/RectangleGestureInteraction.cs:82-196 | the new fields and the returned signals are exactly `Step` of the old state with the effective threshold; an inactive control changes no field and sends nothing; an actuated sample becomes the previous position; the threshold is kept |
| `Interactions.RectangleGestureInteraction.Reset` | Packages/com.unity.inputsystem/InputSystem/Actions/Interactions/RectangleGestureInteraction.cs:198-204 | from any state, phase `None` and all three positions zero, so a second reset changes nothing; the threshold is kept |
| `RectangleGestureProperties.FromNone` | Packages/com.unity.inputsystem/InputSystem/Actions/Interactions/RectangleGestureInteraction.cs:98-114 | from `None`, a sample with `dx > 0` and `abs(dy) ≤ T` starts at the old previous position and sends exactly `Started`; any other sample sends exactly `Canceled` and only updates the previous position |
| `RectangleGestureProperties.NoMoveCancelsFromNone` | Packages/com.unity.inputsystem/InputSystem/Actions/Interactions/RectangleGestureInteraction.cs:100-113 | in `None`, a sample equal to the previous one cancels and leaves the state as it was |
| `RectangleGestureProperties.FirstLine` | Packages/com.unity.inputsystem/InputSystem/Actions/Interactions/RectangleGestureInteraction.cs:116-132 | advances to the second leg if and only if `legDy < -T` and `abs(dx) < T`; sends `Canceled` (alone) if and only if `legDy > T`; keeps the gesture start |
| `RectangleGestureProperties.SecondLine` | Packages/com.unity.inputsystem/InputSystem/Actions/Interactions/RectangleGestureInteraction.cs:133-148 | advances to the third leg if and only if `legDx < -T` and `abs(dy) < T`; sends `Canceled` (alone) if and only if `legDx > T`; keeps the gesture start |
| `RectangleGestureProperties.ThirdLine` | Packages/com.unity.inputsystem/InputSystem/Actions/Interactions/RectangleGestureInteraction.cs:149-173 | advances to the last leg if and only if the up test holds and `abs(p.x - start.x) < T`; sends one `Canceled` if and only if the up test holds without the closure or `legDy < -T` |
| `RectangleGestureProperties.LastLine` | Packages/com.unity.inputsystem/InputSystem/Actions/Interactions/RectangleGestureInteraction.cs:175-189 | the phase never changes; `Performed` is sent if and only if the sample is within `T` of the start on both axes and `abs(dx) < T`, followed by `Canceled` if and only if `legDy < -T` |
| `RectangleGestureProperties.ExactThresholdDoesNotAdvance` | Packages/com.unity.inputsystem/InputSystem/Actions/Interactions/RectangleGestureInteraction.cs:119-152 | a leg displacement of exactly `-T`, `-T` or `+T` in the first, second or third leg changes only the previous position and sends nothing |
| `RectangleGestureProperties.CancelIgnoresOffAxis` | Packages/com.unity.inputsystem/InputSystem/Actions/Interactions/RectangleGestureInteraction.cs:116-189 | in the first and last legs cancellation depends only on `y`, in the second only on `x` |
| `RectangleGestureProperties.OffAxisStepOnlyBlocks` | Packages/com.unity.inputsystem/InputSystem/Actions/Interactions/RectangleGestureInteraction.cs:116-189 | in every started phase, a step of at least T across the leg's axis keeps the phase, never sends `Performed`, and sends `Canceled` exactly when the sample is more than T the wrong way along the leg's own axis |
| `RectangleGestureProperties.DiagonalNoiseDoesNotCancel` | Packages/com.unity.inputsystem/InputSystem/Actions/Interactions/RectangleGestureInteraction.cs:116-148 | in the first or second leg, a sample at least `t` off the leg's axis and not more than `t` back past the leg start neither advances nor cancels, however far off-axis it is |
| `RectangleGestureProperties.RunAt` | Packages/com.unity.inputsystem/InputSystem/Actions/Interactions/RectangleGestureInteraction.cs:82-196 | the signals of the k-th sample are `Step`'s from the state the first k samples reach |
| `RectangleGesture.FoldRank` | Packages/com.unity.inputsystem/InputSystem/Actions/Interactions/RectangleGestureInteraction.cs:116-189 | a transition that keeps or advances the phase by one keeps the rank of a run between its start and start plus the number of samples |
| `RectangleGestureProperties.FoldAppend` | Packages/com.unity.inputsystem/InputSystem/Actions/Interactions/RectangleGestureInteraction.cs:82-196 | for any transition, running two batches one after the other is running their concatenation |
| `RectangleGestureProperties.RunAppend` | Packages/com.unity.inputsystem/InputSystem/Actions/Interactions/RectangleGestureInteraction.cs:82-196 | the same for the recognizer's own transition |
| `RectangleGestureProperties.PerformedNeedsAllLegs` | Packages/com.unity.inputsystem/InputSystem/Actions/Interactions/RectangleGestureInteraction.cs:116-189 | `Performed` on sample k of a run from phase rank n implies n + k ≥ 4: no phase is skipped |
| `RectangleGestureProperties.PerformedNeedsFiveSamples` | Packages/com.unity.inputsystem/InputSystem/Actions/Interactions/RectangleGestureInteraction.cs:98-189 | from a fresh recognizer, `Performed` cannot come before the fifth sample |
| `RectangleGestureProperties.RectangleOpening` | Packages/com.unity.inputsystem/InputSystem/Actions/Interactions/RectangleGestureInteraction.cs:98-148 | right by w, down by h, left by w (w, h > T) from `None` sends `[Started], [], []` and reaches the third leg starting at the bottom-right corner `(o.x + w, o.y - h)` |
| `RectangleGestureProperties.RectangleClosing` | Packages/com.unity.inputsystem/InputSystem/Actions/Interactions/RectangleGestureInteraction.cs:149-189 | from that state, returning to the start and sampling it once more sends `[]` and then `[Performed]` |
| `RectangleGestureProperties.RectangleIsPerformed` | Packages/com.unity.inputsystem/InputSystem/Actions/Interactions/RectangleGestureInteraction.cs:98-193 | every exact rectangle with sides larger than T, traced from `None`, sends `[Started], [], [], [], [Performed]` |
| `RectangleGestureProperties.UnitRectangleTrace` | Packages/com.unity.inputsystem/InputSystem/Actions/Interactions/RectangleGestureInteraction.cs:98-193 | from a fresh state with T = 1, (10,0), (10,-10), (0,-10), (0,0), (0,0) send `[Started], [], [], [], [Performed]` |
| `RectangleGestureProperties.CornerFirstTrace` | Packages/com.unity.inputsystem/InputSystem/Actions/Interactions/RectangleGestureInteraction.cs:29-193 | from a fresh state, a first sample at the origin cancels, and a rectangle then ends in the last leg without `Performed` |
| `RectangleGestureProperties.JitteryThirdLeg` | Packages/com.unity.inputsystem/InputSystem/Actions/Interactions/RectangleGestureInteraction.cs:149-173 | an up leg that first drifts sideways finishes only on a horizontally still sample near the start's x, and the last leg then starts at the sample before it |
| `RectangleGestureProperties.PerformedRepeats` | Packages/com.unity.inputsystem/InputSystem/Actions/Interactions/RectangleGestureInteraction.cs:174-193 | a sample that sends `Performed`, repeated, sends `Performed` again and leaves the state unchanged: no phase change ends the repetition |
| `RectangleGestureProperties.PerformedAndCanceledTogether` | Packages/com.unity.inputsystem/InputSystem/Actions/Interactions/RectangleGestureInteraction.cs:175-189 | a run from a fresh recognizer whose seventh sample sends `[Performed, Canceled]` |

## Left out

- Host plumbing: `InputInteractionContext`, `ReadValue`, `ControlIsActuated` and the
  `Started`/`Canceled`/`Performed` callbacks are replaced by a position argument, a boolean
  and the returned signal sequence. The host's reaction to the signals, including whether
  it calls `Reset` after `Canceled`, is not part of the model.
- The process-wide settings object: `InputSystem.settings.defaultSloppinessThreshold` is the
  `defaultThreshold` parameter of `Process`.
- `Debug.Log` calls, the `DisplayName` attribute and the editor imports: they have no effect
  on the recognizer's state or signals.
- Floating point: coordinates and thresholds are `real` and `Mathf.Abs` is `Abs`, so IEEE
  `float` rounding, infinities and NaN are not modelled.
- `Assets/Tests/TestRectangleGestureinteraction/GamepadTest.cs`: a demo component that adds
  a mouse, binds an action and logs its callbacks; it states nothing about the recognizer.
- The unused local `diffY` of the `None` case computes nothing that is read.
