# BottomModal position state machine

A model of the draggable bottom sheet `BottomModal` of react-native-lightning-modal.
The model covers what the component decides, with React, the gesture handler and the
animation library stripped away. That is the target top edge of the sheet (`top`), the
flag that keeps the backdrop mounted (`isActive`), the top edge recorded when a drag
starts (`startHeight`), and the backdrop opacity derived from `top`.

- `geometry.dfy` (module `SheetGeometry`) holds the pure part. It defines the two rest
  positions and the release rule that chooses between them. It defines the
  "near hidden" test applied when an animation finishes. It gives JavaScript division on
  finite numbers, and the backdrop opacity both as written and as intended (see Findings).
- `events.dfy` (module `SheetEvents`) holds the state machine as values. `Step` applies
  one event (show, dismiss, drag start/update/end, animation finished) and `Run` applies
  a sequence of them. Lemmas cover single events and arbitrary sequences.
- `bottom_modal.dfy` (module `Modal`) holds the class `BottomModal`. Its fields are
  updated in place, with one method per callback of the component. Each method states
  its new fields and that its new snapshot is `Step` of the old one, so the sequence
  lemmas apply to any sequence of calls. A client method `Walkthrough` replays an
  800-pixel viewport with a 300-pixel sheet from the methods' contracts alone.

Numbers are exact reals in device pixels. The viewport height (`screen.height`) and the
sheet height (the `height` prop) are fixed constructor parameters and are not checked,
as in the component. Zero or negative heights are allowed, and division by zero yields
the JavaScript infinities or NaN.

Three facts about the code that the contracts pin down:
- The active flag is not a function of `top`. Only `show` sets it (line 81) and
  `dismiss` leaves it alone (lines 83-85). It is cleared only when the animation callback
  runs with `top > H - 10` (line 109), so at exactly `H - 10` it stays on.
- A drag update is not clamped (line 97): it can put the top edge anywhere.
- Line 127's opacity is not 1 at the presented position (see Findings).

## Model

| member | source | states |
|---|---|---|
| SheetGeometry.ReleaseTop | src/components/BottomModal.tsx:99-105 | a release always lands on hidden or presented; for a non-zero height it lands on hidden iff the top edge is strictly below the midpoint `H - h/2`, and on presented otherwise |
| SheetGeometry.ReleaseIsNearest | src/components/BottomModal.tsx:100-104 | for a non-negative height the rest position chosen is never further from the release point than the other one |
| SheetGeometry.ReleaseTieGoesToPresented | src/components/BottomModal.tsx:100-104 | a release exactly at the midpoint goes to presented |
| SheetGeometry.ReleaseMonotone | src/components/BottomModal.tsx:100-104 | for a non-negative height, releasing lower never gives a higher rest position |
| SheetGeometry.ReleaseAtRestIsIdentity | src/components/BottomModal.tsx:99-105 | for a non-negative height, releasing a sheet already at rest leaves it there |
| SheetGeometry.ReleaseFlipsForNegativeHeight | src/components/BottomModal.tsx:100-104 | with a negative height a release from hidden presents and a release from presented hides |
| SheetGeometry.HiddenIsNearHidden | src/components/BottomModal.tsx:109 | the hidden position passes the backdrop-clearing test |
| SheetGeometry.PresentedNearHiddenIffShort | src/components/BottomModal.tsx:80-109 | the presented position passes the backdrop-clearing test iff the sheet is shorter than 10 pixels |
| SheetGeometry.NearHiddenBoundary | src/components/BottomModal.tsx:109 | the test is strict: `H - 10` fails it, `H - 9` passes |
| SheetGeometry.Divide | src/components/BottomModal.tsx:127 | JavaScript division of finite numbers: finite iff the divisor is non-zero, and then quotient times divisor is the dividend; otherwise an infinity of the dividend's sign, or NaN for 0/0 |
| SheetGeometry.OpacityAsWritten | src/components/BottomModal.tsx:127 | the opacity as written is finite iff `H != h`, and then it times `H - h` equals `H - top` |
| SheetGeometry.OpacityAsWrittenAtPresented | src/components/BottomModal.tsx:127 | at the presented position the formula as written gives `h / (H - h)`, which is 1 iff `H == 2h` |
| SheetGeometry.OpacityAsWrittenCounterexample | src/components/BottomModal.tsx:127 | with `H = 800` the presented opacity is 0.6 for `h = 300` and 3 for `h = 600` |
| SheetGeometry.OpacityAsWrittenNonIncreasing | src/components/BottomModal.tsx:127 | while the sheet is shorter than the viewport (`H > h`) the opacity as written never increases as the top edge moves down |
| SheetGeometry.OpacityAsWrittenIncreasesForTallSheet | src/components/BottomModal.tsx:127 | for a sheet taller than the viewport (`h > H`) the opacity as written strictly increases as the top edge moves down; with `H = 800`, `h = 1000` it is -0.5 at 700 and 0 at 800 |
| SheetGeometry.BackdropOpacity | src/components/BottomModal.tsx:125-133 | the corrected opacity is finite iff `h != 0`, and then it times `h` equals `H - top`, the linear interpolation between hidden and presented |
| SheetGeometry.BackdropOpacityEndpoints | src/components/BottomModal.tsx:127 | the corrected opacity is 0 at hidden and 1 at presented |
| SheetGeometry.BackdropOpacityNonIncreasing | src/components/BottomModal.tsx:127 | for `h > 0` the corrected opacity never increases as the top edge moves down |
| SheetGeometry.BackdropOpacityInUnitRange | src/components/BottomModal.tsx:127 | for `h > 0` and a top edge between the rest positions the corrected opacity lies in [0, 1] |
| SheetEvents.Initial | src/components/BottomModal.tsx:75-76 | a mounted sheet has the flag off and no drag start, and is already settled hidden: neither `dismiss` nor a finished animation changes it |
| SheetEvents.Step | src/components/BottomModal.tsx:79-112 | one event's effect on `top`, `isActive` and `startHeight`: only `show` turns the flag on, only a finished animation near hidden turns it off, only a drag start records a start (the current top edge), and every event but a drag update leaves the sheet at a rest position or where it was |
| SheetEvents.Run | src/components/BottomModal.tsx:75-112 | a sequence of events applied in order; after any sequence the flag is on only if it was on before or the sequence contains `show` (only line 81 sets it), and the recorded drag start is unchanged unless the sequence contains a drag start (only line 94 writes it) |
| SheetEvents.RunAppend | src/components/BottomModal.tsx:75-112 | running two event sequences one after the other is the same as running their concatenation |
| SheetEvents.RunLast | src/components/BottomModal.tsx:75-112 | the last event of a sequence is applied last, to the state the earlier events produced |
| SheetEvents.ShowPresents | src/components/BottomModal.tsx:79-82 | `show` sets the top edge to presented and the flag on, keeps the drag start, and is idempotent |
| SheetEvents.DismissHidesKeepingFlag | src/components/BottomModal.tsx:83-85 | `dismiss` sets the top edge to hidden, leaves the flag and the drag start alone, and is idempotent |
| SheetEvents.DragUpdateReachesAnyOffset | src/components/BottomModal.tsx:96-98 | a drag update is unclamped: for every target offset there is a translation that puts the top edge exactly there, without touching the flag or the drag start |
| SheetEvents.DragMovesByTranslation | src/components/BottomModal.tsx:93-98 | drag start then update records the old top edge and moves the top edge by exactly the translation |
| SheetEvents.DragEndSettles | src/components/BottomModal.tsx:99-105 | a release lands on a rest position, hidden iff the top edge was below the midpoint (non-zero height), and leaves the flag alone |
| SheetEvents.AnimationFinishedOnlyClears | src/components/BottomModal.tsx:108-112 | a finished animation turns the flag off iff the sheet is near hidden, never turns it on, and never moves the sheet |
| SheetEvents.OnlyShowActivates | src/components/BottomModal.tsx:76-112 | any single event that turns the flag on is `show` |
| SheetEvents.RestWithoutDragUpdates | src/components/BottomModal.tsx:75-112 | starting at rest, any sequence without drag updates ends at rest |
| SheetEvents.DismissThenFinishHides | src/components/BottomModal.tsx:83-112 | from any state, `dismiss` followed by a finished animation ends hidden with the flag off |
| SheetEvents.ShowThenFinish | src/components/BottomModal.tsx:79-112 | `show` followed by a finished animation ends presented, with the flag on iff the sheet is at least 10 pixels tall |
| SheetEvents.Walkthrough | src/components/BottomModal.tsx:75-112 | 800/300: show rests at 500 with the flag on; drag start and a drag of 250 reach 750; release and finish end at 800 with the flag off |
| Modal.BottomModal.constructor | src/components/BottomModal.tsx:75-76 | a mounted sheet is hidden with the flag off and no drag recorded |
| Modal.BottomModal.Show | src/components/BottomModal.tsx:79-82 | sets the top edge to presented and the flag on, nothing else |
| Modal.BottomModal.Dismiss | src/components/BottomModal.tsx:83-85 | sets the top edge to hidden, nothing else |
| Modal.BottomModal.DragStart | src/components/BottomModal.tsx:93-95 | records the current top edge as the drag start, nothing else |
| Modal.BottomModal.DragUpdate | src/components/BottomModal.tsx:96-98 | sets the top edge to the recorded start plus the translation, nothing else |
| Modal.BottomModal.DragEnd | src/components/BottomModal.tsx:99-105 | moves the top edge to a rest position, hidden iff it was below the midpoint (non-zero height), nothing else |
| Modal.BottomModal.UpdateIsActive | src/components/BottomModal.tsx:108-112 | the flag stays on iff it was on and the sheet is not near hidden; nothing else changes |
| Modal.BottomModal.OpacityAsWritten | src/components/BottomModal.tsx:125-133 | the component's own backdrop target for the current top edge: finite iff `H != h`, and then it times `H - h` equals `H - top` |
| Modal.BottomModal.CorrectedOpacity | src/components/BottomModal.tsx:125-133 | the corrected backdrop target (see Findings) for the current top edge: finite iff `h != 0`, and then it times `h` equals `H - top` |

## Findings

| source | as written | input that shows it | evidently intended | confidence | as-written member | corrected member |
|---|---|---|---|---|---|---|
| src/components/BottomModal.tsx:127 | opacity `(screen.height - top) / (screen.height - height)` | `H = 800`, `h = 300`, presented `top = 500`: opacity 0.6 instead of 1; `h = 600` asks for 3 | `(screen.height - top) / height`: 0 when hidden, 1 when presented, linear in between | medium, not executed | SheetGeometry.OpacityAsWrittenCounterexample | SheetGeometry.BackdropOpacityEndpoints |
| src/components/BottomModal.tsx:127 | opacity divides by `screen.height - height`, which is negative for a sheet taller than the viewport | `H = 800`, `h = 1000`: opacity -0.5 at top 700 and 0 at top 800, so it grows as the sheet moves down | `(screen.height - top) / height`: never increasing as the sheet moves down, for any positive height | medium, not executed | SheetGeometry.OpacityAsWrittenIncreasesForTallSheet | SheetGeometry.BackdropOpacityNonIncreasing |

The class `Modal.BottomModal` offers both: `OpacityAsWritten` is the component's value
and `CorrectedOpacity` the corrected one. The walk-through `Modal.Walkthrough` shows 0.6
for the first and 1 for the second when the 300-pixel sheet is presented.

## Left out

- Rendering and styles (lines 135-190): layout only, with no behaviour to state. This
  includes mounting the backdrop only while `isActive` (line 137).
- The `withTiming` animation (lines 114-133) with its easing, its duration and the
  `defaultProps` fallbacks (line 157): the model keeps only the target value of `top`.
  The animation's completion is the separate event `AnimationFinished` / method
  `UpdateIsActive`. The `finished` argument of the completion callback is ignored by the
  component and is not modelled.
- The worklet/JS-thread split and the React wiring (`useSharedValue`, `runOnJS`,
  `useAnimatedGestureHandler`, `useImperativeHandle`, `useCallback`): the events are
  modelled as sequential calls. The handle's `isActive` property (line 86) is a snapshot
  taken at the last render and is not modelled apart from the field `isActive`.
- `screen` from `src/utils`: that file is not part of this model. Its height is the
  constructor parameter `screenHeight`.
- `src/utils/hooks/BottomModal.ts` forwards `show` and `dismiss` through a ref. Its only
  logic is the no-op when no instance is attached. The example app `example/src/App.tsx`
  is unrelated to the modal.
- Floating point: values are exact reals, so rounding in `height / 2` and in the
  opacity division is not modelled.
- Modal.BottomModal.DragUpdate: requires a drag start to have been recorded. The gesture
  handler always reports `onStart` before `onActive`. Before the first start the source
  would add to an undefined value and get NaN. `SheetEvents.Step` ignores such an update
  instead.
