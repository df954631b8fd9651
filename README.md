# Hand-gesture desktop controller: a Dafny model of the per-frame state machine

This project models the gesture controller in `Main.py`. Once per camera frame it takes the 21 hand landmarks that the hand-tracking model reports, each as `[id, x, y]` in camera pixels. From them it computes a finger-state vector, with one entry per finger: 1 when the finger is raised, 0 otherwise. A latch then selects one of three desktop-control modes from that vector:

- Scroll: scroll up or down;
- Volume: set the master volume from the distance between thumb tip and index tip (Windows only);
- Cursor: move the mouse cursor to the index tip's position, and click.

The two loop-carried variables are `mode` (`''`, `'N'`, `'Scroll'`, `'Volume'`, `'Cursor'`) and `active`, the latch. While the latch is set, no new mode can be selected.

Files:

- `Numeric.dfy` (module `Numeric`): the two numeric library operations, written over `real`.
  - `np.interp` on one segment, modelled as clamped linear interpolation.
  - Python's `int(...)` on a float, modelled as truncation toward zero.
- `Gesture.dfy` (module `Gesture`): the data model and the frame logic as functions.
  - Types: landmarks, modes, state, actions, platform and frame.
  - The finger-state vector, `Fingers`, and the source's append loop, the method `FingerStates`.
  - The selection chain `Select`, and the three handlers.
  - The whole frame transition `Transition`, and `Run` over a sequence of frames.
- `Controller.dfy` (module `GestureController`): the class `Controller`.
  - Fields `mode` and `active`, plus the platform fixed at start-up.
  - `Step(frame)` performs one loop iteration step by step, in the order the source does.
  - `Step` is proved equal to `Gesture.Transition`, and it keeps the latch invariant `Valid()`.
- `Properties.dfy` (module `GestureProperties`): lemmas about `Transition` and `Run`.

Modelling choices:

- `active` is a `bool`: 1 is `true`.
- The modes `''` and `'N'` are `Blank` and `Neutral`.
- A finger entry is an integer 0 or 1 (`Bit`), as in the source.
- Scrolling, setting the volume, moving the cursor and clicking are not performed. Each frame returns an `Action` instead:
  - `ScrollBy(±300)`;
  - `SetVolume(level, percent)`, where `percent` is the percentage `volPer`, before `int(...)` turns it into the on-screen label;
  - `MoveTo(x, y, click)`;
  - `NoAction`.
- The platform check, the volume range and the screen size are inputs:
  - `Platform(isWindows, minVol, maxVol)` is fixed at start-up;
  - the screen size travels with each `Frame`. The source reads it only on a Cursor frame with a hand that does not release (Main.py:191-194), and only such frames use it.
- The thumb-to-index distance (`math.hypot` at Main.py:162) is an input of the frame, as a real.
- The landmark list is empty or holds all 21 landmarks, as the landmark provider delivers it.

Details of the code a reader might not expect:

- The thumb's entry is decided by comparing the thumb tip's x with the pinky tip's x, because `tipIds[0 - 1]` is `tipIds[-1]`, which is 20. When the two are equal, no thumb entry is appended and the vector has 4 entries.
- With a 4-entry vector, Cursor mode can never be released: `fingers[1:]` then has only 3 entries. The click then follows the index finger. This is proved as `CursorWithoutThumbEntry`.
- The bottom-right corner of the cursor rectangle maps to `(w-1, h-1)` only before the even-snapping step. The cursor itself goes to the largest even value not above each coordinate (`CursorCoordFacts`).
- The rectangle drawn on screen starts at x = 90 (Main.py:183), but the mapping starts at 110 (Main.py:195). The model uses 110, because that is what moves the cursor.

## Model

| member | source | states |
|---|---|---|
| `Numeric.Interp` | Main.py:165-167 | `np.interp` on one segment: the first value left of the segment, the second right of it. In between, the point on the line through the two sample points. The result always lies between the two values. |
| `Numeric.Trunc` | Main.py:195-196 | `int(...)` of a float rounds toward zero: the result is non-negative for a non-negative input and lies within 1 of the input. |
| `Numeric.InterpMonotone` | Main.py:195-196 | Interpolation onto increasing values keeps the order of its arguments. |
| `Numeric.TruncMonotone` | Main.py:195-196 | Truncation keeps the order of its arguments. |
| `Gesture.Rest` | Main.py:186 | Python's `fingers[1:]`: empty for an empty list, otherwise everything after the first entry. |
| `Gesture.ThumbEntry` | Main.py:99-108 | The thumb contributes no entry when thumb tip and pinky tip share their x, and one entry otherwise. Facing one way (x4 > x20) the entry is 1 exactly when x4 >= x3; facing the other way (x4 < x20), exactly when x4 <= x3. |
| `Gesture.FingerUp` | Main.py:110-114 | Finger `id` (1 to 4) is up exactly when its tip, landmark 4·id+4, has a smaller y than landmark 4·id+2, two below it. |
| `Gesture.Fingers` | Main.py:99-114 | The vector has 4 entries when thumb tip and pinky tip share their x, otherwise 5. The thumb entry is 1 exactly when (x4 > x20 and x4 >= x3) or (x4 < x20 and x4 <= x3). The last four entries are 1 exactly when y8 < y6, y12 < y10, y16 < y14 and y20 < y18. |
| `Gesture.FingerStates` | Main.py:94-114 | The source's append loop, which builds the vector entry by entry, yields exactly `Fingers`. |
| `Gesture.Select` | Main.py:116-126 | Selection happens only with the latch clear and only for a trigger pattern. `[0,0,0,0,0]` gives N with the latch clear. `[0,1,0,0,0]` and `[0,1,1,0,0]` give Scroll, `[1,1,0,0,0]` gives Volume and `[1,1,1,1,1]` gives Cursor, each with the latch set. Anything else, including every 4-entry vector, changes nothing. |
| `Gesture.Snap` | Main.py:202-205 | The snapped coordinate is even, is not above the unsnapped one, and is at most 1 below it. |
| `Gesture.CursorCoord` | Main.py:195-205 | The cursor coordinate is always even. On a screen of at least one pixel it lies in [0, size-1], and a tip at or before the rectangle's near edge maps to 0. |
| `Gesture.ScrollHandler` | Main.py:128-141 | The handler keeps the latch invariant, stays in Scroll or goes to N, and only issues scroll actions. It releases exactly when a hand shows `[0,0,0,0,0]`. |
| `Gesture.VolumeHandler` | Main.py:143-171 | The handler keeps the latch invariant, stays in Volume or goes to N, and only issues volume actions. It releases exactly when a hand's last finger entry is 1. |
| `Gesture.CursorHandler` | Main.py:180-214 | The handler keeps the latch invariant, stays in Cursor or goes to N, and only issues cursor moves. It releases exactly when `fingers[1:] == [0,0,0,0]`, with or without a hand. |
| `Gesture.Transition` | Main.py:94-214 | One frame keeps the latch invariant. Each action kind comes only from its own mode, and a volume action only on Windows. |
| `GestureController.Controller.constructor` | Main.py:67-68 | The controller starts with mode `''` and the latch clear. |
| `GestureController.Controller.Step` | Main.py:94-214 | One loop iteration leaves exactly the state and action that `Transition` gives, and keeps the latch invariant. |
| `GestureController.Controller.SelectMode` | Main.py:116-126 | The if/elif selection chain on the object's fields equals `Select`. |
| `GestureController.Controller.HandleScroll` | Main.py:128-141 | The Scroll handler on the object's fields equals `ScrollHandler`. |
| `GestureController.Controller.HandleVolume` | Main.py:143-171 | The Volume handler on the object's fields equals `VolumeHandler`. |
| `GestureController.Controller.HandleCursor` | Main.py:180-214 | The Cursor handler on the object's fields, including the modular even-snapping, equals `CursorHandler`. |
| `GestureProperties.SelectionOnlyFromNeutral` | Main.py:116-126 | In a latched state, a set latch blocks selection. Any change comes from `''` or N with the latch clear, on a 5-entry vector. |
| `GestureProperties.SelectedModeActsAtOnce` | Main.py:116-214 | Starting with the latch clear, the frame that selects a mode also runs that mode's handler. Scroll gives ±300. Volume sets the interpolated level on Windows and does nothing elsewhere. Cursor moves without clicking. `[0,0,0,0,0]` gives N and no action. |
| `GestureProperties.ScrollFrame` | Main.py:128-141 | In Scroll with a hand: `[0,1,0,0,0]` scrolls +300 and `[0,1,1,0,0]` scrolls −300. `[0,0,0,0,0]` releases to N with the latch clear. Any other vector stays in Scroll with the latch set and no action. |
| `GestureProperties.VolumePercent` | Main.py:165-167 | The percentage `volPer`, before `int(...)` for display, equals the distance mapped directly from [50, 200] onto [0, 100]. It is 0 up to 50 pixels, 100 from 200 pixels on, and always within [0, 100]. |
| `GestureProperties.VolumeFrame` | Main.py:143-171 | In Volume on Windows with a hand: a last entry of 1 releases to N with the latch clear. Otherwise the level is `Interp(length, 50, 200, minVol, maxVol)`, inside the range, with the percentage of `VolumePercent`. |
| `GestureProperties.VolumeStaysOffWindows` | Main.py:143-149 | Off Windows, an engaged Volume mode stays engaged and produces no action on any frame. |
| `GestureProperties.VolumeStuckOffWindows` | Main.py:116-149 | Off Windows, no sequence of frames ever leaves an engaged Volume mode. |
| `GestureProperties.CursorCoordFacts` | Main.py:193-205 | For a screen of at least one pixel: the interpolated-and-truncated coordinate lies in [0, size-1]. The snapped coordinate is even and in range, and is the truncated one or one less. The rectangle's near edge maps to 0. The far edge maps to size-1, then snaps to the largest even value not above it. |
| `GestureProperties.CursorCoordMonotone` | Main.py:195-205 | Moving the index tip right or down never moves the cursor left or up. |
| `GestureProperties.CursorFrame` | Main.py:180-214 | In Cursor with a hand, the mode releases to N exactly when `fingers[1:] == [0,0,0,0]`, whatever the thumb entry is. Otherwise the cursor moves to the mapped, even, on-screen index-tip position, and clicks exactly when `fingers[0] == 0`. |
| `GestureProperties.CursorWithoutThumbEntry` | Main.py:99-214 | When no thumb entry is appended, Cursor mode is never released. The click then follows the index finger. |
| `GestureProperties.HandLossPersists` | Main.py:128-191 | A frame without landmarks changes no mode and produces no action. In a latched state it changes nothing, so in particular Cursor mode is not released. |
| `GestureProperties.ReleaseOnlyByPattern` | Main.py:128-191 | An engaged mode ends only on a frame with a hand that shows that mode's release pattern. Scroll releases on `[0,0,0,0,0]`, Volume on Windows on a last entry of 1, and Cursor when `fingers[1:]` is `[0,0,0,0]`. It always ends in N with the latch clear. |
| `Gesture.Run` | Main.py:78-227 | The main loop over a sequence of frames keeps the latch invariant: when it holds at the start, the latch is set at the end if and only if the mode is Scroll, Volume or Cursor. |
| `GestureProperties.ReachableStatesLatched` | Main.py:67-68 | From start-up (`''`, 0), every reachable state satisfies the latch invariant, on both platforms. |

## Left out

- HandTrackingModule.py is not part of this model. Landmark detection is done by an external vision model. The conversion of normalised coordinates to pixels is float arithmetic on that model's output, so the landmark list is an input.
- Camera capture, the window, the 'q' key and the camera-failure exit are input and output around the loop. So is all drawing: text, rectangles, circles, lines, the volume bar `volBar` and the circle drawn below 50 pixels. So are the console `print` calls (Main.py:53, 150, 170, 189, 206).
- The FPS computation (Main.py:217-220) is float timing with no effect on mode or latch.
- The audio API setup and `SetMasterVolumeLevel`, and the `pyautogui` scroll, move, click and screen-size calls, are foreign calls. They appear only as returned actions and inputs.
- `math.hypot` is not modelled: the distance is an input of the frame.
- `np.interp` and `int(...)` are modelled over exact reals, so floating-point rounding is not reproduced.
- Platform detection is an input. The source fixes `minVol` at −63 and reads `maxVol` from the device (Main.py:51-52). Both are parameters here, required to satisfy `minVol < maxVol` on Windows, as interpolation needs.
- The screen size is a per-frame input. The bounds on cursor coordinates are proved for a screen of at least one pixel.
