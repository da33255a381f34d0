# Gesture drawing board and virtual drum kit, in Dafny

This project models two hand-tracking programs:

- **The calculus drawing board** (`Draw.py`, and its identical copy `OpenCV/Draw.py`). Every camera frame it reads the first hand's index fingertip and stores it in a six-point history. It smooths the tip against that history into a stabilised point and reads the finger pattern. Then it runs two phases:
  - **The menu phase.** It runs only while the menu is shown and the index finger is up. It covers the colour swatches, the clear, grid, save and mode buttons, and the thickness slider.
  - **The drawing phase.** Freehand strokes the history. The line, circle and rectangle modes anchor on the first frame and commit the shape on a pinch.

  A fist toggles the menu, with a one-second cooldown.
- **The drum trigger loop** (`Drums.py`). Every frame, each of the four fingertips of each hand is tested against each of the seven pads. A pad fires when all of these hold:
  - the fingertip is strictly inside the pad;
  - it moved more than 20 pixels since that hand's previous frame;
  - the pad has been quiet for more than 0.2 seconds.

  Firing plays the pad's sample and starts a 0.15-second highlight. The volume scales with speed, clamped to between 0.3 and 1.0 of the pad's base volume.

Each program is modelled at two levels:

- **Functions over a value.** For the board, the value is `Draw.Engine`, one frame is `Draw.Next`, and its phases are `Draw.Tracked`, `Draw.Menu` and `Draw.DrawPhase`. For the drums, the value is `Drums.Kit`, and the loops are `Drums.ProcessHands`, `Drums.ProcessHand`, `Drums.StrikeTips`, `Drums.StrikePads` and `Drums.Strike`.
- **A class that runs the loop body in place.** These are `DrawBoard.Board` and `DrumRack.DrumKit`. Their fields are the program's globals and dictionaries. Their methods have the source's own loops (over the swatches, the history, the hands, the fingertips and the pads), and each method is proved to produce the state the functions describe.

The properties are lemmas about the functions, in the modules `DrawProperties` and `DrumProperties`.

The canvas is modelled as the append-only log of what was drawn on it: `Segment`, `Circle`, `Rect`, and `Clear` for a reset to white. A save returns a `Snapshot` of the file name and the canvas log at that moment.

Floating-point tests and conversions are replaced by exact integer forms. A lemma ties each form to the real-valued expression the code computes:

- the pinch `distance < 30` becomes a squared distance below 900 (`PinchIsDistance`);
- the swatch test `distance < 20` becomes a squared distance below 400 (`SqrtCompare` with threshold 20);
- the drum velocity `> 20` becomes a squared speed above 400 (`VelocityTest`);
- the circle radius `int(sqrt(...))` is an integer square root (`FloorSqrtIsFloor`);
- the stabiliser `int(c*(1-0.5) + sum*0.5/n)` is `(c*n + sum) / 2n` truncated toward zero (`StabilizeIsReal`);
- the slider `int(1 + (x-50)/200 * 9)` is `1 + (x-50)*9/200` (`SliderIsReal`).

## Model

| member | source | states |
|---|---|---|
| Geometry.SqrtCompare | Draw.py:66-67 | For a real distance d with d² = n, `d < k` iff `n < k²` and `d > k` iff `n > k²`, so the squared tests decide exactly what the float tests decide |
| Geometry.FloorSqrt | Draw.py:304 | The radius r satisfies r² ≤ n < (r+1)², i.e. it is `int(sqrt(n))` |
| Geometry.FloorSqrtIsFloor | OpenCV/Draw.py:304 | FloorSqrt(n) ≤ √n < FloorSqrt(n) + 1 for the real root |
| Geometry.TruncDivIsReal | Draw.py:94 | `TruncDiv(a, b)` is `int()` of the real quotient a / b: the real truncated toward zero |
| Geometry.TruncDiv | Draw.py:94 | Python's `int()` of a quotient by a positive divisor: it brackets the quotient from below for a ≥ 0 and from above for a < 0, i.e. it truncates toward zero |
| Draw.HitSwatch | Draw.py:221-224 | The swatch the colour loop settles on is among those looked at and is under the fingertip |
| DrawBoard.Board.constructor | Draw.py:16-61 | The start-up globals: black, thickness 2, menu shown, grid on, freehand, no anchor, empty history and canvas; they satisfy the invariant |
| DrawBoard.Board.Step | Draw.py:189-339 | One pass of the loop body updates the globals in place to exactly the state and save that `Draw.Next` gives, and keeps the invariant |
| DrawBoard.Board.RecordTip | Draw.py:204-206 | The history drops its oldest point when it already holds six, then appends the tip |
| DrawBoard.Board.MenuHits | Draw.py:219-261 | The swatch loop and the five control tests change the globals exactly as `Draw.MenuPhase` does and return its snapshot |
| DrawBoard.Board.Dispatch | Draw.py:265-339 | The drawing dispatch changes the globals exactly as `Draw.DrawPhase` does |
| DrawBoard.Board.DrawStrokes | Draw.py:273-284 | The history loop appends exactly `Strokes(history)` to the canvas and changes nothing else |
| DrawProperties.PushHistoryBounded | Draw.py:204-206 | After a push the history holds at most six points, ends with the new tip, and is the old history, minus its oldest point when that was full |
| DrawProperties.FeedTail | OpenCV/Draw.py:204-206 | After k frames of the same tip, the newest min(k, 6) entries are that tip and the history stays bounded |
| DrawProperties.StabilizeSteady | Draw.py:87-94 | A history whose every entry equals the tip stabilises to the tip, including the empty history |
| DrawProperties.StabilizeConverges | Draw.py:204-208 | Feeding the same tip for six frames or more makes the stabilised point equal to it: no residual lag |
| DrawProperties.StabilizeIsReal | Draw.py:91-94 | With a non-empty history, each stabilised coordinate is `int()` of the real blend `cur*(1-0.5) + sum*0.5/n` |
| DrawProperties.StabilizeWithin | Draw.py:91-94 | The stabilised point lies in every axis-aligned box that holds the tip and the whole history |
| DrawProperties.PinchIsDistance | Draw.py:200-201 | The squared pinch test holds iff the real fingertip distance is below 30 |
| DrawProperties.FistToggle | Draw.py:212-215 | The menu flag flips and the toggle time becomes `now` iff all fingers are down and more than one second has passed; otherwise both keep their values |
| DrawProperties.NoHandNoChange | Draw.py:190 | A frame without a hand changes nothing and saves nothing |
| DrawProperties.SwatchesDisjoint | Draw.py:38-46 | No point is on two swatches: the centres are 50 apart and the radius is 20 |
| DrawProperties.HitSwatchExact | Draw.py:221-224 | The colour loop selects the swatch under the raw fingertip if there is one, and selects nothing otherwise |
| DrawProperties.SwatchSelectsColor | OpenCV/Draw.py:221-224 | In the menu, a fingertip on swatch i sets the colour index to i and the colour to `colors[i]` |
| DrawProperties.ButtonsDisjoint | OpenCV/Draw.py:53-60 | The clear, grid, save and mode buttons and the slider's active band are pairwise disjoint, so one point hits at most one control |
| DrawProperties.MenuGated | OpenCV/Draw.py:219 | When the menu is hidden or the index finger is down, the menu phase changes nothing and no file is saved |
| DrawProperties.DrawPhaseKeepsControls | Draw.py:265-339 | The drawing dispatch only changes the anchor and appends to the canvas; colour, thickness, mode, menu, grid and history are unchanged |
| DrawProperties.ClearKeepsControls | OpenCV/Draw.py:228-231 | A clear-button hit appends one `Clear` to the canvas and keeps the anchor, mode, thickness and grid, and saves nothing |
| DrawProperties.GridToggles | OpenCV/Draw.py:234-236 | The grid flag flips iff the grid button is hit, and two hits restore it |
| DrawProperties.ModeButtonCycles | Draw.py:257-260 | A mode-button hit advances the mode modulo four and drops the anchor; otherwise mode and anchor are kept |
| DrawProperties.ModeCycleReturns | Draw.py:58-59 | Modes stay in 0..3 and four mode changes return to the starting mode |
| DrawProperties.SliderRange | Draw.py:240-244 | Inside the slider the thickness is `1 + (x-50)*9/200`, always in [1, 9]: the clamp never engages and 10 is unreachable |
| DrawProperties.SliderIsReal | Draw.py:242-243 | Inside the slider, the thickness is `int()` of the real `1 + (x-50)/200 * 9` |
| DrawProperties.SliderMonotone | Draw.py:242-243 | Moving right on the slider never lowers the thickness |
| DrawProperties.ThicknessOnlyFromSlider | Draw.py:239-244 | If a frame changes the thickness, its stabilised point was on the slider with the menu shown and the index finger up, and the new thickness is the slider's value |
| DrawProperties.SaveWritesCanvas | OpenCV/Draw.py:247-251 | A save-button hit writes the canvas as the menu phase leaves it to `saved_equations/calculus_<stamp>.png`; no hit, no file |
| DrawProperties.SaveNameRoundTrip | OpenCV/Draw.py:249-250 | The save name is the fixed prefix, the timestamp and `.png`, and the timestamp can be recovered from it |
| DrawProperties.StrokesAt | Draw.py:274-284 | The freehand strokes are one segment per consecutive pair of the history, oldest first, with the given colour and width |
| DrawProperties.StrokesArePath | Draw.py:280-284 | The strokes start at the oldest point, end at the newest, and each starts where the previous one ended |
| DrawProperties.StrokeThicknessRange | Draw.py:268-277 | The eraser draws 20 wide; otherwise the brush is its width, or half of it (at least 1) while pinching, so it stays in [1, 10] |
| DrawProperties.FreehandCommits | Draw.py:266-284 | In freehand mode with index and middle up, the history's strokes are appended at that width and nothing else changes |
| DrawProperties.ShapeAnchors | Draw.py:286-288 | In a shape mode without an anchor, the anchor is set to the stabilised point and the canvas is untouched |
| DrawProperties.ShapeCommits | Draw.py:289-296 | In a shape mode with an anchor, a pinch appends exactly one shape from the anchor to the stabilised point and clears the anchor |
| DrawProperties.ShapeWaits | OpenCV/Draw.py:315-326 | With an anchor and no pinch, the state is unchanged: only the preview, which is not modelled, moves |
| DrawProperties.OtherFingersAbort | Draw.py:328-339 | Any pattern other than index-and-middle drops the anchor and draws nothing |
| DrawProperties.CircleRadius | OpenCV/Draw.py:299-312 | A committed circle is centred on the anchor and has radius ⌊distance⌋ to the stabilised point |
| DrawProperties.ShapeKinds | Draw.py:286-326 | Mode 1 commits a line, mode 2 a circle and mode 3 a rectangle with the two points as opposite corners, in the current colour and brush width |
| DrawProperties.InitialValid | Draw.py:16-61 | The start-up globals satisfy the invariant |
| DrawProperties.TrackedValid | Draw.py:204-216 | The history update and the fist toggle keep the invariant |
| DrawProperties.MenuValid | Draw.py:219-261 | The menu phase keeps the invariant, including "no anchor in freehand" across a mode change |
| DrawProperties.DrawPhaseValid | Draw.py:265-339 | The drawing dispatch keeps the invariant |
| DrawProperties.NextValid | Draw.py:189-339 | A whole frame keeps the invariant: history at most six, mode in 0..3, thickness in [1, 10], the colour is the palette entry, no anchor in freehand |
| DrawProperties.RunValid | Draw.py:101-339 | The invariant holds after any sequence of frames from start-up |
| Drums.PerPad | Drums.py:46-52 | The comprehension gives every pad's name an entry with the given value |
| Drums.Strike | Drums.py:140-153 | The pad test keeps the dictionaries' key sets and the stored fingertips |
| Drums.StrikePads | Drums.py:138-153 | The pad loop keeps the dictionaries' key sets and the stored fingertips |
| Drums.Previous | Drums.py:129 | The previous positions are four optional points: the hand's stored fingertips when it has an entry, and four `None`s for a hand not seen before |
| DrumRack.DrumKit.constructor | Drums.py:46-52 | Every pad starts with last-hit time 0 and an inactive 0.15 s highlight; no hand is stored |
| DrumRack.DrumKit.ProcessFrame | Drums.py:120-156 | The hand loop updates the dictionaries in place to exactly `ProcessHands` of the old ones and keeps the invariant |
| DrumRack.DrumKit.ProcessHandTips | Drums.py:121-156 | One hand's fingertip loop and position store give exactly `ProcessHand` |
| DrumRack.DrumKit.StrikeWithTip | Drums.py:138-153 | The pad loop for one fingertip gives exactly `StrikePads` over all pads |
| DrumProperties.InitialValid | Drums.py:46-52 | At start-up every pad has a last-hit time and a highlight lasting 0.15 s |
| DrumProperties.StrikeValid | Drums.py:144-153 | A strike keeps the invariant |
| DrumProperties.StrikePadsValid | Drums.py:138-153 | The pad loop keeps the invariant |
| DrumProperties.VelocityTest | Drums.py:55-61 | For the velocity `calculate_velocity` returns (0 with no previous position), `velocity > 20` iff the squared speed exceeds 400 |
| DrumProperties.SlowStrikesNothing | Drums.py:144 | A fingertip that moved at most 20 pixels fires no pad and changes nothing |
| DrumProperties.FirstFrameSilent | Drums.py:129-156 | A hand seen for the first time fires nothing; its fingertips are only stored |
| DrumProperties.PadBorderExcluded | Drums.py:140 | A fingertip on a pad's border is not on the pad |
| DrumProperties.PadNamesDistinct | Drums.py:35-43 | The seven pad names are distinct |
| DrumProperties.StrikePadsIndependent | Drums.py:138-153 | Every pad is tested against the state before the loop, with no early exit. Each firing pad gets the time and a fresh highlight. Every other entry is unchanged. The firing pads' sounds are played in pad order |
| DrumProperties.PadFiresIff | Drums.py:140-153 | Pad i's time and highlight are updated iff the tip is strictly inside it, the squared speed exceeds 400 and more than 0.2 s passed since its last hit; otherwise both are unchanged |
| DrumProperties.StrikeDebounced | Drums.py:144-149 | A pad that fired at `now` cannot fire again at any time up to 0.2 s later, whatever touches it |
| DrumProperties.HighlightAfterStrike | Drums.py:99 | After a strike the pad is shown active exactly while less than 0.15 s have passed |
| DrumProperties.StrikeTipsKeepPositions | Drums.py:131-153 | The fingertip loop does not touch the stored positions |
| DrumProperties.HandRemembered | Drums.py:156 | After a hand is processed its entry is exactly its four current fingertips, and other hands' entries are kept |
| DrumProperties.HandsRemembered | Drums.py:120-156 | After a frame each hand of the frame is stored under its index, and hands beyond the frame keep their entries |
| DrumProperties.VolumeInRange | Drums.py:68-70 | The volume factor is in [0.3, 1.0], so the played volume is between 0.3 of the base volume and all of it; it is full from velocity 300 and the floor up to 90 |

## Behaviour worth noting

- Freehand strokes the raw fingertip history. Every frame appends a segment for each consecutive pair of the last six raw tips (Draw.py:274-284), so the same pairs are drawn again on later frames.
- The swatches are hit-tested against the raw fingertip. The buttons and the slider use the stabilised point (Draw.py:222 against 228-258).
- The menu runs whenever it is shown and the index finger is up, whatever the middle finger does (Draw.py:219).
- Clear resets the canvas and keeps the shape anchor (Draw.py:228-231).
- The slider truncates toward zero. Its reachable range is 1 to 9, and the clamp to [1, 10] never engages (`DrawProperties.SliderRange`).
- Repeated actions are spaced by `time.sleep`, which keeps no state. The only time-based gates in the state are the menu toggle's one-second check and the drum pads' 0.2-second cooldown.

## Left out

- Camera capture, hand-landmark detection and `fingersUp` are inputs. A frame is given as the first hand's index and middle fingertips and its five finger flags (drawing board), or as the four fingertips of each hand (drums).
- Rendering is not modelled: the grid, the menu, the previews, the cursor, the pad drawing, the text and the window (Draw.py:69-84, 100-188, 341-370; Drums.py:95-117, 158-end). Previews and the cursor are transient and never reach the canvas.
- The canvas is an operation log, not pixels. Rasterisation, anti-aliasing and clipping are not modelled.
- `time.sleep` pauses are left out. They block the loop but change no state.
- Times are inputs. `now` is the frame's clock value, and `stamp` is the `strftime` timestamp. Drums.py reads `time.time()` at line 98 for the highlight test and again at line 141 for each pad a fingertip is on. The model uses one `now` for the whole frame: every hand, every fingertip and every pad test. Clock drift within a frame is not modelled.
- File output (`os.makedirs`, `cv2.imwrite`) is left out. A save returns the file name and the canvas log it would write, and write failures are not modelled.
- Audio (`pygame.mixer`, channels) is left out. A hit is logged with the pad, its sample, its base volume and its squared speed.
- Drums.FinalVolume: the volume is stated for a real velocity, and the hit log does not carry it, because the log stores the squared speed and relating the two needs a square root.
- The drum hand key `"hand_<i>"` is modelled by the index `i`.
- Floating-point rounding is not modelled. The exact forms above give the answer exact real arithmetic gives. The three conversions from real to int are the stabiliser, the slider and the circle radius, and each is proved to be `int()` of its real expression (`StabilizeIsReal`, `SliderIsReal`, `CircleRadius`).
- Only the first detected hand drives the drawing board, as in the code. The drum loop processes all detected hands.
- Wallpaper.py, MouseTracker.py (both copies) and the media organisation script are not part of this model.
