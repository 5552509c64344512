# Air-Canvas interpretation layer, in Dafny

A model of the part of Air-Canvas that sits between the hand-landmark stream
and the canvas: the gesture classifier, the drawing canvas with its stroke
state machine, the colour-swatch UI, fingertip extraction with smoothing, the
colour palette, and the per-frame dispatcher of the main loop that merges the
gesture, the index fingertip and the voice-command slot into calls on the
canvas and the UI.

Modules: one per source file, plus `Landmarks` and `Wrappers` for the types they share:

- `Palette` (`colours.dfy`): the `Colours` enum, its BGR values and names, `Colours[name]` as `Lookup`.
- `Landmarks` (`landmarks.dfy`): points, `(id, x, y)` landmarks and the id table built from a landmark list.
- `Gesture` (`gesture.dfy`): the classifier as a function `Classify`, the flag loop as a method, and the `GestureRecogniser` class.
- `Drawing` (`drawing.dfy`): `Tools`, the `DrawingCanvas` class, and its abstract state `CanvasState` with one transition function per canvas operation.
- `Ui` (`ui.dfy`): the swatch layout, first-match hit testing, and the `UIManager` class.
- `HandTracking` (`hand_tracker.dfy`): the `HandTracker` class with `prevPositions` smoothing and the finger-up flags.
- `Dispatch` (`dispatch.dfy`): the voice vocabulary, the frame as two pure halves (`AfterGesture`, `AfterVoice`), and `Step`, which runs a frame on the live objects.
- `Wrappers` (`wrappers.dfy`): `Option`.

Modelling choices:

- Pixel tests are exact integer forms of the source's float tests. `sqrt(dx²+dy²) < 75` becomes `dx²+dy² < 5625`. The thumb test `x4 < sum/5` becomes `5·x4 < sum`. The 30° test `|atan2(dx, −dy)| < 30°` becomes `(dx,dy) = (0,0)`, or `dy < 0` and `3·dx² < dy²`.
- `int(0.5·a + 0.5·b)` is the midpoint truncated toward zero, written out for negative sums (`SmoothCoordinate`).
- The pixel buffer is kept abstract. It is the log of the line segments painted since the canvas was created or last cleared, each with its end points, BGR colour and thickness. The empty log is the all-zero buffer. `width` and `height` are constants of the canvas, so the dimensions never change.
- Every canvas method is specified by a pure transition on `CanvasState` (`Drawn`, `Started`, `Stopped`, `WithColour`, `WithTool`, `Cleared`). The properties are proved about those transitions.
- `Step` is specified by `Frame`, which is `AfterVoice` applied after `AfterGesture`. `ProcessFrame` adds the classifier call and the fingertip lookup that precede it in the loop.
- A landmark list is a parameter. It stands for what the pose estimator returned for the frame.
- The classifier requires only the landmark ids it actually reads (`ClassifierIds`). A missing id is a `KeyError` in the source. The finger-up flags likewise require their ids (`UpStatusIds`).
- `DrawingCanvas.SetColour` requires a palette name, because `Colours[name]` raises for any other name. Every caller passes one (proved in `Step`).
- The voice slot is a plain in/out parameter. An empty transcript is falsy in the source, so `AfterVoice` ignores it and leaves it in the slot. On "exit" the loop breaks before the slot is reset, so the slot is left as it was.

## Model

| member | source | states |
|---|---|---|
| `Palette.Value` | src/colours.py:5-9 | each member's BGR triple has every channel in 0..255 and is never the background (0,0,0) |
| `Palette.Lookup` | src/drawing.py:54 | `Colours[name]` finds the member with that name, and fails exactly when no member has it |
| `Palette.MembersEnumerateAll` | src/colours.py:4-9 | iteration visits exactly five members, RED, BLUE, GREEN, YELLOW, WHITE, each once |
| `Palette.ValuesDistinct` | src/colours.py:5-9 | distinct members have distinct values, so the enum has no aliases |
| `Palette.LookupName` | src/colours.py:4-9 | looking up a member's name gives that member back |
| `Landmarks.LandmarkMapKeys` | src/gesture.py:28 | the id table has exactly the ids that occur in the landmark list |
| `Landmarks.LandmarkMapLastWins` | src/gesture.py:28 | an entry that no later entry with the same id shadows is what the table holds for that id |
| `Landmarks.HandMap` | src/hand_tracker.py:53-59 | for a detected hand (21 entries, enumerated ids) the table has ids 0..20, each mapped to its own entry |
| `Gesture.FingersExtended` | src/gesture.py:103-120 | the flag list has five entries, thumb first |
| `Gesture.CheckFingersExtended` | src/gesture.py:103-120 | the append loop builds the thumb flag followed by index, middle, ring and pinky flags, each true iff tip.y < pip.y < mcp.y |
| `Gesture.VerticalPointsUp` | src/gesture.py:82-87 | a non-degenerate "vertical" index segment points upward and leans less than 45° |
| `Gesture.Classify` | src/gesture.py:28-70 | never CLEAR; DRAW iff pinch; ERASE iff no pinch and all five flags; SELECT iff no pinch, index extended, the other three not, index vertical and its tip strictly above tips 12, 16 and 20 |
| `Gesture.GestureRecogniser.constructor` | src/gesture.py:13-19 | a new recogniser has gesture NONE and a reset hold timer |
| `Gesture.GestureRecogniser.RecogniseGesture` | src/gesture.py:21-70 | an empty list gives NONE and resets `is_clear_gesture` and `clear_gesture_start`; otherwise the result is `Classify` of the id table and no field changes |
| `Drawing.DrawWhileIdle` | src/drawing.py:27-29 | `draw` without a stroke in progress or without an anchor changes nothing |
| `Drawing.DrawWhileDrawing` | src/drawing.py:31-41 | within a stroke, the pen paints anchor→p in the current colour at thickness 15 and the eraser in black at thickness 125, and the anchor moves to p |
| `Drawing.SettingsKeepBuffer` | src/drawing.py:52-58 | choosing a colour or a tool never touches the buffer or the stroke state |
| `Drawing.OperationsKeepStrokeConsistent` | src/drawing.py:43-50 | every operation preserves "drawing iff there is an anchor" |
| `Drawing.StopIdempotent` | src/drawing.py:48-50 | stopping is idempotent, ends the stroke, and keeps buffer, tool and colour |
| `Drawing.ClearKeepsStroke` | src/drawing.py:63-64 | clearing empties the buffer and keeps stroke state, tool and colour |
| `Drawing.Polyline` | src/drawing.py:35-36 | the k-th segment of a polyline runs from the previous point to the k-th point |
| `Drawing.StrokeIsPolyline` | src/drawing.py:31-45 | a stroke started at p0 and drawn through any points paints exactly the connected polyline, and its anchor ends on the last point |
| `Drawing.TwoSegments` | src/drawing.py:35-45 | `start(p1); draw(p2); draw(p3)` paints exactly p1→p2 then p2→p3 |
| `Drawing.DrawingCanvas.constructor` | src/drawing.py:13-25 | a new canvas is all zero at the given size, red pen, no stroke |
| `Drawing.DrawingCanvas.Draw` | src/drawing.py:27-41 | the new state is `Drawn` of the old one |
| `Drawing.DrawingCanvas.StartDrawing` | src/drawing.py:43-46 | the new state is `Started` of the old one |
| `Drawing.DrawingCanvas.StopDrawing` | src/drawing.py:48-50 | the new state is `Stopped` of the old one |
| `Drawing.DrawingCanvas.SetColour` | src/drawing.py:52-55 | name and colour change together and nothing else does |
| `Drawing.DrawingCanvas.SetTool` | src/drawing.py:57-58 | only the tool changes |
| `Drawing.DrawingCanvas.GetDisplay` | src/drawing.py:60-61 | returns the buffer's contents |
| `Drawing.DrawingCanvas.Clear` | src/drawing.py:63-64 | the new state is `Cleared` of the old one |
| `Ui.Layout` | src/ui.py:15-26 | the registry has one swatch per palette colour, in palette order, the i-th at (width−140, 20+140·i, 120, 120) |
| `Ui.LayoutNamesArePaletteNames` | src/ui.py:19-20 | every registry name is the name of the palette colour at the same position |
| `Ui.SwatchesDisjoint` | src/ui.py:20-26 | no point lies in two swatches, edges included |
| `Ui.FirstHit` | src/ui.py:65-68 | the first swatch in registry order that contains the point, inclusively, or none when none does |
| `Ui.HitSelectsOwnSwatch` | src/ui.py:15-26 | any point of a colour's swatch hits that colour |
| `Ui.UIManager.constructor` | src/ui.py:6-26 | the loop builds `Layout(width)`, and RED is selected |
| `Ui.UIManager.HandleSelection` | src/ui.py:64-69 | on a hit, returns (true, name) and selects that name; on a miss, returns (false, None) and keeps the selection; the boxes never change |
| `Ui.UIManager.SetColour` | src/ui.py:71-72 | assigns the selection unconditionally |
| `HandTracking.SmoothCoordinate` | src/hand_tracker.py:78-83 | the midpoint of new and previous, rounded toward zero, and never outside the two |
| `HandTracking.FirstMatch` | src/hand_tracker.py:68-75 | the position of the first entry with the id, or none exactly when no entry has it |
| `HandTracking.FingersUp` | src/hand_tracker.py:102-117 | five flags |
| `HandTracking.ExtendedFingerIsUp` | src/hand_tracker.py:111-115 | a finger the classifier counts extended is reported up |
| `HandTracking.HandTracker.constructor` | src/hand_tracker.py:16-17 | no remembered positions |
| `HandTracking.HandTracker.GetFingerPosition` | src/hand_tracker.py:63-86 | None for no hand or no such id, memory unchanged; otherwise the first match, unsmoothed the first time an id is seen and averaged with its remembered position later, and only that id's memory becomes the result |
| `HandTracking.HandTracker.GetFingerUpStatus` | src/hand_tracker.py:88-117 | five falses for no hand; otherwise thumb up iff x4 > x3, another finger up iff tip.y < pip.y |
| `Dispatch.OccursAtOffset` | src/main.py:154 | `word in text` holds iff the word sits in the text at some offset |
| `Dispatch.VoiceCommand` | src/main.py:154-178 | "clear" wins whenever it occurs, "exit" next, then a colour word; no action exactly when no vocabulary word occurs |
| `Dispatch.ColourWordPriority` | src/main.py:159-178 | a colour is chosen iff neither "clear" nor "exit" occurs, its word occurs, and no word of blue, red, green, yellow tried before it occurs |
| `Dispatch.LayoutPaletteNamed` | src/main.py:113-115 | every name a hit can report is accepted by the canvas's `set_colour` |
| `Dispatch.NoFingertipStops` | src/main.py:149-151 | without a fingertip the stroke stops and tool, colour, buffer and selection stay |
| `Dispatch.SelectNeverDraws` | src/main.py:108-118 | SELECT picks the pen and always stops the stroke without painting; a hit sets canvas and UI to the swatch's colour, a miss changes neither |
| `Dispatch.DrawOrEraseStrokes` | src/main.py:120-145 | DRAW picks the pen, ERASE the eraser; then a stroke starts at the fingertip when idle, or one segment is painted from the anchor to it when drawing |
| `Dispatch.OtherGestureStops` | src/main.py:146-148 | any other gesture stops the stroke and changes nothing else |
| `Dispatch.SilenceChangesNothing` | src/main.py:153 | with no transcript, or an empty one, nothing changes and the slot is kept |
| `Dispatch.ClearWordKeepsStroke` | src/main.py:154-156 | "clear" empties the buffer mid-stroke without touching the stroke, tool, colour or selection, records the command and consumes the slot |
| `Dispatch.ExitWordEnds` | src/main.py:157-158 | "exit" ends the session and leaves everything, the slot included, as it was |
| `Dispatch.ColourWordAgrees` | src/main.py:159-180 | a colour word sets canvas and UI to the same colour, records the command and consumes the slot, leaving buffer and stroke alone |
| `Dispatch.UnmatchedTextConsumed` | src/main.py:153-180 | a transcript without a vocabulary word is consumed and changes nothing else |
| `Dispatch.FrameKeepsInvariants` | src/main.py:104-180 | a frame keeps "drawing iff anchored" and keeps the selection a palette name |
| `Dispatch.ApplyGesture` | src/main.py:107-151 | the canvas and selection afterwards are `AfterGesture` of those before |
| `Dispatch.ApplyVoice` | src/main.py:153-180 | the canvas, selection, slot, last command and exit flag afterwards are `AfterVoice` of those before |
| `Dispatch.Step` | src/main.py:104-180 | one frame on the live canvas and UI is `Frame`: the gesture half, then the voice half |
| `Dispatch.ProcessFrame` | src/main.py:100-104 | the gesture is NONE for no hand and `Classify` otherwise, the fingertip is the smoothed index tip, the frame then runs as `Step`, the tracker remembers the index tip only on a frame that found one, and the recogniser's timer is reset only on a no-hand frame |
| `Dispatch.NewSession` | src/main.py:77-82 | a fresh canvas and UI of the camera's size, the canvas set to the UI's initial colour (RED) |
| `Dispatch.SelectBlueThenDraw` | src/main.py:107-127 | pointing at the blue swatch's centre selects BLUE with the pen and leaves the canvas idle; pinching at (100,100) then (120,100) paints one blue pen segment between them and leaves the stroke anchored at (120,100) |

## Left out

- Camera capture, flipping, display, the `q` key, and every overlay: `UIManager.draw`, `draw_box`, `draw_text`, `draw_selected_colour`, the gesture and tool captions, and the eraser preview circle. These are I/O.
- The listening thread `audio_recognition`, the speech library, and the `working_recognizer` flag. The voice slot is a parameter of `Step`, so the race between the thread's writes and the loop's read-and-clear is not modelled.
- The loop over frames itself. Only one frame is modelled, by `ProcessFrame` and `Step`.
- Compositing the canvas over the video frame. It uses grayscale conversion, thresholding, resizing and bitwise operations on pixels.
- The pixels `cv2.line` rasterises. The buffer is the log of segments painted, so "all pixels zero" is stated as "nothing painted since the last clear".
- MediaPipe: `find_hands`, and the conversion of normalised landmarks to pixels in `get_hand_position`. These are foreign calls on floats.
- The recogniser's `pinch_threshold` field is never reassigned, so it is the module constant `PinchThreshold` (75) rather than a field.
- The commented-out CLEAR hold gesture, and the `clear_hold_time` field it alone would read. They are not live code.
- Debug prints, `time.sleep`, and the `config` constants. The `config` module is not part of this model.
- Gesture.Classify: the integer forms are exact over the reals; float rounding in `atan2`, `degrees` and `sum / 5` is not modelled.
- HandTracking.SmoothCoordinate: assumes `0.5·a + 0.5·b` is computed exactly, which holds for pixel-sized integers.
