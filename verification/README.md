# Hand visualizer: verified model

This project models the core of a live hand-skeleton visualizer. A camera frame goes to an
external landmark detector, which reports zero or more hands of 21 landmarks each. The
visualizer draws a coloured skeleton over each hand. A keyboard loop switches the colour
scheme and the line thickness.

The model has four modules:

- `Palette` (`palette.dfy`) holds the constant tables. These are the three colour schemes
  (`vibrant`, `pastel`, `mono`, five colours each) and the 24-edge connection table. The
  table is written as its three parts: 15 finger segments, 5 wrist edges and 4 palm arcs.
  The module also holds the landmark-index classification behind `_get_finger_color`.
- `RenderConfig` (`config.dfy`) is the render configuration. It is the active scheme name
  plus the line thickness, and `set_color_scheme` and `set_line_thickness` are its two setters.
- `Render` (`render.dfy`) is the drawing pass of `process_frame`. Drawing is modelled as
  the list of `Line` and `Circle` commands the pass issues, in order. The model has a
  functional definition (`HandLines`, `HandCircles`, `FrameCommands`, `ProcessFrame`). It
  also has the nested loops as written (`DrawConnections`, `DrawLandmarks`, `DrawHands`),
  and these are proved equal to the functional definition.
- `CaptureLoop` (`capture_loop.dfy`) is the loop of `main`. Each iteration is an event. An
  event is either a failed read or a captured frame, together with the hands detected in it
  and the raw key code polled after it was shown. `Step` and `Run` give the state machine.
  `Iteration` and `Session` are the loop as written, and they are proved to agree with `Run`.

Three details of the code shape the model:

- Pixel coordinates come from `int(x * w)`, which truncates toward zero.
- One marker is drawn for each landmark the hand has, whatever its length.
- The quit key is the lower-case `q` (code 113), although the start-up help text prints `Q`.

## Model

| member | source | states |
|---|---|---|
| Palette.SchemesWellFormed | main.py:19-41 | exactly the names vibrant, pastel and mono are schemes; each has five colours, every channel in 0..255, none of them the white palm colour |
| Palette.Classify | main.py:75-86 | an index is palm exactly when it is outside 1..20; otherwise its finger's slot is (idx - 1) / 4 |
| Palette.FingerColor | main.py:71-86 | indices 1-4, 5-8, 9-12, 13-16 and 17-20 get colours 0 to 4 of the active scheme; every other integer (0, negative, 21 or more) gets white (255,255,255) |
| Palette.FingerColorIsBlockLookup | main.py:71-86 | for 1..20 the colour is entry (idx - 1) / 4 of the scheme; the result is white exactly for the palm indices, under every scheme |
| Palette.SameFingerSameColor | main.py:75-86 | landmarks of the same finger share a colour; a palm index gets the same colour under every scheme |
| Palette.FingerSegmentsShape | main.py:45-50 | 15 finger segments, each joining two landmarks of the same finger (never the palm) |
| Palette.PalmEdgesShape | main.py:52-56 | the wrist edges leave landmark 0 for a finger landmark; the palm arcs join two finger landmarks in increasing order |
| Palette.ConnectionCount | main.py:44-57 | the connection table has exactly 24 edges |
| Palette.ConnectionsShape | main.py:44-57 | every edge goes from a lower to a higher landmark index, both within 0..20 |
| Palette.WristEdgePositions | main.py:44-57 | an edge starts at landmark 0 exactly when it is at table position 15..19, so exactly 5 edges start at the wrist |
| Palette.PalmColoredEdges | main.py:71-86 | under any scheme, a table edge gets the palm colour exactly when it is one of the five wrist edges |
| RenderConfig.Initial | main.py:59-60 | the configuration starts as scheme vibrant with thickness 2, which is valid |
| RenderConfig.Clamp | main.py:69 | the result is in [1,5], equals the input when the input is already in [1,5], is 1 below the range and 5 above it |
| RenderConfig.ClampProperties | main.py:69 | clamping is idempotent and monotone, and it leaves a value unchanged exactly when the value is in [1,5] |
| RenderConfig.SetLineThickness | main.py:67-69 | the thickness ends in [1,5] (identity on [1,5], 1 below, 5 above), the scheme is untouched, and validity is preserved |
| RenderConfig.SetLineThicknessIdempotent | main.py:67-69 | setting the same thickness twice, or re-setting the thickness just stored, changes nothing more |
| RenderConfig.SetColorScheme | main.py:62-65 | a known name becomes the scheme; an unknown name leaves the configuration unchanged; thickness is never modified; validity is preserved |
| RenderConfig.SetColorSchemeAccepts | main.py:62-65 | the scheme afterwards equals the name exactly when the name is vibrant, pastel or mono, or was already the active scheme |
| Render.Trunc | main.py:108-111 | the integer conversion truncates toward zero: for v >= 0 it is the largest integer not above v, and for v < 0 the smallest not below it |
| Render.PixelOf | main.py:108-111 | each coordinate is the scaled landmark coordinate truncated toward zero: rounded down when non-negative, rounded up when negative |
| Render.PixelInFrame | main.py:121-122 | in a non-empty w x h frame, a landmark in [0,1) x [0,1) lands on a pixel with column in 0..w-1 and row in 0..h-1 |
| Render.EdgeLandmarkOutsideFrame | main.py:121-122 | a landmark at (1.0, 1.0) lands on pixel (w, h), one column and one row past the frame |
| Render.LinesFrom | main.py:105-117 | the connection loop from position j emits at most one command per remaining edge, every one a line at the configured thickness |
| Render.HandLines | main.py:105-117 | a hand's connection loop emits at most 24 commands, all lines at the configured thickness (exact content in `HandLinesSpec`) |
| Render.HandCircles | main.py:119-127 | a hand's landmark loop emits one command per landmark, the i-th a filled radius-7 circle at landmark i coloured by index i |
| Render.FrameCommands | main.py:103-127 | no hands give no commands; otherwise every landmark contributes one command, plus at most 24 lines per hand |
| Render.ProcessFrame | main.py:97-129 | with no hands the frame is returned unchanged; otherwise the size is kept and exactly the commands of all hands, in order, are appended after the earlier drawing |
| Render.KeptFromSpec | main.py:105-106 | the positions of the connections that pass the bound check are listed in strictly increasing order, and a position is listed exactly when both endpoints are below the landmark count |
| Render.LinesFromMatchKept | main.py:105-117 | the k-th line emitted is the line of the k-th kept connection, from its start landmark to its end landmark |
| Render.HandLinesSpec | main.py:105-117 | a hand's lines are exactly the connections with both endpoints inside the hand, in table order, each coloured by its start index at the configured thickness |
| Render.KeptAll | main.py:105-106 | when every edge passes the bound check, every table position is kept, in order |
| Render.FullHandDrawsEveryConnection | main.py:105-117 | a hand with 21 or more landmarks draws all 24 connections, the k-th line being table edge k |
| Render.HandCommandsLayout | main.py:103-127 | for one hand, all lines come first, followed by exactly one filled radius-7 marker per landmark, the i-th at landmark i and coloured by index i |
| Render.FrameCommandsAppend | main.py:103 | drawing a list of hands is drawing its first part, then its second |
| Render.FrameCommandsInOrder | main.py:97-127 | no hands draw nothing; otherwise the first hand's commands come first, followed by those of the remaining hands in order |
| Render.OneMarkerPerLandmark | main.py:119-127 | the number of markers drawn equals the total number of landmarks over all hands |
| Render.SingleFullHandScenario | main.py:103-127 | one complete hand on a 100 x 100 frame under the start-up configuration draws the 24 table connections in order as lines of thickness 2 coloured by their start landmark, followed by 21 filled radius-7 markers coloured by their own landmark |
| Render.DrawConnections | main.py:105-117 | the connection loop as written emits exactly the functional line list |
| Render.DrawLandmarks | main.py:120-127 | the landmark loop as written emits exactly the functional marker list |
| Render.DrawHands | main.py:97-129 | the whole drawing pass as written, early return included, equals the functional `ProcessFrame` |
| CaptureLoop.LowByte | main.py:165 | masking with 0xFF gives a code in 0..255, congruent to the raw code modulo 256, and the identity on 0..255 |
| CaptureLoop.Decode | main.py:167-183 | a code is ignored exactly when it is not one of q, 1, 2, 3, + or -; otherwise the command decoded is the one assigned to that key |
| CaptureLoop.DecodeKeyOf | main.py:167-183 | decoding inverts the key assignment; a key is recognised exactly when it is one of q, 1, 2, 3, + or -, and every other key is a no-op |
| CaptureLoop.NoKeyIgnored | main.py:165-183 | the no-key code -1 masks to 255, which is a no-op |
| CaptureLoop.Dispatch | main.py:169-183 | 1, 2 and 3 select their scheme; + and - move the thickness by one, saturating at 5 and 1; quit and unknown keys leave the configuration unchanged; validity is preserved |
| CaptureLoop.Step | main.py:150-183 | a failed read stops without showing a frame; a captured frame is drawn with the current configuration and shown; the loop stops exactly on q, and any other key moves to the configuration the decoded command dispatches to; a stopped loop does nothing |
| CaptureLoop.Run | main.py:150-183 | if the loop is still running after a sequence of events, it was running at the start, every read succeeded, and exactly one frame was shown per event |
| CaptureLoop.RunKeepsConfigValid | main.py:150-183 | over any event sequence, the scheme stays a known one, the thickness stays in [1,5], and at most one frame is shown per event |
| CaptureLoop.StoppedIsFinal | main.py:150-153 | once stopped, no later event changes the state or shows a frame |
| CaptureLoop.ReadFailureStops | main.py:151-153 | a failed first read stops the loop with the configuration unchanged and nothing shown |
| CaptureLoop.QuitShowsThenStops | main.py:159-168 | after q, the frame just drawn is still shown, then the loop stops |
| CaptureLoop.RepeatedThicker | main.py:178-180 | n presses of + give thickness min(t + n, 5) |
| CaptureLoop.RepeatedThinner | main.py:181-183 | n presses of - give thickness max(t - n, 1) |
| CaptureLoop.Iteration | main.py:151-183 | the loop body as written (draw, show, mask the key, dispatch) equals one `Step` |
| CaptureLoop.Session | main.py:134-183 | the main loop as written, from the start-up configuration, reaches the same state and shows the same frames as `Run`, and ends with a valid configuration |

## Left out

- The landmark detector is left out: its construction, model path, hand limit, confidence
  threshold and `detect`. Its output is an input of the model (the hands of each event).
- OpenCV pixel work is left out: colour conversion, the rasterisation of `line` and
  `circle`, the horizontal mirror `flip`, `imshow` and the window. A frame is its size plus
  the list of commands drawn on it. A captured event carries the frame after mirroring.
- Camera setup, the requested 1280 x 720 resolution, `release` and `destroyAllWindows` are
  device I/O. `waitKey` is I/O too; its result is the raw key code of each event.
- Console output (`print`) is left out.
- Landmark coordinates are reals. `Render.Trunc` truncates the exact product, so the
  rounding of floating-point multiplication is not modelled.
- Render.PixelInFrame: the bound is stated only for landmarks in [0,1) x [0,1). A landmark
  at exactly 1.0 lands one pixel past the frame (`Render.EdgeLandmarkOutsideFrame`). A
  detector may also report coordinates slightly outside the unit square, and those pixels
  can fall outside the frame.
- CaptureLoop.Session: the loop runs over a finite sequence of events. The real loop is
  unbounded and ends only on q or a failed read.
