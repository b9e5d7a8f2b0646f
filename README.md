# Status screens of the urchin split keyboard

The urchin firmware drives a 160×68 memory LCD (the nice!view) on each half
of a split keyboard, turned a quarter so that the screens lay out on a
68-wide, 160-high box. This model covers three parts of it:

- **The status screen of the central half.** A six-field snapshot of the
  keyboard's status:
  - the active layer;
  - the radio profile and the radio phase;
  - the connection type;
  - the battery level;
  - whether it is charging.

  A controller handles keyboard events. It stores a new value only when the
  value differs from the stored one. It redraws the whole screen exactly
  when it stored something, or when the event carries no value at all.
  The screen shows a USB icon, or a Bluetooth icon with the 1-based profile
  digit, in its top-left corner. The battery number is to the right of the
  icon, and the layer name is below it.
- **The log screen.** It keeps a 25-slot history of 16-character lines,
  most recent first. Each recorded event pushes its line in front, and the
  whole history is redrawn top to bottom.
- **The rotating draw targets.** Both screens draw through them. A logical
  pixel `(x, y)` is written to the driver at `(W − y, x)`, where `W` is the
  driver's width. The bounding box reported upward has width and height
  swapped.

Modules:

- `Events`: the controller events.
- `Graphics`: points, sizes, rectangles, pixels, fonts, images and draw
  commands.
- `Rotation`: the quarter-turn transform and its lemmas.
- `Display`: the driver at pixel level (`MemoryDisplay`) and a command-level
  framebuffer (`Canvas`) that records every flushed frame.
- `DecimalText`: the integer formatter.
- `Glyphs`: the four icon bitmaps.
- `Central`: the status screen.
- `NiceView`: the log screen's rotating wrapper.
- `LogController`: the log screen.

Each controller is a class whose `ProcessEvent` is proved against a pure
specification:
- `Central.Transition` and `Central.Run` for the status screen;
- `LogController.Message`, `HistoryAfter` and `LogFrame` for the log screen.

The properties themselves are proved about those functions. The main ones:
- suppression holds exactly when every carried value equals the stored one;
- after any run, each field holds the last value written to it;
- on the status screen, repeating an event that carries values changes
  nothing;
- the log holds the latest 25 lines in order;
- every line fits the panel.

Some behaviours of the code, as the model has them:
- The default connection type is 0, which the code draws as USB. A fresh
  status screen therefore shows the USB icon (`Central.RenderDefault`).
- The log keeps 25 lines (`LOG_LINES`).
- An event the status controller does not know (split, sleep, clear-peer
  and so on) redraws the unchanged snapshot, every time it comes.
- The log screen logs a repeated event again each time.
- The charging flag is stored and gated but never drawn.

The rotation `W − y` maps the logical row `y = 0` one column past the
driver's last one. This is proved (`Rotation.LogicalBoxMissesOneRow`). It is
not reported as a defect, for two reasons:
- Every icon is proved to stay clear of row 0 (`Central.RenderFitsPanel`).
- No anchor in either layout is at row 0.

How far text reaches above its anchor depends on font rasterisation, which
is not modelled.

## Model

| member | source | states |
|---|---|---|
| Rotation.RotatePoint | src/central.rs:191 | a logical point lands at `(W − y, x)`; `UnrotatePoint` recovers it |
| Rotation.RotateIsBijective | src/central.rs:191 | every driver point is hit by exactly one logical point |
| Rotation.RotatePixels | src/central.rs:188-192 | the stream handed down has the same length and order, each pixel moved by the rotation with its colour kept |
| Rotation.RotatePixelsAppend | src/central.rs:188-192 | rotating a concatenated stream is concatenating the rotated parts, so splitting a draw does not change what lands |
| Rotation.RotateBox | src/central.rs:200-206 | the logical box keeps the corner and the area, and its width is the driver's height |
| Rotation.RotateBoxInvolution | src/central.rs:200-206 | swapping the box twice gives the driver's box back; the area is kept |
| Rotation.InsideParentIff | src/central.rs:186-191 | for a driver box at the origin, a logical point lands inside it exactly when `1 <= y <= W` and `0 <= x < H` |
| Rotation.LogicalBoxMissesOneRow | src/central.rs:186-206 | inside the reported logical box, a point reaches the driver exactly when `y != 0`; row 0 lands at column `W` |
| Rotation.OriginLandsPastLastColumn | src/central.rs:186-191 | the logical origin goes to `(W, 0)`, outside the driver |
| Central.RotatedDrawTarget.constructor | src/central.rs:170-172 | the wrapper holds the given driver |
| Central.RotatedDrawTarget.BoundingBox | src/central.rs:200-206 | the logical box keeps the driver's corner and, swapped back, is the driver's box |
| Central.RotatedDrawTarget.DrawIter | src/central.rs:182-193 | the driver receives exactly the rotated stream, appended to what it had; the driver's result is returned unchanged |
| Central.MapBleState | src/central.rs:293-297 | each firmware radio phase maps to the screen phase of the same name, `None` exactly for the firmware's `None` |
| Central.MapBleStateBijective | src/central.rs:293-297 | the firmware's three radio phases and the screen's three correspond one to one |
| Central.BluetoothGlyph | src/central.rs:241-245 | the Bluetooth icon for a phase is never the USB icon |
| Central.ProfileDigit | src/central.rs:233-238 | profiles 0, 1, 2 show as the decimal of profile + 1; any other shows "?" |
| Central.LayerName | src/central.rs:253-259 | the name is empty exactly for layers past 3; no name is longer than 5 characters |
| Central.LayerNamesDistinct | src/central.rs:253-259 | the four named layers have four different names |
| Central.Render | src/central.rs:226-272 | a frame is one icon followed by texts: three commands over USB, four (with the profile digit) otherwise |
| Central.RenderParts | src/central.rs:226-272 | the icons of a frame and its texts at any anchor, computed from the frame's connection part, layer line and battery line |
| Central.RenderIcon | src/central.rs:229-248 | exactly one icon is drawn; it is USB exactly when the connection type is 0, else the Bluetooth icon of the stored phase |
| Central.RenderProfileDigit | src/central.rs:232-251 | the profile digit is drawn exactly when the connection is not USB |
| Central.RenderLayerAndBattery | src/central.rs:253-269 | the layer name is drawn once; the battery text is drawn once, is all digits and reads back as the stored level |
| Central.RenderHiddenFields | src/central.rs:226-272 | the frame does not depend on the charging flag, nor over USB on the profile and phase |
| Central.RenderDefault | src/central.rs:209-217 | the default snapshot draws the USB icon, "TEXTE" and "0" |
| Central.RenderFitsPanel | src/central.rs:229-269 | every command stays within the 68-wide logical box; each icon stays clear of row 0 and within the 160 rows; the profile digit sits right of the Bluetooth icon |
| Central.Transition | src/central.rs:279-326 | an event carrying no value redraws the unchanged snapshot; a value-carrying event that redraws always changes the snapshot |
| Central.FieldsDetermineState | src/central.rs:209-217 | two snapshots with the same six field values are equal |
| Central.TransitionSpec | src/central.rs:279-325 | an event is suppressed exactly when it carries values and all equal the stored ones; on a redraw its fields take its values and every other field is kept; an event with no value redraws the unchanged snapshot |
| Central.RepeatIsSuppressed | src/central.rs:279-325 | once a value-carrying event has been applied, the same event again is suppressed |
| Central.Run | src/central.rs:278-327 | a run of events never redraws more often than it has events |
| Central.RunStep | src/central.rs:278-327 | one more event adds one redraw exactly when its reaction to the snapshot left so far is a redraw |
| Central.RunLastWriterWins | src/central.rs:279-325 | after any run every field holds the value of the last event that wrote it, or its starting value |
| Central.RunStutter | src/central.rs:278-327 | repeating a value-carrying event changes neither the final snapshot nor the redraw count |
| Central.BatteryScenario | src/central.rs:286-291 | from the default, `Battery(42)` redraws once with only the battery text now "42"; a second `Battery(42)` does nothing |
| Central.ScreenController.constructor | src/central.rs:350-354 | the controller starts from the default snapshot with nothing drawn |
| Central.ScreenController.FlushStateToTheDisplay | src/central.rs:226-272 | clear, draw and flush leave exactly one more frame, the stored snapshot's layout |
| Central.ScreenController.UpdateState | src/central.rs:279-325 | reports a redraw exactly when the gate lets the event through, and then holds the new snapshot; otherwise the snapshot is unchanged |
| Central.ScreenController.ProcessEvent | src/central.rs:278-327 | a suppressed event changes nothing; otherwise the new snapshot is stored and exactly one frame of it is added; the snapshot and frame count always equal `Run` over all events so far |
| DecimalText.Decimal | src/central.rs:265-266 | the text is one or more digits, with a leading zero only for 0, and at most 3 digits below 1000 |
| DecimalText.ValueOfDecimal | src/central.rs:265-266 | reading the digits back gives the number |
| DecimalText.DecimalInjective | src/central.rs:265-266 | different numbers are written differently |
| Glyphs.GlyphDimensions | src/central.rs:42-157 | each bitmap holds whole rows of its width, 30 rows at width 18 for the Bluetooth icons and 12 rows at width 27 for USB |
| Glyphs.GlyphsDistinct | src/central.rs:42-157 | the four icons are four different bitmaps |
| NiceView.NiceView.ClearBuffer | src/nice_view.rs:45-47 | the driver's framebuffer is emptied, with no flush |
| NiceView.NiceView.FlushBuffer | src/nice_view.rs:50-52 | one more flush, the framebuffer untouched |
| NiceView.NiceView.DrawIter | src/nice_view.rs:59-70 | the driver receives exactly the rotated stream; its result is returned unchanged |
| NiceView.NiceView.BoundingBox | src/nice_view.rs:74-80 | the logical box keeps the driver's corner and, swapped back, is the driver's box |
| NiceView.NiceViewLogicalBox | src/log_controller.rs:16-17 | the panel's logical box is 68×160; inside it only row 0 misses the panel |
| LogController.TryFrom | src/log_controller.rs:29 | building a line succeeds exactly when the text fits 16 characters, and then holds that text |
| LogController.PushStr | src/log_controller.rs:31 | appending succeeds exactly when the line was built and the sum fits, and then holds the concatenation |
| LogController.Message | src/log_controller.rs:27-94 | every event but an unrecorded one has a line, of at most 11 characters |
| LogController.BuildEntry | src/log_controller.rs:27-93 | the firmware builds an entry for every event except the unrecorded ones |
| LogController.BuildEntryIsMessage | src/log_controller.rs:27-90 | the firmware's step-by-step build fails exactly when the line is too long, and otherwise yields `Message` |
| LogController.CapacityErrorUnreachable | src/log_controller.rs:26-97 | no recorded event fails to build: the capacity error never happens |
| LogController.ProfileMessage | src/log_controller.rs:80-87 | profiles 0 to 2 are logged 0-based as "prof n "; any other profile as an empty line |
| LogController.BleStateMessage | src/log_controller.rs:66-79 | a radio line is the profile line plus a 4-letter word that tells the three phases apart; the longest line has 11 characters |
| LogController.BatteryMessage | src/log_controller.rs:28-33 | a battery line is "bat" followed by digits that read back as the level |
| LogController.Pushed | src/log_controller.rs:99-102 | a push keeps the number of slots and puts the new entry in slot 0 |
| LogController.PushedShifts | src/log_controller.rs:99-102 | logging puts the entry in slot 0, moves slot i to slot i + 1, and drops the last slot |
| LogController.HistoryAfter | src/log_controller.rs:99-102 | the history always has 25 slots |
| LogController.HistoryHoldsLatest | src/log_controller.rs:99-102 | slot i holds the i-th most recent entry, or is empty when fewer than i + 1 entries were logged |
| LogController.ConnectionTypeScenario | src/log_controller.rs:50-56 | three connection events leave "conn USB", "conn BLE", "conn USB" at the top |
| LogController.RotateRight | src/log_controller.rs:100 | the array becomes its old last element followed by all the others, in order |
| LogController.LogFrame | src/log_controller.rs:104-114 | a frame has at most one line per slot; every line is text in the 4×6 font at the left margin, at most 16 characters |
| LogController.LogFrameShowsOccupied | src/log_controller.rs:107-112 | every occupied slot is drawn at its own line |
| LogController.LogFrameOnlyOccupied | src/log_controller.rs:107-112 | every drawn line is the line of some occupied slot |
| LogController.LogFrameOrdered | src/log_controller.rs:107-111 | lines go strictly downward in slot order, from one line height to the last slot's line |
| LogController.LogFitsPanel | src/log_controller.rs:14-17 | a full history ends at row 150 of 160, and every line fits the 68-wide box |
| LogController.LogScreenController.constructor | src/log_controller.rs:19-23 | the controller starts with 25 empty slots and nothing drawn |
| LogController.LogScreenController.Log | src/log_controller.rs:99-102 | the history becomes the pushed history, the one the logged entries leave |
| LogController.LogScreenController.FlushLogsToDisplay | src/log_controller.rs:104-114 | clear, draw and flush leave exactly one more frame, the history's |
| LogController.LogScreenController.LogEvent | src/log_controller.rs:26-97 | an unrecorded event, or one whose line overflows, changes nothing and draws nothing, the latter being an error; otherwise the line is pushed and exactly one frame is added |
| LogController.LogScreenController.LogAndRedraw | src/log_controller.rs:94-96 | the recording path: the entry is pushed, and exactly one frame, of the new history, is added |
| LogController.LogScreenController.ProcessEvent | src/log_controller.rs:120-122 | logs `Message(e)` when there is one and adds exactly one frame, else changes nothing; the error is discarded |

## Left out

- Pixel rasterisation of text and images is left out. It belongs to the graphics library. The controllers are modelled at draw-command level (`Display.Canvas`), and the rotation at pixel level (`Display.MemoryDisplay`). The model does not prove that the commands, once rasterised, pass through the rotating target.
- Fonts are reduced to their character widths, and icons to their sizes. These are what the layout lemmas use.
- The driver is not modelled. This covers how a flush chooses the changed lines, the SPI bus, and `clear` (which also blanks the panel, `src/nice_view.rs:40-42`). A flush is a counter on `MemoryDisplay` and a new frame on `Canvas`.
- A draw error is not modelled. The firmware stops on it (`unwrap!`), so drawing is total in the model. `MemoryDisplay` returns the bus's outcome, and the draw targets pass it up unchanged.
- The rotating targets wrap any draw target in the source. Here they wrap `MemoryDisplay`, the only one the firmware uses.
- Rotation.RotatePoint: the source computes `W − y` on 32-bit signed integers after casting the 32-bit unsigned width. The model uses unbounded integers, so it leaves out overflow and truncation for widths or coordinates beyond about 2^31, which a 160-pixel panel never reaches.
- `next_message` is not modelled. It is the asynchronous subscription to the event channel. The controllers are driven by calls to `ProcessEvent`.
- The wiring of the screen controller to the hardware is not modelled (`src/central.rs:336-355`). This covers the interrupts, the SPI configuration, the pins, `NiceView::new` and the initial clear. The same goes for the peripheral half's setup, and `src/peripheral.rs` and `src/no_pin.rs` are not part of this model.
- Events the firmware does not name are a single `Other` case. Both controllers send them to their catch-all branch.
- LogController.TryFrom: the fixed-capacity string counts bytes, and the model counts characters. They agree because every logged text is ASCII.
- LogController.LogScreenController.constructor: the source never shows the log controller being built. The model starts it with all slots empty, as an `[Option<_>; 25]` history starts.
- Central.ScreenController.ProcessEvent: the early returns of the source's single method are split into `UpdateState`, which reports whether to redraw, and the redraw itself.
