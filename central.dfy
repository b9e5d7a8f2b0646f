/** The status screen of the central half: a draw target that rotates every
    pixel a quarter turn onto the memory LCD, the six-field snapshot of the
    keyboard's status, the layout drawn from a snapshot, and the controller
    that updates the snapshot field by field and redraws only when a value
    actually changed. */
module Central {

  import opened Events
  import opened Graphics
  import opened Rotation
  import opened Display
  import opened DecimalText
  import opened Glyphs

  // ---------------------------------------------------------------------
  // The rotating draw target
  // ---------------------------------------------------------------------

  /** Wraps the driver and presents it rotated: pixels are moved by
      `RotatePoint` on their way down, the bounding box is swapped. */
  class RotatedDrawTarget {
    const parent: MemoryDisplay

    constructor (parent: MemoryDisplay)
      ensures this.parent == parent
    {
      this.parent := parent;
    }

    /** The logical box: the parent's corner, width and height swapped. */
    function BoundingBox(): (bb: Rectangle)
      ensures bb.topLeft == parent.bounds.topLeft
      ensures RotateBox(bb) == parent.bounds
    {
      RotateBox(parent.bounds)
    }

    /** Hands the rotated pixel stream to the parent and returns the parent's
        result as it is. */
    method DrawIter(pixels: seq<Pixel>) returns (r: DrawResult)
      modifies parent
      ensures parent.received == old(parent.received) + RotatePixels(pixels, parent.bounds.size.width)
      ensures r == old(parent.outcome)
      ensures parent.flushes == old(parent.flushes) && parent.outcome == old(parent.outcome)
    {
      var parentWidth := parent.bounds.size.width;
      r := parent.DrawIter(RotatePixels(pixels, parentWidth));
    }
  }

  // ---------------------------------------------------------------------
  // The status snapshot
  // ---------------------------------------------------------------------

  /** The radio phase as the screen stores it; `None` is the default. */
  datatype MyBleState = Advertising | Connected | None

  function MapBleState(b: BleState): (m: MyBleState)
    ensures m.Advertising? <==> b.Advertising?
    ensures m.Connected? <==> b.Connected?
    ensures m.None? <==> b.Unconnected?
  {
    match b
    case Advertising => MyBleState.Advertising
    case Connected => MyBleState.Connected
    case Unconnected => MyBleState.None
  }

  /** The firmware's phases and the screen's phases correspond one to one. */
  lemma MapBleStateBijective(a: BleState, b: BleState, m: MyBleState)
    ensures MapBleState(a) == MapBleState(b) ==> a == b
    ensures exists c :: MapBleState(c) == m
  {
    match m
    case Advertising => assert MapBleState(BleState.Advertising) == m;
    case Connected => assert MapBleState(BleState.Connected) == m;
    case None => assert MapBleState(BleState.Unconnected) == m;
  }

  datatype ScreenState = ScreenState(
    layer: uint8,
    bleProfile: uint8,
    bleState: MyBleState,
    connectionType: uint8,
    batteryPercent: uint8,
    chargingState: bool)

  /** The derived default: every number 0, radio phase `None`, not charging. */
  const DefaultState := ScreenState(0, 0, MyBleState.None, 0, 0, false)

  // ---------------------------------------------------------------------
  // The layout
  // ---------------------------------------------------------------------

  const UsbAnchor := Point(2, 10)
  const BluetoothAnchor := Point(2, 2)
  const ProfileAnchor := Point(22, 27)
  const LayerAnchor := Point(6, 70)
  const BatteryAnchor := Point(32, 32)

  /** The Bluetooth icon for a radio phase. */
  function BluetoothGlyph(m: MyBleState): (g: Glyph)
    ensures g != Usb
  {
    match m
    case Advertising => BluetoothAdvertising
    case Connected => BluetoothConnected
    case None => BluetoothNone
  }

  /** The profile shown to the user, counted from 1; an unknown profile is
      a question mark. */
  function ProfileDigit(profile: uint8): (r: string)
    ensures profile <= 2 ==> r == Decimal(profile as int + 1)
    ensures profile > 2 ==> r == "?"
  {
    match profile
    case 0 => "1"
    case 1 => "2"
    case 2 => "3"
    case _ => "?"
  }

  /** The name of the active layer; layers past the fourth have none. */
  function LayerName(layer: uint8): (r: string)
    ensures r == "" <==> layer > 3
    ensures |r| <= 5
  {
    match layer
    case 0 => "TEXTE"
    case 1 => "NAV"
    case 2 => "PROG"
    case 3 => "PERI"
    case _ => ""
  }

  /** The four named layers have four different names. */
  lemma LayerNamesDistinct(a: uint8, b: uint8)
    requires a <= 3 && b <= 3 && a != b
    ensures LayerName(a) != LayerName(b)
  {
  }

  /** The frame drawn for a snapshot, in drawing order: the connection icon
      (with the profile digit beside a Bluetooth icon), the layer name, the
      battery percentage. The charging flag is not drawn. */
  function Render(s: ScreenState): (r: seq<DrawCommand>)
    ensures |r| == if s.connectionType == 0 then 3 else 4
    ensures r[0].Image? && forall i :: 1 <= i < |r| ==> r[i].Text?
  {
    (if s.connectionType == 0 then [Image(Usb, UsbAnchor)]
     else [Image(BluetoothGlyph(s.bleState), BluetoothAnchor),
           Text(ProfileDigit(s.bleProfile), ProfileAnchor, Font7x13Bold)])
    + [Text(LayerName(s.layer), LayerAnchor, Font10x20),
       Text(Decimal(s.batteryPercent as int), BatteryAnchor, Font9x15)]
  }

  /** The icons of a frame, in drawing order. */
  function Images(frame: seq<DrawCommand>): seq<Glyph>
  {
    if frame == [] then []
    else (if frame[0].Image? then [frame[0].glyph] else []) + Images(frame[1..])
  }

  /** The texts a frame draws at one anchor, in drawing order. */
  function TextsAt(frame: seq<DrawCommand>, at: Point): seq<string>
  {
    if frame == [] then []
    else (if frame[0].Text? && frame[0].at == at then [frame[0].text] else [])
         + TextsAt(frame[1..], at)
  }

  lemma {:induction false} ImagesAppend(a: seq<DrawCommand>, b: seq<DrawCommand>)
    ensures Images(a + b) == Images(a) + Images(b)
  {
    if a == [] {
      assert a + b == b;
    } else {
      var head := if a[0].Image? then [a[0].glyph] else [];
      assert (a + b)[0] == a[0] && (a + b)[1..] == a[1..] + b;
      assert Images(a + b) == head + Images(a[1..] + b);
      ImagesAppend(a[1..], b);
    }
  }

  lemma {:induction false} TextsAtAppend(a: seq<DrawCommand>, b: seq<DrawCommand>, at: Point)
    ensures TextsAt(a + b, at) == TextsAt(a, at) + TextsAt(b, at)
  {
    if a == [] {
      assert a + b == b;
    } else {
      var head := if a[0].Text? && a[0].at == at then [a[0].text] else [];
      assert (a + b)[0] == a[0] && (a + b)[1..] == a[1..] + b;
      assert TextsAt(a + b, at) == head + TextsAt(a[1..] + b, at);
      TextsAtAppend(a[1..], b, at);
    }
  }

  /** The images and the texts at one anchor of a frame, taken from its
      parts: the connection part and the two lines every frame has. */
  lemma RenderParts(s: ScreenState, at: Point)
    ensures Images(Render(s)) ==
      if s.connectionType == 0 then [Usb] else [BluetoothGlyph(s.bleState)]
    ensures TextsAt(Render(s), at) ==
      (if s.connectionType != 0 && at == ProfileAnchor then [ProfileDigit(s.bleProfile)] else [])
      + (if at == LayerAnchor then [LayerName(s.layer)] else [])
      + (if at == BatteryAnchor then [Decimal(s.batteryPercent as int)] else [])
  {
    var head := if s.connectionType == 0 then [Image(Usb, UsbAnchor)]
      else [Image(BluetoothGlyph(s.bleState), BluetoothAnchor),
            Text(ProfileDigit(s.bleProfile), ProfileAnchor, Font7x13Bold)];
    var layer := [Text(LayerName(s.layer), LayerAnchor, Font10x20)];
    var battery := [Text(Decimal(s.batteryPercent as int), BatteryAnchor, Font9x15)];
    assert Render(s) == head + (layer + battery);
    ImagesAppend(head, layer + battery);
    ImagesAppend(layer, battery);
    TextsAtAppend(head, layer + battery, at);
    TextsAtAppend(layer, battery, at);
    if s.connectionType != 0 {
      ImagesAppend(head[..1], head[1..]);
      TextsAtAppend(head[..1], head[1..], at);
    }
  }

  /** Exactly one icon is drawn; it is the USB icon exactly when the
      connection type is 0, and otherwise the Bluetooth icon of the stored
      radio phase. */
  lemma RenderIcon(s: ScreenState)
    ensures |Images(Render(s))| == 1
    ensures Images(Render(s))[0] == Usb <==> s.connectionType == 0
    ensures s.connectionType != 0 ==> Images(Render(s))[0] == BluetoothGlyph(s.bleState)
  {
    RenderParts(s, UsbAnchor);
  }

  /** The profile digit is drawn exactly when the connection is not USB, and
      it is the 1-based profile number, or "?" past the third profile. */
  lemma RenderProfileDigit(s: ScreenState)
    ensures TextsAt(Render(s), ProfileAnchor) ==
      if s.connectionType == 0 then [] else [ProfileDigit(s.bleProfile)]
  {
    RenderParts(s, ProfileAnchor);
  }

  /** The layer name and the battery number are always drawn, once each; the
      battery text reads back as the stored percentage. */
  lemma RenderLayerAndBattery(s: ScreenState)
    ensures TextsAt(Render(s), LayerAnchor) == [LayerName(s.layer)]
    ensures |TextsAt(Render(s), BatteryAnchor)| == 1
    ensures IsDigits(TextsAt(Render(s), BatteryAnchor)[0])
    ensures Value(TextsAt(Render(s), BatteryAnchor)[0]) == s.batteryPercent as int
  {
    ValueOfDecimal(s.batteryPercent as int);
    RenderParts(s, LayerAnchor);
    RenderParts(s, BatteryAnchor);
  }

  /** What is drawn does not depend on the charging flag, nor, over USB, on
      the radio profile and phase. */
  lemma RenderHiddenFields(s: ScreenState, charging: bool, profile: uint8, phase: MyBleState)
    ensures Render(s.(chargingState := charging)) == Render(s)
    ensures s.connectionType == 0 ==>
      Render(s.(bleProfile := profile, bleState := phase)) == Render(s)
  {
  }

  /** The default snapshot shows the USB icon, the first layer and 0 %. */
  lemma RenderDefault()
    ensures Render(DefaultState) ==
      [Image(Usb, UsbAnchor), Text("TEXTE", LayerAnchor, Font10x20),
       Text("0", BatteryAnchor, Font9x15)]
  {
  }

  /** How far right of its anchor a command reaches (mono fonts, no spacing). */
  function Extent(c: DrawCommand): nat
  {
    match c
    case Image(g, _) => GlyphSize(g).width
    case Text(t, _, font) => CharWidth(font) * |t|
  }

  /** Every command of every frame stays within the logical width of the
      panel, every icon within its logical height and clear of the row
      `y = 0` that lands outside the panel, and the profile digit sits right
      of the Bluetooth icon. */
  lemma RenderFitsPanel(s: ScreenState)
    ensures forall c :: c in Render(s) ==>
      0 <= c.at.x && c.at.x + Extent(c) <= RotateBox(PanelBounds).size.width
    ensures forall c :: c in Render(s) && c.Image? ==>
      1 <= c.at.y && c.at.y + GlyphSize(c.glyph).height <= RotateBox(PanelBounds).size.height
    ensures ProfileAnchor.x >= BluetoothAnchor.x + BluetoothWidth
  {
    assert RotateBox(PanelBounds).size == Size(68, 160);
    assert |Decimal(s.batteryPercent as int)| <= 3;
    assert |ProfileDigit(s.bleProfile)| <= 1 && |LayerName(s.layer)| <= 5;
    forall c | c in Render(s)
      ensures 0 <= c.at.x && c.at.x + Extent(c) <= 68
      ensures c.Image? ==> 1 <= c.at.y && c.at.y + GlyphSize(c.glyph).height <= 160
    {
      if c.Image? {
        assert c.glyph == Usb || c.glyph == BluetoothGlyph(s.bleState);
      }
    }
  }

  // ---------------------------------------------------------------------
  // The change gate
  // ---------------------------------------------------------------------

  /** What an event does to the status screen: nothing at all, or a redraw
      of the given snapshot. */
  datatype Reaction = Suppressed | Redraw(next: ScreenState)

  /** The controller's reaction to one event: an event carrying the values
      already stored is suppressed; one carrying a new value overwrites its
      field(s) and redraws; any other event redraws the unchanged snapshot. */
  function Transition(s: ScreenState, e: ControllerEvent): (r: Reaction)
    ensures Targets(e) == {} ==> r == Redraw(s)
    ensures r.Redraw? && r.next == s ==> Targets(e) == {}
  {
    match e
    case Layer(layer) =>
      if layer == s.layer then Suppressed else Redraw(s.(layer := layer))
    case Battery(percent) =>
      if percent == s.batteryPercent then Suppressed else Redraw(s.(batteryPercent := percent))
    case BleStateChanged(profile, phase) =>
      var m := MapBleState(phase);
      if m == s.bleState && profile == s.bleProfile then Suppressed
      else Redraw(s.(bleProfile := profile, bleState := m))
    case BleProfile(profile) =>
      if profile == s.bleProfile then Suppressed else Redraw(s.(bleProfile := profile))
    case ChargingState(charging) =>
      if charging == s.chargingState then Suppressed else Redraw(s.(chargingState := charging))
    case ConnectionType(kind) =>
      if s.connectionType == kind then Suppressed else Redraw(s.(connectionType := kind))
    case _ => Redraw(s)
  }

  /** The six fields of the snapshot, to talk about them uniformly. */
  datatype Field = LayerField | ProfileField | PhaseField | ConnectionField | BatteryField | ChargingField

  function PhaseCode(m: MyBleState): int
  {
    match m
    case Advertising => 0
    case Connected => 1
    case None => 2
  }

  /** A field's value, as a number. */
  function FieldValue(s: ScreenState, f: Field): int
  {
    match f
    case LayerField => s.layer as int
    case ProfileField => s.bleProfile as int
    case PhaseField => PhaseCode(s.bleState)
    case ConnectionField => s.connectionType as int
    case BatteryField => s.batteryPercent as int
    case ChargingField => if s.chargingState then 1 else 0
  }

  /** The six values determine the snapshot. */
  lemma FieldsDetermineState(s: ScreenState, t: ScreenState)
    requires forall f :: FieldValue(s, f) == FieldValue(t, f)
    ensures s == t
  {
    assert FieldValue(s, LayerField) == FieldValue(t, LayerField);
    assert FieldValue(s, ProfileField) == FieldValue(t, ProfileField);
    assert FieldValue(s, PhaseField) == FieldValue(t, PhaseField);
    assert FieldValue(s, ConnectionField) == FieldValue(t, ConnectionField);
    assert FieldValue(s, BatteryField) == FieldValue(t, BatteryField);
    assert FieldValue(s, ChargingField) == FieldValue(t, ChargingField);
  }

  /** The fields an event carries a value for. */
  function Targets(e: ControllerEvent): set<Field>
  {
    match e
    case Layer(_) => {LayerField}
    case Battery(_) => {BatteryField}
    case BleStateChanged(_, _) => {ProfileField, PhaseField}
    case BleProfile(_) => {ProfileField}
    case ChargingState(_) => {ChargingField}
    case ConnectionType(_) => {ConnectionField}
    case _ => {}
  }

  /** The value an event carries for one of its fields. */
  function WrittenValue(e: ControllerEvent, f: Field): int
    requires f in Targets(e)
  {
    match e
    case Layer(layer) => layer as int
    case Battery(percent) => percent as int
    case BleStateChanged(profile, phase) =>
      if f == ProfileField then profile as int else PhaseCode(MapBleState(phase))
    case BleProfile(profile) => profile as int
    case ChargingState(charging) => if charging then 1 else 0
    case ConnectionType(kind) => kind as int
  }

  /** The change gate, field by field. An event is suppressed exactly when it
      carries values and every one of them equals the stored one. Otherwise
      the event's fields take its values and every other field keeps its
      value; an event carrying no value redraws the unchanged snapshot. */
  lemma TransitionSpec(s: ScreenState, e: ControllerEvent)
    ensures Transition(s, e).Suppressed? <==>
      Targets(e) != {} && forall f :: f in Targets(e) ==> FieldValue(s, f) == WrittenValue(e, f)
    ensures Transition(s, e).Redraw? ==>
      forall f :: FieldValue(Transition(s, e).next, f) ==
        (if f in Targets(e) then WrittenValue(e, f) else FieldValue(s, f))
    ensures Targets(e) == {} ==> Transition(s, e) == Redraw(s)
  {
    match e
    case Layer(_) => assert LayerField in Targets(e);
    case Battery(_) => assert BatteryField in Targets(e);
    case BleStateChanged(_, _) =>
      assert ProfileField in Targets(e) && PhaseField in Targets(e);
    case BleProfile(_) => assert ProfileField in Targets(e);
    case ChargingState(_) => assert ChargingField in Targets(e);
    case ConnectionType(_) => assert ConnectionField in Targets(e);
    case _ =>
  }

  /** The same event twice in a row redraws at most once: once a value-
      carrying event has been applied, repeating it is suppressed. */
  lemma RepeatIsSuppressed(s: ScreenState, e: ControllerEvent)
    requires Targets(e) != {}
    ensures Transition(s, e).Redraw? ==> Transition(Transition(s, e).next, e) == Suppressed
  {
  }

  /** A run of events from a snapshot: the final snapshot and the number of
      redraws. */
  function Run(s: ScreenState, events: seq<ControllerEvent>): (r: (ScreenState, nat))
    ensures r.1 <= |events|
    decreases |events|
  {
    if events == [] then (s, 0)
    else
      var (t, n) := Run(s, events[..|events| - 1]);
      match Transition(t, events[|events| - 1])
      case Suppressed => (t, n)
      case Redraw(u) => (u, n + 1)
  }

  /** A run one event longer: the last event's reaction to the snapshot the
      shorter run left decides whether it adds a redraw. */
  lemma RunStep(s: ScreenState, events: seq<ControllerEvent>, e: ControllerEvent)
    ensures Run(s, events + [e]) ==
      if Transition(Run(s, events).0, e).Redraw?
      then (Transition(Run(s, events).0, e).next, Run(s, events).1 + 1)
      else Run(s, events)
  {
    var longer := events + [e];
    assert longer[..|longer| - 1] == events && longer[|longer| - 1] == e;
  }

  /** The value of a field after a run: the one carried by the last event
      that carries a value for it, or the starting value if none does. */
  function LastWritten(s: ScreenState, events: seq<ControllerEvent>, f: Field): int
    decreases |events|
  {
    if events == [] then FieldValue(s, f)
    else if f in Targets(events[|events| - 1]) then WrittenValue(events[|events| - 1], f)
    else LastWritten(s, events[..|events| - 1], f)
  }

  /** After any run every field holds the last value written to it, whether
      or not the gate suppressed the event that wrote it. */
  lemma {:induction false} RunLastWriterWins(s: ScreenState, events: seq<ControllerEvent>, f: Field)
    ensures FieldValue(Run(s, events).0, f) == LastWritten(s, events, f)
    decreases |events|
  {
    if events != [] {
      var prefix, e := events[..|events| - 1], events[|events| - 1];
      RunLastWriterWins(s, prefix, f);
      TransitionSpec(Run(s, prefix).0, e);
    }
  }

  /** Repeating an event that carries values changes neither the final
      snapshot nor the number of redraws. */
  lemma RunStutter(s: ScreenState, events: seq<ControllerEvent>, e: ControllerEvent)
    requires Targets(e) != {}
    ensures Run(s, events + [e, e]) == Run(s, events + [e])
  {
    var once, twice := events + [e], events + [e, e];
    assert twice[..|twice| - 1] == once;
    assert once[..|once| - 1] == events;
    RepeatIsSuppressed(Run(s, events).0, e);
  }

  /** From the default snapshot, `Battery(42)` changes only the battery text
      to "42" with one redraw, and a second `Battery(42)` does nothing. */
  lemma BatteryScenario()
    ensures Transition(DefaultState, Battery(42)) == Redraw(DefaultState.(batteryPercent := 42))
    ensures Render(DefaultState.(batteryPercent := 42)) ==
      Render(DefaultState)[..2] + [Text("42", BatteryAnchor, Font9x15)]
    ensures Run(DefaultState, [Battery(42), Battery(42)]) == (DefaultState.(batteryPercent := 42), 1)
  {
    assert Decimal(4) == "4";
    assert Decimal(42) == "42";
    assert [Battery(42), Battery(42)][..1] == [Battery(42)];
    assert [Battery(42)][..0] == [];
  }

  // ---------------------------------------------------------------------
  // The controller
  // ---------------------------------------------------------------------

  /** The status-screen controller: the stored snapshot and the display it
      draws on. `processed` is every event handed to it so far. */
  class ScreenController {
    var currentState: ScreenState
    const display: Canvas
    ghost var processed: seq<ControllerEvent>

    /** The snapshot and the redraw count are those of running the processed
        events from the default snapshot, and the last frame shown, if any,
        is the stored snapshot's. */
    ghost predicate Valid()
      reads this, display
    {
      Run(DefaultState, processed) == (currentState, |display.frames|) &&
      (display.frames != [] ==> display.frames[|display.frames| - 1] == Render(currentState))
    }

    constructor ()
      ensures Valid() && fresh(display)
      ensures processed == [] && currentState == DefaultState && display.frames == []
    {
      currentState := DefaultState;
      display := new Canvas();
      processed := [];
    }

    /** Clears the framebuffer, draws the layout for the stored snapshot and
        flushes it: one more frame, the stored snapshot's. */
    method FlushStateToTheDisplay()
      modifies display
      ensures display.buffer == Render(currentState)
      ensures display.frames == old(display.frames) + [Render(currentState)]
    {
      display.ClearBuffer();
      if currentState.connectionType == 0 {
        display.Draw(Image(Usb, UsbAnchor));
      } else {
        var profile := ProfileDigit(currentState.bleProfile);
        display.Draw(Image(BluetoothGlyph(currentState.bleState), BluetoothAnchor));
        display.Draw(Text(profile, ProfileAnchor, Font7x13Bold));
      }
      display.Draw(Text(LayerName(currentState.layer), LayerAnchor, Font10x20));
      display.Draw(Text(Decimal(currentState.batteryPercent as int), BatteryAnchor, Font9x15));
      display.FlushBuffer();
    }

    /** The gate of event handling: stores the event's value(s) unless they
        equal the stored ones. `redraw` is false exactly where the firmware
        returns early, before redrawing. */
    method UpdateState(e: ControllerEvent) returns (redraw: bool)
      modifies this`currentState
      ensures redraw <==> Transition(old(currentState), e).Redraw?
      ensures currentState ==
        if redraw then Transition(old(currentState), e).next else old(currentState)
    {
      redraw := false;
      match e {
        case Layer(layer) =>
          if layer == currentState.layer {
            return;
          }
          currentState := currentState.(layer := layer);
        case Battery(percent) =>
          if percent == currentState.batteryPercent {
            return;
          }
          currentState := currentState.(batteryPercent := percent);
        case BleStateChanged(profile, phase) =>
          var myBleState := MapBleState(phase);
          if myBleState == currentState.bleState && profile == currentState.bleProfile {
            return;
          }
          currentState := currentState.(bleProfile := profile, bleState := myBleState);
        case BleProfile(profile) =>
          if profile == currentState.bleProfile {
            return;
          }
          currentState := currentState.(bleProfile := profile);
        case ChargingState(charging) =>
          if charging == currentState.chargingState {
            return;
          }
          currentState := currentState.(chargingState := charging);
        case ConnectionType(kind) =>
          if currentState.connectionType == kind {
            return;
          }
          currentState := currentState.(connectionType := kind);
        case _ =>
      }
      redraw := true;
    }

    /** Handles one event: nothing at all when the gate suppresses it,
        otherwise the new value(s) stored and exactly one redraw. */
    method ProcessEvent(e: ControllerEvent)
      requires Valid()
      modifies this, display
      ensures Valid() && processed == old(processed) + [e]
      ensures Transition(old(currentState), e) == Suppressed ==>
        currentState == old(currentState) &&
        display.frames == old(display.frames) && display.buffer == old(display.buffer)
      ensures Transition(old(currentState), e).Redraw? ==>
        currentState == Transition(old(currentState), e).next &&
        display.frames == old(display.frames) + [Render(currentState)]
    {
      RunStep(DefaultState, processed, e);
      processed := processed + [e];
      var redraw := UpdateState(e);
      if redraw {
        FlushStateToTheDisplay();
        assert display.frames[|display.frames| - 1] == Render(currentState);
      }
      assert Run(DefaultState, processed) == (currentState, |display.frames|);
    }
  }
}
