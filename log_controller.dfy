/** The log screen: every event the firmware publishes becomes one short
    line of text, pushed onto the front of a fixed 25-line history that is
    redrawn top to bottom, most recent first. */
module LogController {

  import opened Wrappers
  import opened Events
  import opened Graphics
  import opened Display
  import opened DecimalText
  import opened Rotation

  /** Pixels between two log lines (the 4 x 6 font). */
  const LogLineHeight: nat := 6
  /** Lines in the history: 25 lines of 6 fill the 160-pixel height. */
  const LogLines: nat := 25
  /** Characters a line holds: 16 of 4 pixels fill the 68-pixel width. */
  const LogColumns: nat := 16

  /** A fixed-capacity string of at most `LogColumns` characters. Every
      message is ASCII, so characters and bytes agree. */
  type LogEntry = s: string | |s| <= LogColumns

  datatype CapacityError = CapacityError

  // ---------------------------------------------------------------------
  // Building a message
  // ---------------------------------------------------------------------

  /** A fixed-capacity string made from `s`, or a capacity error. */
  function TryFrom(s: string): (r: Result<LogEntry, CapacityError>)
    ensures r.Success? <==> |s| <= LogColumns
    ensures r.Success? ==> r.value == s
  {
    if |s| <= LogColumns then Success(s) else Failure(CapacityError)
  }

  /** Appends `s` to a fixed-capacity string being built; an earlier error
      stays, and running out of capacity is an error. */
  function PushStr(r: Result<LogEntry, CapacityError>, s: string): (r': Result<LogEntry, CapacityError>)
    ensures r'.Success? <==> r.Success? && |r.value| + |s| <= LogColumns
    ensures r'.Success? ==> r'.value == r.value + s
  {
    match r
    case Failure(err) => Failure(err)
    case Success(entry) =>
      if |entry| + |s| <= LogColumns then Success(entry + s) else Failure(CapacityError)
  }

  function ProfileWords(profile: uint8): string
  {
    match profile
    case 0 => "prof 0 "
    case 1 => "prof 1 "
    case 2 => "prof 2 "
    case _ => ""
  }

  function PhaseWord(phase: BleState): string
  {
    match phase
    case Advertising => "advr"
    case Connected => "conn"
    case Unconnected => "none"
  }

  function ChargingWords(charging: bool): string
  {
    if charging then "charge oui" else "charge non"
  }

  function ConnectionWords(kind: uint8): string
  {
    if kind == 0 then "conn USB" else "conn BLE"
  }

  /** Both split events, from either half, log the same peer line. */
  function PeerWords(connected: bool): string
  {
    if connected then "peri oui" else "peri non"
  }

  function SleepWords(sleeping: bool): string
  {
    if sleeping then "dodo oui" else "dodo non"
  }

  const BatteryPrefix := "bat"
  const ClearPeerWords := "clear peer"

  function LayerWords(layer: uint8): string
  {
    match layer
    case 0 => "layer base"
    case 1 => "layer nav"
    case 2 => "layer prog"
    case 3 => "layer peri"
    case _ => ""
  }

  /** The line an event is logged as, or nothing for an event the log does
      not record. */
  function Message(e: ControllerEvent): (r: Option<string>)
    ensures r.None? <==> e.Other?
    ensures r.Some? ==> |r.value| <= 11 < LogColumns
  {
    match e
    case Battery(percent) => Some(BatteryPrefix + Decimal(percent as int))
    case ChargingState(charging) => Some(ChargingWords(charging))
    case Layer(layer) => Some(LayerWords(layer))
    case ConnectionType(kind) => Some(ConnectionWords(kind))
    case SplitPeripheral(_, connected) => Some(PeerWords(connected))
    case SplitCentral(connected) => Some(PeerWords(connected))
    case Sleep(sleeping) => Some(SleepWords(sleeping))
    case BleStateChanged(profile, phase) => Some(ProfileWords(profile) + PhaseWord(phase))
    case BleProfile(profile) => Some(ProfileWords(profile))
    case ClearPeer => Some(ClearPeerWords)
    case Other(_) => None
  }

  /** How the firmware builds the entry for an event: start a fixed-capacity
      string from the first literal, append the rest; `None` for an event
      the log does not record. */
  function BuildEntry(e: ControllerEvent): (r: Option<Result<LogEntry, CapacityError>>)
    ensures r.None? <==> e.Other?
  {
    match e
    case Battery(percent) => Some(PushStr(TryFrom(BatteryPrefix), Decimal(percent as int)))
    case ChargingState(charging) => Some(TryFrom(ChargingWords(charging)))
    case Layer(layer) => Some(TryFrom(LayerWords(layer)))
    case ConnectionType(kind) => Some(TryFrom(ConnectionWords(kind)))
    case SplitPeripheral(_, connected) => Some(TryFrom(PeerWords(connected)))
    case SplitCentral(connected) => Some(TryFrom(PeerWords(connected)))
    case Sleep(sleeping) => Some(TryFrom(SleepWords(sleeping)))
    case BleStateChanged(profile, phase) => Some(PushStr(TryFrom(ProfileWords(profile)), PhaseWord(phase)))
    case BleProfile(profile) => Some(TryFrom(ProfileWords(profile)))
    case ClearPeer => Some(TryFrom(ClearPeerWords))
    case Other(_) => None
  }

  /** Building an entry fails exactly when its message is longer than a line
      holds, and otherwise yields the message. */
  lemma BuildEntryIsMessage(e: ControllerEvent)
    ensures BuildEntry(e).None? <==> Message(e).None?
    ensures BuildEntry(e).Some? ==>
      (BuildEntry(e).value.Failure? <==> |Message(e).value| > LogColumns)
    ensures BuildEntry(e).Some? && BuildEntry(e).value.Success? ==>
      BuildEntry(e).value.value == Message(e).value
  {
  }

  /** No message overflows a line, so no event is ever dropped for
      capacity: the capacity error cannot happen. */
  lemma CapacityErrorUnreachable(e: ControllerEvent)
    ensures BuildEntry(e).Some? ==> BuildEntry(e).value == Success(Message(e).value)
  {
    BuildEntryIsMessage(e);
  }

  /** The profile in the log is counted from 0; a profile past the third is
      logged as an empty line. */
  lemma ProfileMessage(profile: uint8)
    ensures profile <= 2 ==> Message(BleProfile(profile)) == Some("prof " + Decimal(profile as int) + " ")
    ensures profile > 2 ==> Message(BleProfile(profile)) == Some("")
  {
    match profile
    case 0 => assert Decimal(0) == "0" && "prof " + "0" + " " == "prof 0 ";
    case 1 => assert Decimal(1) == "1" && "prof " + "1" + " " == "prof 1 ";
    case 2 => assert Decimal(2) == "2" && "prof " + "2" + " " == "prof 2 ";
    case _ =>
  }

  /** A radio-state line is the profile line followed by a four-letter word
      telling the three phases apart; the longest line, 11 characters, is
      one of these. */
  lemma BleStateMessage(profile: uint8, phase: BleState, other: BleState)
    ensures Message(BleStateChanged(profile, phase)).value ==
      Message(BleProfile(profile)).value + PhaseWord(phase)
    ensures |PhaseWord(phase)| == 4
    ensures PhaseWord(phase) == PhaseWord(other) <==> phase == other
    ensures |Message(BleStateChanged(0, BleState.Advertising)).value| == 11
  {
  }

  /** A battery line is "bat" followed by digits that read back as the level. */
  lemma BatteryMessage(percent: uint8)
    ensures Message(Battery(percent)).value[..3] == "bat"
    ensures IsDigits(Message(Battery(percent)).value[3..])
    ensures Value(Message(Battery(percent)).value[3..]) == percent as int
  {
    var m := Message(Battery(percent)).value;
    assert m[3..] == Decimal(percent as int);
    ValueOfDecimal(percent as int);
  }

  // ---------------------------------------------------------------------
  // The history
  // ---------------------------------------------------------------------

  function EmptyHistory(): (h: seq<Option<LogEntry>>)
  {
    seq(LogLines, _ => None)
  }

  /** The history after logging one more entry: it goes in front, every
      other entry moves one slot down, and the last one falls off. */
  function Pushed(h: seq<Option<LogEntry>>, entry: LogEntry): (r: seq<Option<LogEntry>>)
    requires |h| > 0
    ensures |r| == |h| && r[0] == Some(entry)
  {
    [Some(entry)] + h[..|h| - 1]
  }

  /** Slot by slot: the new entry in slot 0, old slot `i` in slot `i + 1`,
      the old last slot gone, the length kept. */
  lemma PushedShifts(h: seq<Option<LogEntry>>, entry: LogEntry)
    requires |h| > 0
    ensures |Pushed(h, entry)| == |h|
    ensures Pushed(h, entry)[0] == Some(entry)
    ensures forall i :: 0 <= i < |h| - 1 ==> Pushed(h, entry)[i + 1] == h[i]
  {
  }

  /** The history after logging `entries`, oldest first, from empty. */
  function HistoryAfter(entries: seq<LogEntry>): (h: seq<Option<LogEntry>>)
    ensures |h| == LogLines
    decreases |entries|
  {
    if entries == [] then EmptyHistory()
    else Pushed(HistoryAfter(entries[..|entries| - 1]), entries[|entries| - 1])
  }

  /** The history holds the last (at most 25) entries, most recent first,
      and every other slot is empty. */
  lemma {:induction false} HistoryHoldsLatest(entries: seq<LogEntry>, i: nat)
    requires i < LogLines
    ensures HistoryAfter(entries)[i] ==
      if i < |entries| then Some(entries[|entries| - 1 - i]) else None
    decreases |entries|
  {
    if entries != [] {
      var prefix := entries[..|entries| - 1];
      if i > 0 {
        HistoryHoldsLatest(prefix, i - 1);
      }
    }
  }

  /** Three connection-type events in a row: the top three lines read
      "conn USB", "conn BLE", "conn USB". */
  lemma ConnectionTypeScenario()
    ensures HistoryAfter([Message(ConnectionType(0)).value, Message(ConnectionType(1)).value,
                          Message(ConnectionType(0)).value])[..3] ==
      [Some("conn USB"), Some("conn BLE"), Some("conn USB")]
  {
    var entries: seq<LogEntry> := ["conn USB", "conn BLE", "conn USB"];
    HistoryHoldsLatest(entries, 0);
    HistoryHoldsLatest(entries, 1);
    HistoryHoldsLatest(entries, 2);
  }

  /** Shifts every element one place to the right, the last one coming
      round to the front. */
  method RotateRight<T>(a: array<T>)
    requires a.Length > 0
    modifies a
    ensures a[..] == [old(a[a.Length - 1])] + old(a[..a.Length - 1])
  {
    var last := a[a.Length - 1];
    var i := a.Length - 1;
    while i > 0
      invariant 0 <= i < a.Length
      invariant forall k :: i < k < a.Length ==> a[k] == old(a[k - 1])
      invariant forall k :: 0 <= k <= i ==> a[k] == old(a[k])
    {
      a[i] := a[i - 1];
      i := i - 1;
    }
    a[0] := last;
  }

  // ---------------------------------------------------------------------
  // Drawing the history
  // ---------------------------------------------------------------------

  /** The line for slot `index`, at the left margin, one line height per
      slot further down. */
  function LogLine(index: nat, text: LogEntry): DrawCommand
  {
    Text(text, Point(2, (index + 1) * LogLineHeight), Font4x6)
  }

  /** The frame drawn for a history: its occupied slots in slot order. */
  function LogFrame(slots: seq<Option<LogEntry>>): (r: seq<DrawCommand>)
    ensures |r| <= |slots|
    ensures forall c :: c in r ==> c.Text? && c.at.x == 2 && c.font == Font4x6 && |c.text| <= LogColumns
    decreases |slots|
  {
    if slots == [] then []
    else
      LogFrame(slots[..|slots| - 1]) +
      match slots[|slots| - 1]
      case Some(text) => [LogLine(|slots| - 1, text)]
      case None => []
  }

  /** Every occupied slot is drawn, at its own line. */
  lemma {:induction false} LogFrameShowsOccupied(slots: seq<Option<LogEntry>>)
    ensures forall k :: 0 <= k < |slots| && slots[k].Some? ==> LogLine(k, slots[k].value) in LogFrame(slots)
    decreases |slots|
  {
    if slots != [] {
      var prefix := slots[..|slots| - 1];
      LogFrameShowsOccupied(prefix);
      forall k | 0 <= k < |slots| && slots[k].Some?
        ensures LogLine(k, slots[k].value) in LogFrame(slots)
      {
        if k < |prefix| {
          assert slots[k] == prefix[k];
          assert LogLine(k, prefix[k].value) in LogFrame(prefix);
        }
      }
    }
  }

  /** Nothing but occupied slots is drawn: every line of the frame is the
      line of some occupied slot. */
  lemma {:induction false} LogFrameOnlyOccupied(slots: seq<Option<LogEntry>>)
    ensures forall c :: c in LogFrame(slots) ==>
      exists k :: 0 <= k < |slots| && slots[k].Some? && c == LogLine(k, slots[k].value)
    decreases |slots|
  {
    if slots != [] {
      var prefix := slots[..|slots| - 1];
      LogFrameOnlyOccupied(prefix);
      forall c | c in LogFrame(slots)
        ensures exists k :: 0 <= k < |slots| && slots[k].Some? && c == LogLine(k, slots[k].value)
      {
        if c in LogFrame(prefix) {
          var k :| 0 <= k < |prefix| && prefix[k].Some? && c == LogLine(k, prefix[k].value);
          assert slots[k] == prefix[k];
        } else {
          assert c == LogLine(|slots| - 1, slots[|slots| - 1].value);
        }
      }
    }
  }

  /** The lines go top to bottom in slot order, from the first line height
      down to the line of the last slot. */
  lemma {:induction false} LogFrameOrdered(slots: seq<Option<LogEntry>>)
    ensures forall i, j :: 0 <= i < j < |LogFrame(slots)| ==> LogFrame(slots)[i].at.y < LogFrame(slots)[j].at.y
    ensures forall c :: c in LogFrame(slots) ==> LogLineHeight <= c.at.y <= |slots| * LogLineHeight
    decreases |slots|
  {
    if slots != [] {
      var prefix := slots[..|slots| - 1];
      LogFrameOrdered(prefix);
      var before := LogFrame(prefix);
      assert forall c :: c in before ==> c.at.y <= (|slots| - 1) * LogLineHeight;
    }
  }

  /** A full history fits the panel: 25 lines of at most 16 characters end
      at row 150 of 160 and column 66 of 68. */
  lemma LogFitsPanel(slots: seq<Option<LogEntry>>)
    requires |slots| == LogLines
    ensures forall c :: c in LogFrame(slots) ==>
      c.at.y <= 150 < RotateBox(PanelBounds).size.height
    ensures forall c :: c in LogFrame(slots) && c.Text? ==>
      c.at.x + CharWidth(c.font) * |c.text| <= RotateBox(PanelBounds).size.width
  {
    var frame := LogFrame(slots);
    assert RotateBox(PanelBounds).size == Size(68, 160);
    LogFrameOrdered(slots);
    forall c | c in frame
      ensures c.at.x + CharWidth(c.font) * |c.text| <= 68
    {
      assert c.at.x == 2 && c.font == Font4x6 && |c.text| <= LogColumns;
    }
  }

  // ---------------------------------------------------------------------
  // The controller
  // ---------------------------------------------------------------------

  /** The log-screen controller: the 25-slot history and the display it is
      drawn on. `logged` is every entry logged so far, oldest first. */
  class LogScreenController {
    const display: Canvas
    const logHistory: array<Option<LogEntry>>
    ghost var logged: seq<LogEntry>

    /** The history is the one the logged entries leave, and the last frame
        shown, if any, is that history's. */
    ghost predicate Valid()
      reads this, logHistory, display
    {
      logHistory.Length == LogLines &&
      logHistory[..] == HistoryAfter(logged) &&
      (display.frames != [] ==> display.frames[|display.frames| - 1] == LogFrame(logHistory[..]))
    }

    constructor ()
      ensures Valid() && fresh(display) && fresh(logHistory)
      ensures logged == [] && display.frames == []
    {
      display := new Canvas();
      logHistory := new Option<LogEntry>[LogLines](_ => None);
      logged := [];
      new;
      assert logHistory[..] == EmptyHistory();
    }

    /** Pushes an entry onto the front of the history. */
    method Log(entry: LogEntry)
      requires logHistory.Length == LogLines && logHistory[..] == HistoryAfter(logged)
      modifies this`logged, logHistory
      ensures logHistory[..] == Pushed(old(logHistory[..]), entry)
      ensures logged == old(logged) + [entry] && logHistory[..] == HistoryAfter(logged)
    {
      RotateRight(logHistory);
      logHistory[0] := Some(entry);
      logged := logged + [entry];
      assert logged[..|logged| - 1] == old(logged);
    }

    /** Clears the framebuffer, draws every occupied slot at its line, and
        flushes: one more frame, the history's. */
    method FlushLogsToDisplay()
      modifies display
      ensures display.buffer == LogFrame(logHistory[..])
      ensures display.frames == old(display.frames) + [LogFrame(logHistory[..])]
    {
      display.ClearBuffer();
      for index := 0 to logHistory.Length
        invariant display.buffer == LogFrame(logHistory[..index])
        invariant display.frames == old(display.frames)
      {
        assert logHistory[..index + 1][..index] == logHistory[..index];
        match logHistory[index] {
          case Some(text) =>
            var y := (index + 1) * LogLineHeight;
            display.Draw(Text(text, Point(2, y), Font4x6));
          case None =>
        }
      }
      assert logHistory[..logHistory.Length] == logHistory[..];
      display.FlushBuffer();
    }

    /** Logs the line for an event and redraws. An event the log does not
        record, or one whose line does not fit, changes nothing and draws
        nothing; only the latter is an error. */
    method LogEvent(e: ControllerEvent) returns (r: Result<(), CapacityError>)
      requires Valid()
      modifies this, logHistory, display
      ensures Valid()
      ensures BuildEntry(e).None? ==>
        r == Success(()) && logged == old(logged) && logHistory[..] == old(logHistory[..]) &&
        display.frames == old(display.frames) && display.buffer == old(display.buffer)
      ensures BuildEntry(e).Some? && BuildEntry(e).value.Failure? ==>
        r == Failure(CapacityError) && logged == old(logged) && logHistory[..] == old(logHistory[..]) &&
        display.frames == old(display.frames) && display.buffer == old(display.buffer)
      ensures BuildEntry(e).Some? && BuildEntry(e).value.Success? ==>
        r == Success(()) && logged == old(logged) + [BuildEntry(e).value.value] &&
        logHistory[..] == Pushed(old(logHistory[..]), BuildEntry(e).value.value) &&
        display.frames == old(display.frames) + [LogFrame(logHistory[..])]
    {
      var built := BuildEntry(e);
      if built.None? {
        return Success(());
      }
      if built.value.Failure? {
        return Failure(built.value.error);
      }
      LogAndRedraw(built.value.value);
      r := Success(());
    }

    /** The recording path of `LogEvent`: push the entry, then redraw. */
    method LogAndRedraw(entry: LogEntry)
      requires Valid()
      modifies this, logHistory, display
      ensures Valid()
      ensures logged == old(logged) + [entry]
      ensures logHistory[..] == Pushed(old(logHistory[..]), entry)
      ensures display.frames == old(display.frames) + [LogFrame(logHistory[..])]
    {
      Log(entry);
      FlushLogsToDisplay();
    }

    /** Handles one event, discarding a capacity error. */
    method ProcessEvent(e: ControllerEvent)
      requires Valid()
      modifies this, logHistory, display
      ensures Valid()
      ensures logged == old(logged) + (if Message(e).Some? then [Message(e).value] else [])
      ensures Message(e).None? ==>
        display.frames == old(display.frames) && display.buffer == old(display.buffer)
      ensures Message(e).Some? ==> display.frames == old(display.frames) + [LogFrame(logHistory[..])]
    {
      CapacityErrorUnreachable(e);
      BuildEntryIsMessage(e);
      var _ := LogEvent(e);
    }
  }

  /** Three connection-type events in a row, from a fresh controller: the
      top three lines read "conn USB", "conn BLE", "conn USB". */
  method ConnectionTypeRun()
  {
    var usb, ble := Message(ConnectionType(0)), Message(ConnectionType(1));
    assert usb == Some("conn USB") && ble == Some("conn BLE");
    var controller := new LogScreenController();
    controller.ProcessEvent(ConnectionType(0));
    assert controller.logged == ["conn USB"];
    controller.ProcessEvent(ConnectionType(1));
    assert controller.logged == ["conn USB", "conn BLE"];
    controller.ProcessEvent(ConnectionType(0));
    ghost var entries := controller.logged;
    assert entries == ["conn USB", "conn BLE", "conn USB"];
    assert controller.logHistory[..] == HistoryAfter(entries);
    ConnectionTypeScenario();
    assert controller.logHistory[..3] == [Some("conn USB"), Some("conn BLE"), Some("conn USB")];
  }
}
