/** The events the keyboard firmware publishes to its controllers, as far as
    the two screen controllers look at them. */
module Events {

  /** Rust's `u8`. */
  newtype uint8 = x: int | 0 <= x < 256

  /** The radio phase the firmware reports with a `BleState` event
      (`Unconnected` is the firmware's `BleState::None`). */
  datatype BleState = Advertising | Connected | Unconnected

  /** One controller event. Only the discriminants that one of the screen
      controllers reacts to are spelled out; every other discriminant of the
      firmware's event type (key presses, modifiers, typing speed, keyboard
      indicators, ...) is `Other`, told apart by an opaque code. */
  datatype ControllerEvent =
    | Layer(layer: uint8)
    | Battery(percent: uint8)
    | BleStateChanged(profile: uint8, phase: BleState)
    | BleProfile(profile: uint8)
    | ChargingState(charging: bool)
    | ConnectionType(kind: uint8)
    | SplitPeripheral(id: nat, connected: bool)
    | SplitCentral(connected: bool)
    | Sleep(sleeping: bool)
    | ClearPeer
    | Other(code: nat)
}
