/** The connection icons of the status screen: bit-packed monochrome
    bitmaps, one row after another, each row padded to whole bytes (a set
    bit is a lit pixel). */
module Glyphs {

  import opened Events
  import opened Graphics

  const BluetoothWidth: nat := 18
  const UsbWidth: nat := 27

  /** Bluetooth icon for the radio phase "none" (18 x 30). */
  const BluetoothNoneData: seq<uint8> := [
    0xFF, 0x7F, 0xC0,
    0xFF, 0x3F, 0xC0,
    0xFF, 0x1F, 0xC0,
    0xFF, 0x0F, 0xC0,
    0xFF, 0x07, 0xC0,
    0xFF, 0x23, 0xC0,
    0x3F, 0x31, 0xC0,
    0x1F, 0x38, 0xC0,
    0x8F, 0x3C, 0x40,
    0xC7, 0x38, 0xC0,
    0xE3, 0xB1, 0xC0,
    0xF1, 0xE3, 0xC0,
    0xF8, 0xE7, 0xC0,
    0xFC, 0x7F, 0xC0,
    0xFE, 0x3F, 0xC0,
    0xFE, 0x1F, 0xC0,
    0xFC, 0x0F, 0xC0,
    0xF8, 0x07, 0xC0,
    0xF1, 0x23, 0xC0,
    0xE3, 0x31, 0xC0,
    0xC7, 0x38, 0xC0,
    0xCF, 0x3C, 0x40,
    0xFF, 0x38, 0x00,
    0xFF, 0x31, 0xC0,
    0xFF, 0x23, 0xC0,
    0xFF, 0x07, 0xC0,
    0xFF, 0x0F, 0xC0,
    0xFF, 0x1F, 0xC0,
    0xFF, 0x3F, 0xC0,
    0xFF, 0x7F, 0xC0
  ]

  /** Bluetooth icon for the phase "advertising" (18 x 30). */
  const BluetoothAdvertisingData: seq<uint8> := [
    0xFF, 0x7F, 0xC0,
    0xFF, 0x3F, 0xC0,
    0xFF, 0x1F, 0xC0,
    0xFF, 0x0F, 0xC0,
    0xFF, 0x07, 0xC0,
    0xFF, 0x23, 0xC0,
    0xFF, 0x31, 0xC0,
    0xFF, 0x38, 0xC0,
    0xCF, 0x3C, 0xC0,
    0xC7, 0x38, 0xC0,
    0xE3, 0x31, 0xC0,
    0xF1, 0x23, 0xC0,
    0xF8, 0x07, 0xC0,
    0xFC, 0x0F, 0xC0,
    0xFE, 0x1F, 0xC0,
    0xFE, 0x1F, 0xC0,
    0xFC, 0x0F, 0xC0,
    0xF8, 0x07, 0xC0,
    0xF1, 0x23, 0xC0,
    0xE3, 0x31, 0xC0,
    0xC7, 0x38, 0xC0,
    0xCF, 0x3C, 0xC0,
    0xFF, 0x38, 0xC0,
    0xFF, 0x31, 0xC0,
    0xFF, 0x23, 0xC0,
    0xFF, 0x07, 0xC0,
    0xFF, 0x0F, 0xC0,
    0xFF, 0x1F, 0xC0,
    0xFF, 0x3F, 0xC0,
    0xFF, 0x7F, 0xC0
  ]

  /** Bluetooth icon for the phase "connected" (18 x 30). */
  const BluetoothConnectedData: seq<uint8> := [
    0xFF, 0x7F, 0xC0,
    0xFF, 0x3F, 0xC0,
    0xFF, 0x1F, 0xC0,
    0xFF, 0x0F, 0xC0,
    0xFF, 0x07, 0xC0,
    0xFF, 0x23, 0xC0,
    0xFF, 0x31, 0xC0,
    0xFF, 0x38, 0xC0,
    0xCF, 0x3C, 0xC0,
    0xC7, 0x38, 0xC0,
    0xE3, 0x31, 0xC0,
    0xF1, 0x23, 0xC0,
    0x98, 0x06, 0x40,
    0x3C, 0x0F, 0x00,
    0x66, 0x19, 0x80,
    0x66, 0x19, 0x80,
    0x3C, 0x0F, 0x00,
    0x98, 0x06, 0x40,
    0xF1, 0x23, 0xC0,
    0xE3, 0x31, 0xC0,
    0xC7, 0x38, 0xC0,
    0xCF, 0x3C, 0xC0,
    0xFF, 0x38, 0xC0,
    0xFF, 0x31, 0xC0,
    0xFF, 0x23, 0xC0,
    0xFF, 0x07, 0xC0,
    0xFF, 0x0F, 0xC0,
    0xFF, 0x1F, 0xC0,
    0xFF, 0x3F, 0xC0,
    0xFF, 0x7F, 0xC0
  ]

  /** USB icon (27 x 12). */
  const UsbData: seq<uint8> := [
    0xFF, 0xF9, 0xFF, 0xE0,
    0xFF, 0xC0, 0xFF, 0xE0,
    0xFF, 0x99, 0xFF, 0xE0,
    0x8F, 0x3F, 0xFF, 0x60,
    0x06, 0x7F, 0xFF, 0x20,
    0x00, 0x00, 0x00, 0x00,
    0x07, 0xF3, 0xFF, 0x20,
    0x8F, 0xF9, 0xFF, 0x60,
    0xFF, 0xFC, 0xFF, 0xE0,
    0xFF, 0xFE, 0x63, 0xE0,
    0xFF, 0xFF, 0x03, 0xE0,
    0xFF, 0xFF, 0xC3, 0xE0
  ]

  /** The size each icon is drawn at: 18 by 30 for the Bluetooth icons, 27
      by 12 for the USB icon. */
  function GlyphSize(g: Glyph): Size
  {
    if g == Usb then Size(UsbWidth, 12) else Size(BluetoothWidth, 30)
  }

  /** The bitmap of each icon, at the width it is drawn with. */
  function Bitmap(g: Glyph): ImageRaw
  {
    match g
    case BluetoothNone => ImageRaw(BluetoothNoneData, BluetoothWidth)
    case BluetoothAdvertising => ImageRaw(BluetoothAdvertisingData, BluetoothWidth)
    case BluetoothConnected => ImageRaw(BluetoothConnectedData, BluetoothWidth)
    case Usb => ImageRaw(UsbData, UsbWidth)
  }

  /** Each icon holds whole rows only, and has the size its anchor in the
      layout was chosen for: the three Bluetooth icons are 30 rows of 3
      bytes at width 18, the USB icon 12 rows of 4 bytes at width 27. */
  lemma GlyphDimensions(g: Glyph)
    ensures |Bitmap(g).data| == GlyphSize(g).height * BytesPerRow(GlyphSize(g).width)
    ensures ImageSize(Bitmap(g)) == GlyphSize(g)
  {
  }

  /** The four icons are four different images. */
  lemma GlyphsDistinct(g: Glyph, h: Glyph)
    requires g != h
    ensures Bitmap(g) != Bitmap(h)
  {
    BitmapsDistinct();
  }

  lemma BitmapsDistinct()
    ensures BluetoothNoneData != BluetoothAdvertisingData
    ensures BluetoothNoneData != BluetoothConnectedData
    ensures BluetoothAdvertisingData != BluetoothConnectedData
    ensures UsbData != BluetoothNoneData && UsbData != BluetoothAdvertisingData
    ensures UsbData != BluetoothConnectedData
  {
  }
}
