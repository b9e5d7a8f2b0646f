/** The drawing vocabulary of the embedded graphics library, reduced to what
    the screens use: integer points, sizes and rectangles, monochrome pixels,
    and the two kinds of draw command the controllers issue (a bit-packed
    image or a line of text in a mono font). */
module Graphics {

  import opened Events

  datatype Point = Point(x: int, y: int)

  datatype Size = Size(width: nat, height: nat)

  datatype Rectangle = Rectangle(topLeft: Point, size: Size)

  datatype BinaryColor = On | Off

  datatype Pixel = Pixel(at: Point, color: BinaryColor)

  /** The mono fonts the screens use, by cell size. */
  datatype Font = Font10x20 | Font7x13Bold | Font9x15 | Font4x6

  /** A raw monochrome image: rows of bit-packed bytes, `width` pixels a row. */
  datatype ImageRaw = ImageRaw(data: seq<uint8>, width: nat)

  /** The connection icons the status screen draws; their bitmaps are
      constant data. */
  datatype Glyph = BluetoothNone | BluetoothAdvertising | BluetoothConnected | Usb

  /** One draw command, in the coordinates the controllers lay out in.
      Text is always drawn in `BinaryColor.Off` by both screens. */
  datatype DrawCommand =
    | Image(glyph: Glyph, at: Point)
    | Text(text: string, at: Point, font: Font)

  /** Bytes per row of a one-bit-per-pixel image: the row is padded to a
      whole byte. */
  function BytesPerRow(width: nat): (n: nat)
    ensures 8 * n >= width
    ensures n == 0 || 8 * (n - 1) < width
  {
    (width + 7) / 8
  }

  /** The size an image takes: its height is the number of whole rows its
      data holds (a trailing partial row is ignored). */
  function ImageSize(raw: ImageRaw): (s: Size)
    ensures s.width == raw.width
    ensures raw.width > 0 ==> s.height * BytesPerRow(raw.width) <= |raw.data|
    ensures raw.width > 0 ==> |raw.data| < (s.height + 1) * BytesPerRow(raw.width)
  {
    if raw.width == 0 then Size(0, 0)
    else Size(raw.width, |raw.data| / BytesPerRow(raw.width))
  }

  /** Cell width of a mono font. */
  function CharWidth(f: Font): nat
  {
    match f
    case Font10x20 => 10
    case Font7x13Bold => 7
    case Font9x15 => 9
    case Font4x6 => 4
  }

  /** Whether a point lies in a rectangle (right and bottom edges excluded). */
  predicate Contains(r: Rectangle, p: Point)
  {
    r.topLeft.x <= p.x < r.topLeft.x + r.size.width &&
    r.topLeft.y <= p.y < r.topLeft.y + r.size.height
  }
}
