/** The display collaborators, seen from outside.

    `MemoryDisplay` is the memory-LCD driver at pixel level, the surface the
    rotating draw targets wrap. `Canvas` is the same panel one level up, as
    the two screen controllers use it: a framebuffer that takes whole draw
    commands, is cleared, and is flushed to the panel. How a command becomes
    pixels (font and image rasterisation) and how a flush picks the changed
    lines belong to the graphics library and the driver. */
module Display {

  import opened Wrappers
  import opened Graphics

  /** The nice!view panel in the driver's orientation: 160 pixels wide and
      68 high; the screens lay out on it turned a quarter, 68 wide and 160
      high. */
  const PanelBounds := Rectangle(Point(0, 0), Size(160, 68))

  /** An error reported by the display bus. */
  datatype BusError = BusError

  type DrawResult = Result<(), BusError>

  /** The driver: a fixed bounding box, the pixel writes its framebuffer has
      received since it was last cleared, the number of flushes so far, and
      the outcome it reports for a draw, which the bus decides. */
  class MemoryDisplay {
    const bounds: Rectangle
    var received: seq<Pixel>
    var flushes: nat
    var outcome: DrawResult

    constructor (bounds: Rectangle, outcome: DrawResult)
      ensures this.bounds == bounds && this.outcome == outcome
      ensures received == [] && flushes == 0
    {
      this.bounds := bounds;
      this.outcome := outcome;
      received := [];
      flushes := 0;
    }

    /** Writes a pixel stream into the framebuffer. */
    method DrawIter(pixels: seq<Pixel>) returns (r: DrawResult)
      modifies this
      ensures received == old(received) + pixels
      ensures r == outcome
      ensures flushes == old(flushes) && outcome == old(outcome)
    {
      received := received + pixels;
      r := outcome;
    }

    /** Clears the framebuffer without touching the panel. */
    method ClearBuffer()
      modifies this
      ensures received == [] && flushes == old(flushes) && outcome == old(outcome)
    {
      received := [];
    }

    /** Sends the changed lines of the framebuffer to the panel. */
    method FlushBuffer()
      modifies this
      ensures flushes == old(flushes) + 1
      ensures received == old(received) && outcome == old(outcome)
    {
      flushes := flushes + 1;
    }
  }

  /** The panel at command level: the commands drawn since the framebuffer
      was last cleared, and every frame flushed so far, oldest first. The
      number of frames is the number of redraws. Drawing is total here: the
      firmware treats a failed draw as fatal and stops. */
  class Canvas {
    var buffer: seq<DrawCommand>
    var frames: seq<seq<DrawCommand>>

    constructor ()
      ensures buffer == [] && frames == []
    {
      buffer := [];
      frames := [];
    }

    method ClearBuffer()
      modifies this
      ensures buffer == [] && frames == old(frames)
    {
      buffer := [];
    }

    method Draw(c: DrawCommand)
      modifies this
      ensures buffer == old(buffer) + [c] && frames == old(frames)
    {
      buffer := buffer + [c];
    }

    method FlushBuffer()
      modifies this
      ensures frames == old(frames) + [buffer] && buffer == old(buffer)
    {
      frames := frames + [buffer];
    }
  }
}
