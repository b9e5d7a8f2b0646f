/** The nice!view display as the log screen uses it: the memory-LCD driver
    behind the same quarter-turn transform as the status screen's rotating
    draw target, plus the driver's clear and flush passed straight through. */
module NiceView {

  import opened Graphics
  import opened Rotation
  import opened Display

  class NiceView {
    const parent: MemoryDisplay

    /** Takes an already-built driver; building it from the SPI bus and the
        chip-select pin is not part of this model. */
    constructor (parent: MemoryDisplay)
      ensures this.parent == parent
    {
      this.parent := parent;
    }

    /** Clears the driver's framebuffer without touching the panel. */
    method ClearBuffer()
      modifies parent
      ensures parent.received == []
      ensures parent.flushes == old(parent.flushes) && parent.outcome == old(parent.outcome)
    {
      parent.ClearBuffer();
    }

    /** Sends the changed lines of the framebuffer to the panel. */
    method FlushBuffer()
      modifies parent
      ensures parent.flushes == old(parent.flushes) + 1
      ensures parent.received == old(parent.received) && parent.outcome == old(parent.outcome)
    {
      parent.FlushBuffer();
    }

    /** Hands the rotated pixel stream to the driver and returns the driver's
        result as it is. */
    method DrawIter(pixels: seq<Pixel>) returns (r: DrawResult)
      modifies parent
      ensures parent.received == old(parent.received) + RotatePixels(pixels, parent.bounds.size.width)
      ensures r == old(parent.outcome)
      ensures parent.flushes == old(parent.flushes) && parent.outcome == old(parent.outcome)
    {
      var parentWidth := parent.bounds.size.width;
      r := parent.DrawIter(RotatePixels(pixels, parentWidth));
    }

    /** The logical box: the driver's corner, width and height swapped. */
    function BoundingBox(): (bb: Rectangle)
      ensures bb.topLeft == parent.bounds.topLeft
      ensures RotateBox(bb) == parent.bounds
    {
      RotateBox(parent.bounds)
    }
  }

  /** On the nice!view panel the logical box is 68 wide and 160 high, and a
      logical point inside it reaches the panel unless it is on the top row. */
  lemma NiceViewLogicalBox(p: Point)
    requires Contains(RotateBox(PanelBounds), p)
    ensures RotateBox(PanelBounds).size == Size(68, 160)
    ensures Contains(PanelBounds, RotatePoint(p, PanelBounds.size.width)) <==> p.y != 0
  {
    LogicalBoxMissesOneRow(p, PanelBounds);
  }
}
