/** The quarter-turn coordinate transform shared by both rotating draw
    targets: a logical pixel `(x, y)` is written to the parent surface at
    `(W - y, x)`, where `W` is the parent's width, and the logical bounding
    box is the parent's with width and height swapped. */
module Rotation {

  import opened Graphics

  /** Where logical point `p` lands on a parent surface `parentWidth` wide. */
  function RotatePoint(p: Point, parentWidth: int): (q: Point)
    ensures UnrotatePoint(q, parentWidth) == p
  {
    Point(parentWidth - p.y, p.x)
  }

  /** The logical point that lands on physical point `q`. */
  function UnrotatePoint(q: Point, parentWidth: int): Point
  {
    Point(q.y, parentWidth - q.x)
  }

  /** Every physical point is hit by exactly one logical point. */
  lemma RotateIsBijective(p: Point, q: Point, parentWidth: int)
    ensures RotatePoint(UnrotatePoint(q, parentWidth), parentWidth) == q
    ensures RotatePoint(p, parentWidth) == q <==> p == UnrotatePoint(q, parentWidth)
  {
  }

  /** The pixel stream handed to the parent: each pixel moved by
      `RotatePoint`, colours, count and order kept. */
  function RotatePixels(pixels: seq<Pixel>, parentWidth: int): (r: seq<Pixel>)
    ensures |r| == |pixels|
    ensures forall i :: 0 <= i < |pixels| ==>
      r[i].color == pixels[i].color && r[i].at == RotatePoint(pixels[i].at, parentWidth)
  {
    if pixels == [] then []
    else [Pixel(RotatePoint(pixels[0].at, parentWidth), pixels[0].color)]
         + RotatePixels(pixels[1..], parentWidth)
  }

  /** Rotating a concatenation is concatenating the rotations, so drawing a
      stream in several calls lands the same pixels as drawing it in one. */
  lemma {:induction false} RotatePixelsAppend(a: seq<Pixel>, b: seq<Pixel>, parentWidth: int)
    ensures RotatePixels(a + b, parentWidth) == RotatePixels(a, parentWidth) + RotatePixels(b, parentWidth)
  {
    if a != [] {
      assert (a + b)[1..] == a[1..] + b;
      RotatePixelsAppend(a[1..], b, parentWidth);
    } else {
      assert a + b == b;
    }
  }

  /** The logical bounding box: the parent's corner, width and height swapped. */
  function RotateBox(bb: Rectangle): (r: Rectangle)
    ensures r.topLeft == bb.topLeft
    ensures r.size.width * r.size.height == bb.size.width * bb.size.height
    ensures r.size.width == bb.size.height
  {
    Rectangle(bb.topLeft, Size(bb.size.height, bb.size.width))
  }

  /** Swapping twice gives back the parent's box. */
  lemma RotateBoxInvolution(bb: Rectangle)
    ensures RotateBox(RotateBox(bb)) == bb
    ensures RotateBox(bb).size.width * RotateBox(bb).size.height == bb.size.width * bb.size.height
  {
  }

  /** For a parent box anchored at the origin, a logical point lands inside it
      exactly when `1 <= y <= W` and `0 <= x < H`: the formula is `W - y`,
      not `W - 1 - y`. */
  lemma InsideParentIff(p: Point, bb: Rectangle)
    requires bb.topLeft == Point(0, 0)
    ensures Contains(bb, RotatePoint(p, bb.size.width)) <==>
      1 <= p.y <= bb.size.width && 0 <= p.x < bb.size.height
  {
  }

  /** Inside the logical bounding box, only the top row `y = 0` misses the
      parent: it lands one column past the parent's last one. */
  lemma LogicalBoxMissesOneRow(p: Point, bb: Rectangle)
    requires bb.topLeft == Point(0, 0)
    requires Contains(RotateBox(bb), p)
    ensures Contains(bb, RotatePoint(p, bb.size.width)) <==> p.y != 0
    ensures p.y == 0 ==> RotatePoint(p, bb.size.width).x == bb.size.width
  {
  }

  /** The logical origin goes to `(W, 0)`, outside the parent. */
  lemma OriginLandsPastLastColumn(bb: Rectangle)
    requires bb.topLeft == Point(0, 0)
    ensures RotatePoint(Point(0, 0), bb.size.width) == Point(bb.size.width, 0)
    ensures !Contains(bb, RotatePoint(Point(0, 0), bb.size.width))
  {
  }
}
