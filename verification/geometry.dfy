/** Ratio-to-pixel geometry of the inverse-perspective mapper: the arithmetic that
    `MyImage` in mapview.py performs on its width and height. Python floats are
    modelled as exact reals and Python's int() as truncation toward zero. */
module Geometry {

  /** A corner of the transformation box as the source keeps it: a pair of ints. */
  datatype Pixel = Pixel(x: int, y: int)

  /** A point handed to the perspective transform: a pair of floats. */
  datatype Point = Point(x: real, y: real)

  /** The centre, width and height ratios that place one horizontal line. */
  datatype LineRatios = LineRatios(center: real, width: real, height: real)

  /** Bounds of the kept slice of the image, and the offset recorded for the cropped image. */
  datatype CropRegion = CropRegion(xStart: int, xEnd: int, yStart: int, yEnd: int, yCut: int)

  /** Python's int() applied to a float: truncation toward zero, which is not the floor
      for negative arguments. */
  function Trunc(x: real): int
  {
    if x < 0.0 then -((-x).Floor) else x.Floor
  }

  /** Truncation moves a value toward zero by less than one. */
  lemma TruncBounds(x: real)
    ensures 0.0 <= x ==> Trunc(x) as real <= x < Trunc(x) as real + 1.0
    ensures x < 0.0 ==> Trunc(x) as real - 1.0 < x <= Trunc(x) as real
  {
  }

  lemma TruncMonotone(a: real, b: real)
    requires a <= b
    ensures Trunc(a) <= Trunc(b)
  {
  }

  lemma TruncOfInt(n: int)
    ensures Trunc(n as real) == n
  {
  }

  /** A non-negative real lies between exactly one pair of consecutive integers. */
  lemma TruncUnique(x: real, n: int)
    requires 0.0 <= x && n as real <= x < n as real + 1.0
    ensures Trunc(x) == n
  {
  }

  lemma MulMonotone(a: real, b: real, c: real)
    requires 0.0 <= a && b <= c
    ensures a * b <= a * c
  {
    assert a * c - a * b == a * (c - b);
  }

  /** A fraction in [0, 1] of a non-negative quantity lies between 0 and the quantity. */
  lemma FractionBetween(a: real, r: real)
    requires 0.0 <= a && 0.0 <= r <= 1.0
    ensures 0.0 <= a * r <= a
  {
    MulMonotone(a, 0.0, r);
    MulMonotone(a, r, 1.0);
  }

  /** Whether a float holds a whole number, as every coordinate derived from the box's ints does. */
  predicate Integral(r: real)
  {
    r.Floor as real == r
  }

  /** int() followed by the source's `if v < 0: v = 0`: the clamp applied to a left or
      start bound, which stops at 0 and has no upper limit. */
  function ClampLow(x: real): (v: int)
    ensures 0 <= v
  {
    var t := Trunc(x);
    if t < 0 then 0 else t
  }

  /** int() followed by the source's `if v > limit: v = limit`: the clamp applied to a right
      or end bound, which stops at the limit and has no lower limit. */
  function ClampHigh(x: real, limit: int): (v: int)
    ensures v <= limit
  {
    var t := Trunc(x);
    if t > limit then limit else t
  }

  /** A low-clamped bound is 0 for a negative position and the position rounded down
      otherwise. */
  lemma ClampLowExact(x: real)
    ensures x < 0.0 ==> ClampLow(x) == 0
    ensures 0.0 <= x ==> ClampLow(x) as real <= x < ClampLow(x) as real + 1.0
  {
    TruncBounds(x);
  }

  /** A high-clamped bound is the limit for a position at or past it, the position rounded
      down below it, and the position rounded toward zero (so not clamped) when negative. */
  lemma ClampHighExact(x: real, limit: nat)
    ensures limit as real <= x ==> ClampHigh(x, limit) == limit
    ensures 0.0 <= x < limit as real ==> ClampHigh(x, limit) as real <= x < ClampHigh(x, limit) as real + 1.0
    ensures x < 0.0 ==> ClampHigh(x, limit) as real - 1.0 < x <= ClampHigh(x, limit) as real
  {
    TruncBounds(x);
    if limit as real <= x {
      TruncMonotone(limit as real, x);
      TruncOfInt(limit);
    }
  }

  /** A span around a centre inside [0, limit] clamps to ordered bounds inside [0, limit]. */
  lemma ClampedSpan(center: real, half: real, limit: nat)
    requires 0.0 <= center <= limit as real && 0.0 <= half
    ensures 0 <= ClampLow(center - half) <= ClampHigh(center + half, limit) <= limit
  {
    TruncMonotone(center - half, center + half);
    TruncMonotone(center - half, limit as real);
    TruncOfInt(limit);
    TruncMonotone(0.0, center + half);
    TruncOfInt(0);
  }

  /** A value between two integers truncates to a value between them. */
  lemma TruncBetween(x: real, lo: int, hi: int)
    requires lo as real <= x <= hi as real
    ensures lo <= Trunc(x) <= hi
  {
    TruncMonotone(lo as real, x);
    TruncMonotone(x, hi as real);
    TruncOfInt(lo);
    TruncOfInt(hi);
  }

  // ---------------------------------------------------------------------------
  // Lines and the transformation box
  // ---------------------------------------------------------------------------

  /** The exact horizontal position `ratio` of the width right of the image's centre: the
      centre of a line, and the centre of the kept band of a crop. */
  function CenterAt(width: nat, centerRatio: real): real
  {
    width as real / 2.0 + width as real * centerRatio
  }

  /** Half the exact length of a line. */
  function LineHalf(width: nat, widthRatio: real): real
  {
    width as real * widthRatio / 2.0
  }

  /** The row of a line placed `heightRatio` of the image height above the bottom. */
  function LineY(height: nat, heightRatio: real): int
  {
    Trunc(height as real - height as real * heightRatio)
  }

  /** A horizontal segment, left point first, on the row `heightRatio` of the height above
      the bottom. Its left end is clamped at 0 and its right end at the image width. */
  function MakeLine(width: nat, height: nat, centerRatio: real, widthRatio: real, heightRatio: real): (line: seq<Pixel>)
    ensures |line| == 2
    ensures line[0].y == line[1].y == LineY(height, heightRatio)
    ensures 0 <= line[0].x && line[1].x <= width
  {
    var center := CenterAt(width, centerRatio);
    var y := LineY(height, heightRatio);
    var x1 := ClampLow(center - LineHalf(width, widthRatio));
    var x2 := ClampHigh(center + LineHalf(width, widthRatio), width);
    [Pixel(x1, y), Pixel(x2, y)]
  }

  /** Each end of a line is its exact position rounded toward zero, except that a negative
      left end becomes 0 and a right end at or past the width becomes the width; nothing
      stops the right end going negative or the left end passing the width. */
  lemma MakeLineEnds(width: nat, height: nat, centerRatio: real, widthRatio: real, heightRatio: real)
    ensures var line := MakeLine(width, height, centerRatio, widthRatio, heightRatio);
      var left := CenterAt(width, centerRatio) - LineHalf(width, widthRatio);
      var right := CenterAt(width, centerRatio) + LineHalf(width, widthRatio);
      (left < 0.0 ==> line[0].x == 0) &&
      (0.0 <= left ==> line[0].x as real <= left < line[0].x as real + 1.0) &&
      (width as real <= right ==> line[1].x == width) &&
      (0.0 <= right < width as real ==> line[1].x as real <= right < line[1].x as real + 1.0) &&
      (right < 0.0 ==> line[1].x as real - 1.0 < right <= line[1].x as real)
  {
    var left := CenterAt(width, centerRatio) - LineHalf(width, widthRatio);
    var right := CenterAt(width, centerRatio) + LineHalf(width, widthRatio);
    ClampLowExact(left);
    ClampHighExact(right, width);
  }

  /** The clamping is one-sided: a line centred far enough to the left has its right end
      below 0, and one centred far enough to the right has its left end beyond the width. */
  lemma MakeLineOneSidedClamp()
    ensures MakeLine(100, 100, -2.0, 0.0, 0.0)[1].x == -150
    ensures MakeLine(100, 100, 2.0, 0.0, 0.0)[0].x == 250
  {
  }

  /** With the centre inside the image, a non-negative width and a height ratio in [0, 1],
      both ends lie in the image, left before right, and the row lies in the image. */
  lemma MakeLineInImage(width: nat, height: nat, centerRatio: real, widthRatio: real, heightRatio: real)
    requires -0.5 <= centerRatio <= 0.5 && 0.0 <= widthRatio && 0.0 <= heightRatio <= 1.0
    ensures var line := MakeLine(width, height, centerRatio, widthRatio, heightRatio);
      0 <= line[0].x <= line[1].x <= width && 0 <= line[0].y <= height
  {
    var center := CenterAt(width, centerRatio);
    var half := LineHalf(width, widthRatio);
    CenterInside(width, centerRatio);
    MulMonotone(width as real, 0.0, widthRatio);
    ClampedSpan(center, half, width);
    RowInside(height, heightRatio);
  }

  /** A centre ratio in [-0.5, 0.5] puts the centre inside the image. */
  lemma CenterInside(width: nat, centerRatio: real)
    requires -0.5 <= centerRatio <= 0.5
    ensures 0.0 <= CenterAt(width, centerRatio) <= width as real
  {
    FractionBetween(width as real, centerRatio + 0.5);
    var w := width as real;
    assert w * (centerRatio + 0.5) == w * centerRatio + w * 0.5;
    assert CenterAt(width, centerRatio) == w * (centerRatio + 0.5);
    assert 0.0 <= w * (centerRatio + 0.5) <= w;
  }

  /** A height ratio in [0, 1] puts the row inside the image. */
  lemma RowInside(height: nat, heightRatio: real)
    requires 0.0 <= heightRatio <= 1.0
    ensures 0 <= LineY(height, heightRatio) <= height
  {
    FractionBetween(height as real, heightRatio);
    TruncBetween(height as real - height as real * heightRatio, 0, height);
  }

  /** A line placed higher above the bottom lies on a row nearer the top. */
  lemma LineYMonotone(height: nat, lower: real, higher: real)
    requires lower <= higher
    ensures LineY(height, higher) <= LineY(height, lower)
  {
    var h := height as real;
    MulMonotone(h, lower, higher);
    TruncMonotone(h - h * higher, h - h * lower);
    assert LineY(height, higher) == Trunc(h - h * higher);
    assert LineY(height, lower) == Trunc(h - h * lower);
  }

  /** The region of interest: the top line's left and right corners followed by the bottom
      line's right and left corners, so that the four corners trace the quadrilateral. */
  function PlacedBox(width: nat, height: nat, top: LineRatios, bottom: LineRatios): (box: seq<Pixel>)
    ensures |box| == 4
    ensures var t := MakeLine(width, height, top.center, top.width, top.height);
      box[0] == t[0] && box[1] == t[1]
    ensures var b := MakeLine(width, height, bottom.center, bottom.width, bottom.height);
      box[2] == b[1] && box[3] == b[0]
    ensures box[0].y == box[1].y == LineY(height, top.height)
    ensures box[2].y == box[3].y == LineY(height, bottom.height)
    ensures 0 <= box[0].x && 0 <= box[3].x && box[1].x <= width && box[2].x <= width
  {
    var topLine := MakeLine(width, height, top.center, top.width, top.height);
    var bottomLine := MakeLine(width, height, bottom.center, bottom.width, bottom.height);
    topLine + [bottomLine[1], bottomLine[0]]
  }

  /** With every ratio in its trackbar range the box lies inside the image and its edges
      run left to right; when the top line is also placed at least as high as the bottom
      line, its top edge is not below its bottom edge. */
  lemma PlacedBoxInImage(width: nat, height: nat, top: LineRatios, bottom: LineRatios)
    requires -0.5 <= top.center <= 0.5 && 0.0 <= top.width && 0.0 <= top.height <= 1.0
    requires -0.5 <= bottom.center <= 0.5 && 0.0 <= bottom.width && 0.0 <= bottom.height <= 1.0
    ensures var box := PlacedBox(width, height, top, bottom);
      (forall i :: 0 <= i < 4 ==> 0 <= box[i].x <= width && 0 <= box[i].y <= height) &&
      box[0].x <= box[1].x && box[3].x <= box[2].x
    ensures var box := PlacedBox(width, height, top, bottom);
      bottom.height <= top.height ==> box[0].y <= box[3].y
  {
    MakeLineInImage(width, height, top.center, top.width, top.height);
    MakeLineInImage(width, height, bottom.center, bottom.width, bottom.height);
    if bottom.height <= top.height {
      LineYMonotone(height, bottom.height, top.height);
    }
  }

  // ---------------------------------------------------------------------------
  // Cropping
  // ---------------------------------------------------------------------------

  /** Half of the kept band of a crop: `width * (1 - cropXRatio) / 2` truncated. */
  function KeepSide(width: nat, cropXRatio: real): int
  {
    Trunc(width as real * (1.0 - cropXRatio) / 2.0)
  }

  /** The crop of MakeCroppedByBottomRatios: keep `1 - cropXRatio` of the width around a
      centre shifted by `shiftXRatio`, and cut `cropYRatio` of the height off the top. The
      x bounds are clamped one-sided like a line's ends; the y slice starts at the recorded
      offset, the truncated `height * cropYRatio`, and always runs to the image bottom. */
  function CropBounds(width: nat, height: nat, shiftXRatio: real, cropXRatio: real, cropYRatio: real): (c: CropRegion)
    ensures 0 <= c.xStart && c.xEnd <= width
    ensures c.yCut == Trunc(height as real * cropYRatio)
    ensures c.yStart == c.yCut && c.yEnd == height
  {
    var xCenter := CenterAt(width, shiftXRatio);
    var xKeepSide := KeepSide(width, cropXRatio);
    var xStart := ClampLow(xCenter - xKeepSide as real);
    var xEnd := ClampHigh(xCenter + xKeepSide as real, width);
    var yCut := Trunc(height as real * cropYRatio);
    var heightKeep := height - yCut;
    var yStart := Trunc((height - heightKeep) as real);
    TruncOfInt(height - heightKeep);
    CropRegion(xStart, xEnd, yStart, height, yCut)
  }

  /** How many elements a Python (and numpy) slice `[start:stop]` of a length-`n` axis
      keeps: negative indices count from the end, and both ends are then clamped to the axis. */
  function SliceLength(start: int, stop: int, n: nat): (len: nat)
    ensures len <= n
    ensures 0 <= start <= stop <= n ==> len == stop - start
    ensures 0 <= stop <= start ==> len == 0
  {
    var a := SliceIndex(start, n);
    var b := SliceIndex(stop, n);
    if b < a then 0 else b - a
  }

  function SliceIndex(i: int, n: nat): (k: nat)
    ensures k <= n
    ensures 0 <= i <= n ==> k == i
    ensures n < i ==> k == n
  {
    if i < 0 then (if i + n < 0 then 0 else i + n) else if i > n then n else i
  }

  /** The crop is not clamped on the far side: a shift past the right edge starts the
      slice beyond the width, and the numpy slice is then empty. */
  lemma CropOneSidedClamp()
    ensures CropBounds(100, 100, 1.0, 1.0, 0.0).xStart == 150
    ensures SliceLength(150, 100, 100) == 0
  {
  }

  /** With the shift in [-0.5, 0.5] and both crop ratios in [0, 1], the bounds are ordered
      inside the image, the kept slice runs from the offset to the bottom, and the cropped
      image is exactly `xEnd - xStart` wide and `height - yStart` high. */
  lemma CropInImage(width: nat, height: nat, shiftXRatio: real, cropXRatio: real, cropYRatio: real)
    requires -0.5 <= shiftXRatio <= 0.5 && 0.0 <= cropXRatio <= 1.0 && 0.0 <= cropYRatio <= 1.0
    ensures var c := CropBounds(width, height, shiftXRatio, cropXRatio, cropYRatio);
      0 <= c.xStart <= c.xEnd <= width && 0 <= c.yStart <= c.yEnd == height &&
      SliceLength(c.xStart, c.xEnd, width) == c.xEnd - c.xStart &&
      SliceLength(c.yStart, height, height) == height - c.yStart
  {
    BandInImage(width, shiftXRatio, cropXRatio);
    CutInImage(height, cropYRatio);
  }

  /** The kept band of a crop with the shift in [-0.5, 0.5] and the crop ratio in [0, 1]
      clamps to ordered bounds inside the width. */
  lemma BandInImage(width: nat, shiftXRatio: real, cropXRatio: real)
    requires -0.5 <= shiftXRatio <= 0.5 && 0.0 <= cropXRatio <= 1.0
    ensures var center := CenterAt(width, shiftXRatio);
      var side := KeepSide(width, cropXRatio);
      0 <= ClampLow(center - side as real) <= ClampHigh(center + side as real, width) <= width
  {
    CenterInside(width, shiftXRatio);
    KeepSideInImage(width, cropXRatio);
    ClampedSpan(CenterAt(width, shiftXRatio), KeepSide(width, cropXRatio) as real, width);
  }

  /** Half the kept band for a crop ratio in [0, 1] is between 0 and the width. */
  lemma KeepSideInImage(width: nat, cropXRatio: real)
    requires 0.0 <= cropXRatio <= 1.0
    ensures 0 <= KeepSide(width, cropXRatio) <= width
  {
    FractionBetween(width as real, 1.0 - cropXRatio);
    TruncBetween(width as real * (1.0 - cropXRatio) / 2.0, 0, width);
  }

  /** The rows cut off the top for a crop ratio in [0, 1] are between 0 and the height. */
  lemma CutInImage(height: nat, cropYRatio: real)
    requires 0.0 <= cropYRatio <= 1.0
    ensures 0 <= Trunc(height as real * cropYRatio) <= height
  {
    FractionBetween(height as real, cropYRatio);
    TruncBetween(height as real * cropYRatio, 0, height);
  }

  /** When the kept band fits inside the image, the cropped width is exactly twice the
      truncated half of `width * (1 - cropXRatio)`: the band keeps its width wherever it
      is shifted. */
  lemma CropKeepsBandWidth(width: nat, height: nat, shiftXRatio: real, cropXRatio: real, cropYRatio: real)
    requires cropXRatio <= 1.0
    requires 0.0 <= CenterAt(width, shiftXRatio) - KeepSide(width, cropXRatio) as real
    requires CenterAt(width, shiftXRatio) + KeepSide(width, cropXRatio) as real <= width as real
    ensures var c := CropBounds(width, height, shiftXRatio, cropXRatio, cropYRatio);
      c.xEnd - c.xStart == 2 * KeepSide(width, cropXRatio)
  {
    var center := CenterAt(width, shiftXRatio);
    MulMonotone(width as real, 0.0, 1.0 - cropXRatio);
    TruncMonotone(0.0, width as real * (1.0 - cropXRatio) / 2.0);
    TruncOfInt(0);
    var side := KeepSide(width, cropXRatio);
    BandWidth(center, side, width);
  }

  /** A band of whole half-width `side` inside [0, limit] clamps to exactly `2 * side`. */
  lemma BandWidth(center: real, side: nat, limit: nat)
    requires 0.0 <= center - side as real && center + side as real <= limit as real
    ensures ClampHigh(center + side as real, limit) - ClampLow(center - side as real) == 2 * side
  {
    TruncBounds(center);
    var f := Trunc(center);
    TruncUnique(center - side as real, f - side);
    TruncUnique(center + side as real, f + side);
    TruncMonotone(center + side as real, limit as real);
    TruncOfInt(limit);
  }

  // ---------------------------------------------------------------------------
  // Re-basing the box into the cropped frame
  // ---------------------------------------------------------------------------

  /** The box as float points in the cropped frame: each x kept, each y lowered by the
      vertical offset of the crop. */
  function Projected(box: seq<Pixel>, offsetY: int): (r: seq<Point>)
    ensures |r| == |box|
  {
    if box == [] then []
    else [Point(box[0].x as real, (box[0].y - offsetY) as real)] + Projected(box[1..], offsetY)
  }

  /** The inverse re-basing: points back in the source frame, each y raised by the offset. */
  function Unprojected(pts: seq<Point>, offsetY: int): (r: seq<Point>)
    ensures |r| == |pts|
  {
    if pts == [] then []
    else [Point(pts[0].x, pts[0].y + offsetY as real)] + Unprojected(pts[1..], offsetY)
  }

  /** The box's own corners as float points, in the source frame. */
  function AsPoints(box: seq<Pixel>): (r: seq<Point>)
    ensures |r| == |box|
  {
    if box == [] then [] else [Point(box[0].x as real, box[0].y as real)] + AsPoints(box[1..])
  }

  /** Each projected point keeps its corner's x and has its y lowered by exactly the offset. */
  lemma {:induction false} ProjectedAt(box: seq<Pixel>, offsetY: int, i: nat)
    requires i < |box|
    ensures Projected(box, offsetY)[i] == Point(box[i].x as real, (box[i].y - offsetY) as real)
  {
    if i > 0 {
      ProjectedAt(box[1..], offsetY, i - 1);
    }
  }

  /** Adding the offset back reproduces the original corners exactly. */
  lemma {:induction false} ProjectRoundTrip(box: seq<Pixel>, offsetY: int)
    ensures Unprojected(Projected(box, offsetY), offsetY) == AsPoints(box)
  {
    if box != [] {
      ProjectRoundTrip(box[1..], offsetY);
      var p := Projected(box, offsetY);
      assert p[1..] == Projected(box[1..], offsetY);
    }
  }

  /** Every coordinate of a projected box is a whole number. */
  lemma ProjectedIntegral(box: seq<Pixel>, offsetY: int)
    ensures forall i :: 0 <= i < |box| ==>
      Integral(Projected(box, offsetY)[i].x) && Integral(Projected(box, offsetY)[i].y)
  {
    forall i | 0 <= i < |box|
      ensures Integral(Projected(box, offsetY)[i].x) && Integral(Projected(box, offsetY)[i].y)
    {
      ProjectedAt(box, offsetY, i);
    }
  }

  // ---------------------------------------------------------------------------
  // The destination rectangle
  // ---------------------------------------------------------------------------

  /** The squeezed length of the bottom edge: its width times `mapXRatio`, truncated. */
  function SqueezedWidth(bottomWidth: real, mapXRatio: real): int
  {
    Trunc(bottomWidth * mapXRatio)
  }

  /** The stretched height of the box: its height times ten times `mapYRatio`, truncated. */
  function StretchedHeight(boxHeight: real, mapYRatio: real): int
  {
    Trunc(boxHeight * (mapYRatio * 10.0))
  }

  /** The bottom edge squeezed by `mapXRatio` about its own centre: its ends keep their
      midpoint and lie the truncated squeezed width apart. */
  function SqueezedEdge(x1: real, x2: real, mapXRatio: real): (e: (real, real))
    ensures e.0 + e.1 == x1 + x2
    ensures e.1 - e.0 == SqueezedWidth(x2 - x1, mapXRatio) as real
  {
    var width := x2 - x1;
    var center := x1 + width / 2.0;
    var squeezed := SqueezedWidth(width, mapXRatio);
    (center - squeezed as real / 2.0, center + squeezed as real / 2.0)
  }

  /** The row of the stretched top edge: the truncated box height times ten times
      `mapYRatio` above the bottom row, and never above row 0. */
  function StretchedTopY(topY: real, bottomY: real, mapYRatio: real): (y: real)
    ensures 0.0 <= y
    ensures var stretched := StretchedHeight(bottomY - topY, mapYRatio) as real;
      (0.0 <= bottomY - stretched ==> bottomY - y == stretched) &&
      (bottomY - stretched < 0.0 ==> y == 0.0)
  {
    var boxHeight := bottomY - topY;
    var stretchedHeight := StretchedHeight(boxHeight, mapYRatio);
    var y := bottomY - stretchedHeight as real;
    if y < 0.0 then 0.0 else y
  }

  /** The rectangle the box is mapped onto, listed top-left, top-right, bottom-right,
      bottom-left: the bottom edge squeezed by `mapXRatio` about its own centre and kept
      on its row, the height stretched by ten times `mapYRatio`, the top clamped at row 0,
      and the top edge directly above the squeezed bottom edge. */
  function DestinationBox(src: seq<Point>, mapXRatio: real, mapYRatio: real): (dst: seq<Point>)
    requires |src| == 4
    ensures |dst| == 4
    ensures dst[0].x == dst[3].x && dst[1].x == dst[2].x
    ensures dst[0].y == dst[1].y && dst[2].y == dst[3].y == src[2].y
    ensures 0.0 <= dst[0].y
    ensures dst[2].x + dst[3].x == src[2].x + src[3].x
    ensures dst[2].x - dst[3].x == SqueezedWidth(src[2].x - src[3].x, mapXRatio) as real
    ensures var stretched := StretchedHeight(src[2].y - src[1].y, mapYRatio) as real;
      (0.0 <= src[2].y - stretched ==> dst[3].y - dst[0].y == stretched) &&
      (src[2].y - stretched < 0.0 ==> dst[0].y == 0.0)
  {
    var bottom := SqueezedEdge(src[3].x, src[2].x, mapXRatio);
    var topY := StretchedTopY(src[1].y, src[2].y, mapYRatio);
    [Point(bottom.0, topY), Point(bottom.1, topY), Point(bottom.1, src[2].y), Point(bottom.0, src[2].y)]
  }

  /** With `mapXRatio` 1 and a level bottom edge with whole-number ends, the rectangle's
      bottom corners are the box's own bottom corners. */
  lemma DestinationKeepsBottomCorners(src: seq<Point>, mapYRatio: real)
    requires |src| == 4 && Integral(src[2].x) && Integral(src[3].x) && src[2].y == src[3].y
    ensures var dst := DestinationBox(src, 1.0, mapYRatio);
      dst[2] == src[2] && dst[3] == src[3]
  {
    var n := src[2].x.Floor - src[3].x.Floor;
    assert (src[2].x - src[3].x) * 1.0 == n as real;
    TruncOfInt(n);
    var dst := DestinationBox(src, 1.0, mapYRatio);
    assert dst[2].x - dst[3].x == src[2].x - src[3].x;
    assert dst[2].x == src[2].x && dst[3].x == src[3].x;
    assert dst[2] == Point(src[2].x, src[2].y) && dst[3] == Point(src[3].x, src[3].y);
  }

  /** A box whose bottom edge runs left to right, whose top is not below its bottom and whose
      bottom row is inside the cropped frame maps, for non-negative map ratios, onto an
      upright rectangle: left edge not after right edge, top row not below bottom row. */
  lemma DestinationUpright(src: seq<Point>, mapXRatio: real, mapYRatio: real)
    requires |src| == 4 && src[3].x <= src[2].x && src[1].y <= src[2].y && 0.0 <= src[2].y
    requires 0.0 <= mapXRatio && 0.0 <= mapYRatio
    ensures var dst := DestinationBox(src, mapXRatio, mapYRatio);
      dst[0].x <= dst[1].x && dst[0].y <= dst[3].y
  {
    assert 0.0 <= (src[2].x - src[3].x) * mapXRatio;
    assert 0.0 <= (src[2].y - src[1].y) * (mapYRatio * 10.0);
  }

  /** Through the whole pipeline, with `mapXRatio` 1 the rectangle's bottom corners are the
      re-based bottom corners of the placed box, whatever the other ratios. */
  lemma PipelineKeepsBottomCorners(width: nat, height: nat, top: LineRatios, bottom: LineRatios,
                                   offsetY: int, mapYRatio: real)
    ensures var src := Projected(PlacedBox(width, height, top, bottom), offsetY);
      var dst := DestinationBox(src, 1.0, mapYRatio);
      dst[2] == src[2] && dst[3] == src[3]
  {
    var box := PlacedBox(width, height, top, bottom);
    ProjectedIntegral(box, offsetY);
    ProjectedAt(box, offsetY, 2);
    ProjectedAt(box, offsetY, 3);
    DestinationKeepsBottomCorners(Projected(box, offsetY), mapYRatio);
  }

  /** A 640 by 480 image with every ratio at its trackbar default. */
  lemma DefaultGeometry()
    ensures PlacedBox(640, 480, LineRatios(0.0, 0.2, 0.2), LineRatios(0.0, 0.2, 0.1))
         == [Pixel(256, 384), Pixel(384, 384), Pixel(384, 432), Pixel(256, 432)]
    ensures CropBounds(640, 480, 0.0, 0.0, 0.0) == CropRegion(0, 640, 0, 480, 0)
    ensures SliceLength(0, 640, 640) == 640 && SliceLength(0, 480, 480) == 480
  {
  }
}
