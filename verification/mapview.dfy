/** The image objects of mapview.py and the pass that turns the trackbar positions into a
    bird's-eye view. An image is kept as its width and height only; the pixels, the
    perspective transform and the windows are not part of this model. */
module MapView {
  import opened Geometry
  import opened Trackbars

  datatype Option<T> = None | Some(value: T)

  /** The top line's centre, width and height ratios. */
  function TopLine(ui: Ratios): LineRatios
  {
    LineRatios(ui.topCenterRatio, ui.topWidthRatio, ui.topHeightRatio)
  }

  /** The bottom line's centre, width and height ratios. */
  function BottomLine(ui: Ratios): LineRatios
  {
    LineRatios(ui.bottomCenterRatio, ui.bottomWidthRatio, ui.bottomHeightRatio)
  }

  /** The crop the ratios ask for on a `width` by `height` image. */
  function CropOf(width: nat, height: nat, ui: Ratios): CropRegion
  {
    CropBounds(width, height, ui.shiftXRatio, ui.cropXRatio, ui.cropYRatio)
  }

  /** An image: its size, the transformation box once placed, and, for a cropped image, the
      image it was cut from and how many rows were cut off that image's top. */
  class MyImage {
    const width: nat
    const height: nat
    var transformationBox: Option<seq<Pixel>>
    const sourceImage: MyImage?
    const sourceOffsetY: Option<int>

    constructor (width: nat, height: nat, sourceImage: MyImage?, sourceOffsetY: Option<int>)
      ensures this.width == width && this.height == height
      ensures this.sourceImage == sourceImage && this.sourceOffsetY == sourceOffsetY
      ensures transformationBox == None
    {
      this.width := width;
      this.height := height;
      this.transformationBox := None;
      this.sourceImage := sourceImage;
      this.sourceOffsetY := sourceOffsetY;
    }

    /** Places the four-corner region of interest from the top and bottom line ratios. Only
        the transformation box changes. */
    method PlaceTransformationBox(ui: Ratios)
      modifies this`transformationBox
      ensures transformationBox == Some(PlacedBox(width, height, TopLine(ui), BottomLine(ui)))
    {
      var box := MakeLine(width, height, ui.topCenterRatio, ui.topWidthRatio, ui.topHeightRatio);
      var bottomLine := MakeLine(width, height, ui.bottomCenterRatio, ui.bottomWidthRatio, ui.bottomHeightRatio);
      box := box + [bottomLine[1]];
      box := box + [bottomLine[0]];
      assert box == MakeLine(width, height, ui.topCenterRatio, ui.topWidthRatio, ui.topHeightRatio)
                    + [bottomLine[1], bottomLine[0]];
      transformationBox := Some(box);
    }

    /** A new image cut to the crop bounds, remembering this image and the number of rows
        cut off the top. Its size is what slicing this image to the bounds leaves. */
    method MakeCroppedByBottomRatios(ui: Ratios) returns (cropped: MyImage)
      ensures fresh(cropped)
      ensures var c := CropOf(width, height, ui);
        cropped.width == SliceLength(c.xStart, c.xEnd, width) &&
        cropped.height == SliceLength(c.yStart, c.yEnd, height)
      ensures cropped.sourceImage == this && cropped.sourceOffsetY == Some(CropOf(width, height, ui).yCut)
      ensures cropped.transformationBox == None
    {
      var c := CropBounds(width, height, ui.shiftXRatio, ui.cropXRatio, ui.cropYRatio);
      cropped := new MyImage(SliceLength(c.xStart, c.xEnd, width), SliceLength(c.yStart, c.yEnd, height),
                             this, Some(c.yCut));
    }

    /** The source image's transformation box in this cropped image's frame, as floats:
        every corner keeps its x and has its y lowered by the crop's offset. */
    method GetSourcesProjectedTransformationBox() returns (box: seq<Point>)
      requires sourceImage != null && sourceImage.transformationBox.Some? && sourceOffsetY.Some?
      ensures box == Projected(sourceImage.transformationBox.value, sourceOffsetY.value)
    {
      var source := sourceImage.transformationBox.value;
      var offsetY := sourceOffsetY.value;
      box := [];
      var i := 0;
      while i < |source|
        invariant 0 <= i <= |source| && |box| == i
        invariant forall j :: 0 <= j < i ==>
          box[j] == Point(source[j].x as real, (source[j].y - offsetY) as real)
      {
        box := box + [Point(source[i].x as real, (source[i].y - offsetY) as real)];
        i := i + 1;
      }
      forall j | 0 <= j < |source|
        ensures box[j] == Projected(source, offsetY)[j]
      {
        ProjectedAt(source, offsetY, j);
      }
    }

    /** The two corner lists the perspective transform is computed from, and the output
        canvas requested from it, three times this image's width and height. */
    method InversePerspective(ui: Ratios) returns (mapped: MyImage, boxSrc: seq<Point>, boxDst: seq<Point>)
      requires sourceImage != null && sourceImage.transformationBox.Some? && sourceOffsetY.Some?
      requires |sourceImage.transformationBox.value| == 4
      ensures boxSrc == Projected(sourceImage.transformationBox.value, sourceOffsetY.value)
      ensures boxDst == DestinationBox(boxSrc, ui.mapXRatio, ui.mapYRatio)
      ensures fresh(mapped) && mapped.width == 3 * width && mapped.height == 3 * height
      ensures mapped.sourceImage == null && mapped.transformationBox == None
    {
      boxSrc := GetSourcesProjectedTransformationBox();
      var boxBottomY := boxSrc[2].y;
      var (boxSqueezedX1, boxSqueezedX2) := SqueezedEdge(boxSrc[3].x, boxSrc[2].x, ui.mapXRatio);
      var boxStretchedTopY := StretchedTopY(boxSrc[1].y, boxBottomY, ui.mapYRatio);
      boxDst := [];
      boxDst := boxDst + [Point(boxSqueezedX1, boxStretchedTopY)];
      boxDst := boxDst + [Point(boxSqueezedX2, boxStretchedTopY)];
      boxDst := boxDst + [Point(boxSqueezedX2, boxBottomY)];
      boxDst := boxDst + [Point(boxSqueezedX1, boxBottomY)];
      mapped := new MyImage(width * 3, height * 3, null, None);
    }
  }

  /** The control window: the loaded image and the ratio attributes the trackbars set. */
  class OpenCvUi {
    const originalIm: MyImage
    var ratios: Ratios

    /** Starts with an image of the given size and the trackbars at `positions`, and runs
        one pass. */
    constructor (width: nat, height: nat, positions: seq<int>)
      requires |positions| == |UiTrackbars|
      ensures fresh(originalIm) && originalIm.width == width && originalIm.height == height
      ensures ConvertedFrom(ratios, positions)
      ensures originalIm.transformationBox == Some(PlacedBox(width, height, TopLine(ratios), BottomLine(ratios)))
    {
      originalIm := new MyImage(width, height, null, None);
      new;
      var _ := OnTrackbarChange(positions);
      var _ := InversePerspective();
    }

    /** One pass: place the box on the original image, crop it, and map the crop. The
        requested output canvas is three times the cropped size. */
    method InversePerspective() returns (mapped: MyImage)
      modifies originalIm`transformationBox
      ensures originalIm.transformationBox ==
        Some(PlacedBox(originalIm.width, originalIm.height, TopLine(ratios), BottomLine(ratios)))
      ensures fresh(mapped)
      ensures var c := CropOf(originalIm.width, originalIm.height, ratios);
        mapped.width == 3 * SliceLength(c.xStart, c.xEnd, originalIm.width) &&
        mapped.height == 3 * SliceLength(c.yStart, c.yEnd, originalIm.height)
    {
      originalIm.PlaceTransformationBox(ratios);
      var croppedIm := originalIm.MakeCroppedByBottomRatios(ratios);
      var boxSrc, boxDst;
      mapped, boxSrc, boxDst := croppedIm.InversePerspective(ratios);
    }

    /** Reads every trackbar's position, sets its ratio, and runs a pass. */
    method OnTrackbarChange(positions: seq<int>) returns (mapped: MyImage)
      requires |positions| == |UiTrackbars|
      modifies this`ratios, originalIm`transformationBox
      ensures ConvertedFrom(ratios, positions)
      ensures originalIm.transformationBox ==
        Some(PlacedBox(originalIm.width, originalIm.height, TopLine(ratios), BottomLine(ratios)))
      ensures fresh(mapped)
      ensures var c := CropOf(originalIm.width, originalIm.height, ratios);
        mapped.width == 3 * SliceLength(c.xStart, c.xEnd, originalIm.width) &&
        mapped.height == 3 * SliceLength(c.yStart, c.yEnd, originalIm.height)
    {
      TrackbarNamesDistinct();
      var i := 0;
      while i < |UiTrackbars|
        invariant 0 <= i <= |UiTrackbars|
        invariant forall j :: 0 <= j < i ==>
          ratios.Get(UiTrackbars[j].name) == TrackbarRatio(positions[j], UiTrackbars[j].pctOffset)
      {
        var trackbar := UiTrackbars[i];
        var valRatio := TrackbarRatio(positions[i], trackbar.pctOffset);
        ratios := ratios.With(trackbar.name, valRatio);
        i := i + 1;
      }
      mapped := InversePerspective();
    }
  }

  /** With the trackbars on their bars, the box lies inside the image with each edge running
      left to right, and the crop bounds are ordered inside the image, so the kept band is
      exactly `xEnd - xStart` by `height - yStart`. When the top line is also set at least as
      high as the bottom line, the box's top edge is not below its bottom edge. */
  lemma TrackbarGeometryInImage(ui: Ratios, positions: seq<int>, width: nat, height: nat)
    requires |positions| == |UiTrackbars| && ConvertedFrom(ui, positions)
    requires forall i :: 0 <= i < |positions| ==> 0 <= positions[i] <= TrackbarMax
    ensures var box := PlacedBox(width, height, TopLine(ui), BottomLine(ui));
      (forall i :: 0 <= i < 4 ==> 0 <= box[i].x <= width && 0 <= box[i].y <= height) &&
      box[0].x <= box[1].x && box[3].x <= box[2].x
    ensures var box := PlacedBox(width, height, TopLine(ui), BottomLine(ui));
      ui.bottomHeightRatio <= ui.topHeightRatio ==> box[0].y <= box[3].y
    ensures var c := CropOf(width, height, ui);
      0 <= c.xStart <= c.xEnd <= width && 0 <= c.yStart <= c.yEnd == height &&
      SliceLength(c.xStart, c.xEnd, width) == c.xEnd - c.xStart &&
      SliceLength(c.yStart, c.yEnd, height) == height - c.yStart
  {
    ConvertedInRange(ui, positions);
    PlacedBoxInImage(width, height, TopLine(ui), BottomLine(ui));
    CropInImage(width, height, ui.shiftXRatio, ui.cropXRatio, ui.cropYRatio);
  }

  /** A 640 by 480 image with the trackbars at their defaults: the box it places and the
      canvas requested by a further pass, 1920 by 1440. */
  method DefaultScenario() returns (box: seq<Pixel>, mappedWidth: nat, mappedHeight: nat)
    ensures box == [Pixel(256, 384), Pixel(384, 384), Pixel(384, 432), Pixel(256, 432)]
    ensures mappedWidth == 1920 && mappedHeight == 1440
  {
    var defaults := seq(|UiTrackbars|, i requires 0 <= i < |UiTrackbars| => UiTrackbars[i].defaultPct);
    var app := new OpenCvUi(640, 480, defaults);
    DefaultRatios(app.ratios);
    DefaultGeometry();
    box := app.originalIm.transformationBox.value;
    var mapped := app.OnTrackbarChange(defaults);
    DefaultRatios(app.ratios);
    mappedWidth, mappedHeight := mapped.width, mapped.height;
  }
}
