# Inverse-perspective geometry of mapview.py

mapview.py turns a forward camera image into a bird's-eye view. Eleven ratio parameters,
each set from a 0–100 trackbar, do the placing:

- a top line and a bottom line give a four-corner region of interest, the transformation box;
- the image is cropped to a band, and the box is re-based into the cropped frame;
- a destination rectangle is derived from the box;
- OpenCV maps the box onto that rectangle, on a canvas three times the cropped size.

This project models the arithmetic that produces every one of those coordinates. It also
models the objects that carry them:

- `MyImage` holds a width, a height, the transformation box and, for a cropped image, its
  source image and vertical offset;
- `OpenCvUi` holds the original image and the ratio attributes.

The model has three modules:

- `Geometry` (geometry.dfy) holds the pure arithmetic. It has a line's two ends, the box,
  the crop bounds, the numpy slice length, the re-based box and the destination rectangle.
- `Trackbars` (trackbars.dfy) holds the trackbar table and the conversion from a position
  to a ratio. It replaces setting attributes by name with a record holding one field per
  ratio.
- `MapView` (mapview.dfy) holds the classes `MyImage` and `OpenCvUi`. Their methods update
  the transformation box and the ratio record in place, build the point lists with loops
  and appends, and create the cropped and mapped images.

Arithmetic: Python floats are exact reals. Every `int()` of a float is `Geometry.Trunc`,
which truncates toward zero. Centre and shift ratios can make a position negative, and
truncation then differs from the floor. The points in the transformation box are ints,
as the source's tuples are. The re-based and destination points are reals.

Where a reader might expect different behaviour, the model follows the code:

- A line's ends are clamped one side each. The left end is clamped at 0 and the right end
  at the width; nothing stops a right end below 0 or a left end past the width. Neither
  end is clamped to the whole range [0, width]. `MakeLineOneSidedClamp` exhibits a right end
  at -150 and a left end at 250 on a 100-pixel image. `MakeLineInImage` proves that both
  ends lie in [0, width] while the ratios stay in their trackbar ranges.
- The crop's start is clamped at 0 only and its end at the width only. `CropOneSidedClamp`
  shows a start past the width. `CropInImage` proves the ordered, in-image bounds for
  ratios in their trackbar ranges.
- With every trackbar at its default, the crop keeps rows 0 to 480 of a 480-row image.
  The crop-y default is 0, so the slice starts at row 0 rather than a tenth of the height
  (48 rows) down.
- The code has no check for a singular transform. Degenerate boxes go to OpenCV unchecked.

## Model

| member | source | states |
|---|---|---|
| `Geometry.TruncBounds` | mapview.py:41 | Python's `int()` of a float, `Geometry.Trunc`, moves it toward zero by less than one: rounded down when non-negative, rounded up when negative |
| `Geometry.ClampLow` | mapview.py:43-45 | `int()` then `if v < 0: v = 0`: the result is never negative, with no upper limit |
| `Geometry.ClampHigh` | mapview.py:46-48 | `int()` then `if v > limit: v = limit`: the result never exceeds the limit, with no lower limit |
| `Geometry.MakeLine` | mapview.py:39-49 | two points on one row, `int(height - height * height_ratio)`; the left x is never below 0 and the right x never above the width |
| `Geometry.MakeLineEnds` | mapview.py:40-48 | a negative left end becomes 0, otherwise the left x is the exact end rounded down; a right end at or past the width becomes the width, inside [0, width) it is rounded down, and a negative one is rounded toward zero, so it is not clamped and stays negative when below -1 |
| `Geometry.ClampLowExact` | mapview.py:43-45 | the truncate-then-clamp-at-0 of a start bound: 0 for a negative position, the position rounded down otherwise |
| `Geometry.ClampHighExact` | mapview.py:46-48 | the truncate-then-clamp-at-width of an end bound: the width at or past it, rounded down below it, rounded toward zero (unclamped) when negative |
| `Geometry.MakeLineOneSidedClamp` | mapview.py:43-48 | the clamps are one-sided: on a 100-pixel image a right end of -150 and a left end of 250 come out unclamped |
| `Geometry.MakeLineInImage` | mapview.py:39-49 | for a centre ratio in [-0.5, 0.5], a non-negative width ratio and a height ratio in [0, 1], `0 <= x1 <= x2 <= width` and the row is in [0, height] |
| `Geometry.LineYMonotone` | mapview.py:41 | a larger height ratio never puts a line on a lower row |
| `Geometry.PlacedBox` | mapview.py:55-59 | exactly four corners: top line left and right, then bottom line right and left; corners 0 and 1 share the top row, corners 2 and 3 the bottom row; corners 0 and 3 are at x >= 0, corners 1 and 2 at x <= width |
| `Geometry.PlacedBoxInImage` | mapview.py:55-59 | with the ratios in their trackbar ranges, all four corners lie in the image and each edge runs left to right; if the top line is also at least as high as the bottom line, the top row is not below the bottom row |
| `MapView.MyImage.PlaceTransformationBox` | mapview.py:51-59 | the transformation box becomes the placed box; only that field may change |
| `Geometry.CropBounds` | mapview.py:64-77 | `x_start >= 0` and `x_end <= width`; the vertical start equals `y_cut = int(height * crop_y_ratio)`, the recorded offset; the slice ends at the image bottom |
| `Geometry.SliceLength` | mapview.py:81 | the length a Python slice keeps: at most the axis length, `stop - start` for in-range ordered bounds, 0 when the start is not before a non-negative stop |
| `Geometry.CropOneSidedClamp` | mapview.py:67-72 | the crop start is not clamped from above: a shift ratio of 1 with crop ratio 1 starts the slice at 150 on a 100-pixel image, and that slice is empty |
| `Geometry.CropInImage` | mapview.py:64-81 | for a shift in [-0.5, 0.5] and crop ratios in [0, 1]: `0 <= x_start <= x_end <= width`, `0 <= y_start <= height`, the cropped width is `x_end - x_start` and the cropped height `height - y_start`, so the bottom edge is never cropped |
| `Geometry.CropKeepsBandWidth` | mapview.py:64-72 | while the kept band fits in the image, the cropped width is exactly twice `int(width * (1 - crop_x_ratio) / 2)`, wherever the band is shifted |
| `MapView.MyImage.MakeCroppedByBottomRatios` | mapview.py:61-84 | a fresh image whose size is what slicing to the crop bounds leaves; it records this image as its source and `y_cut` as its offset |
| `Geometry.Projected` | mapview.py:92-95 | the re-based box has as many points as the box |
| `Geometry.ProjectedAt` | mapview.py:94 | each re-based point keeps its corner's x and has y lowered by exactly the offset |
| `Geometry.ProjectRoundTrip` | mapview.py:92-95 | adding the offset back to every re-based y gives the original corners exactly |
| `Geometry.ProjectedIntegral` | mapview.py:94 | every re-based coordinate is a whole number |
| `MapView.MyImage.GetSourcesProjectedTransformationBox` | mapview.py:86-95 | the loop's result is the source box re-based by the recorded offset; nothing is modified |
| `Geometry.SqueezedEdge` | mapview.py:105-112 | the squeezed edge keeps the bottom edge's midpoint and is `int(bottom_width * map_x_ratio)` long |
| `Geometry.StretchedTopY` | mapview.py:114-122 | the stretched top row is never negative; unless clamped it lies `int(box_height * map_y_ratio * 10)` above the bottom row |
| `Geometry.DestinationBox` | mapview.py:105-130 | four points TL, TR, BR, BL of an axis-aligned rectangle: the top corners share x with the bottom corners, the top pair share the stretched top row, the bottom pair share the box's bottom row, the top row is `>= 0`; the bottom edge is centred on the box's bottom edge with the truncated squeezed width |
| `Geometry.DestinationKeepsBottomCorners` | mapview.py:105-112 | with `map_x_ratio = 1` and a level bottom edge with whole-number ends, the rectangle's bottom corners are the box's bottom corners |
| `Geometry.DestinationUpright` | mapview.py:105-124 | for non-negative map ratios and a box whose bottom runs left to right and is not above its top, inside the frame, the rectangle's left edge is not after its right edge and its top row is not below its bottom row |
| `Geometry.PipelineKeepsBottomCorners` | mapview.py:105-130 | for any placed box and any offset, with `map_x_ratio = 1` the destination's bottom corners are the re-based box's bottom corners |
| `MapView.MyImage.InversePerspective` | mapview.py:97-143 | the source points are the re-based box, the destination points are the destination rectangle built by appends, and the canvas requested for the warp is exactly three times this image's width and height |
| `MapView.OpenCvUi.InversePerspective` | mapview.py:218-224 | one pass places the box on the original image and returns an image standing for the requested canvas, three times the crop's slice lengths |
| `MapView.OpenCvUi.OnTrackbarChange` | mapview.py:230-241 | after the loop every ratio attribute holds its trackbar's position converted, the pass has run on those ratios, and the returned image is the canvas requested, three times the crop's slice lengths |
| `MapView.OpenCvUi.constructor` | mapview.py:179-187 | starts from the given positions, converts them and leaves the placed box on the original image |
| `MapView.MyImage.constructor` | mapview.py:29-37 | an image of the given size with no box yet, remembering its source and offset |
| `MapView.TrackbarGeometryInImage` | mapview.py:222-224 | with positions on the bars, the pass's box lies in the image with each edge left to right, and its crop bounds are ordered in the image with the kept band exactly `x_end - x_start` by `height - y_start`; if the top height ratio is also at least the bottom one, the box's top row is not below its bottom row |
| `Trackbars.TrackbarRatio` | mapview.py:239 | `(pct - offset) / 100` gives back the position exactly, and a position in [0, 100] gives a ratio in [-0.5, 0.5] for offset 50 and in [0, 1] for offset 0 |
| `Trackbars.Ratios.With` | mapview.py:240 | setting an attribute by name changes that attribute and no other |
| `Trackbars.IndexOf` | mapview.py:156-168 | every ratio attribute has a trackbar in the table |
| `Trackbars.TrackbarNamesDistinct` | mapview.py:156-168 | no two trackbars set the same attribute |
| `Trackbars.ConvertedDetermines` | mapview.py:230-240 | the positions determine the whole ratio record |
| `Trackbars.ConvertedInRange` | mapview.py:156-168 | positions in [0, 100] give centre and shift ratios in [-0.5, 0.5], all others in [0, 1], so every ratio is in [-0.5, 1.0] |
| `Trackbars.DefaultRatios` | mapview.py:156-168 | the default positions give centres 0, top line 0.2 high and 0.2 wide, bottom line 0.1 high and 0.2 wide, map 1 by 0.1, no crop and no shift |
| `Geometry.DefaultGeometry` | mapview.py:39-81 | on a 640 by 480 image with default ratios the box is (256,384), (384,384), (384,432), (256,432) and the crop keeps columns 0–640 and rows 0–480 |
| `MapView.DefaultScenario` | mapview.py:179-187 | the same default case through the classes: an `OpenCvUi` on a 640 by 480 image places that box, and a further trackbar pass requests a 1920 by 1440 canvas |

## Left out

- The perspective transform: `cv2.getPerspectiveTransform` and `cv2.warpPerspective`
  (mapview.py:132-142) are a foreign library doing floating-point linear algebra and
  resampling. Only the two point lists given to them and the canvas size are modelled.
- Pixel data. An image is its width and height; the channel count and the pixel copy of
  the crop (mapview.py:81) are not modelled. The cropped size is the length of Python's
  slices, negative indices included.
- `MakeLinedImage` (mapview.py:147-154): drawing the box outline with `cv2.line`.
- Windows and trackbar plumbing (mapview.py:183-193, 205, 225-228): `namedWindow`, `imshow`,
  `waitKey`, `createTrackbar`, `destroyWindow` and `Run`. `getTrackbarPos` becomes the
  `positions` argument, one position per table row.
- INI persistence, `LoadIniFile` and `SaveIniFile` (mapview.py:195-216), and image loading
  with `cv2.imread` (mapview.py:180, 244-246). The `OpenCvUi` constructor takes the image
  size and the initial trackbar positions instead.
- The `print` diagnostics.
- `MyImage.ui`: the ratios are passed to each `MyImage` method as a `ui: Ratios` argument
  instead of being read through a reference to the UI object.
- Floating-point rounding: the ratios are whole percentages divided by 100, modelled as
  exact rationals. A product in the program can land just below a whole number, so an
  `int()` there can come out one lower than in the model: `int(100 * 0.29)` is 28 in Python,
  while `CropBounds(100, 100, 0.0, 0.0, 0.29).yCut` is 29. The exact values stated by
  `CropKeepsBandWidth`, `DefaultGeometry`, `DefaultScenario` and the other equalities on
  truncated products hold for exact rationals, not for the program's binary floats.
- `MapView.MyImage.InversePerspective`, `MapView.OpenCvUi.InversePerspective` and
  `MapView.OpenCvUi.OnTrackbarChange`: the image they return has the size of the canvas
  requested at mapview.py:140-141, three times the crop's width and height. What
  `cv2.warpPerspective` returns is not modelled. With Crop X or Crop Y at 100 the crop is
  empty (mapview.py:65-77, 81), the requested canvas has a zero side, and OpenCV then
  falls back to the source size or raises an error instead of producing that canvas.
- `MapView.MyImage.InversePerspective`: requires a four-corner box, which
  `cv2.getPerspectiveTransform` demands. Every box `PlaceTransformationBox` sets has four.
