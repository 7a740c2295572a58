/** The eleven ratio parameters of mapview.py and the trackbar table they come from. The
    source sets each ratio as an attribute named in the table; here they form one record
    with a field per name. */
module Trackbars {

  /** The attribute names of the trackbar table. */
  datatype RatioName =
    | TopCenterRatio | TopHeightRatio | TopWidthRatio
    | BottomCenterRatio | BottomHeightRatio | BottomWidthRatio
    | MapXRatio | MapYRatio
    | CropXRatio | ShiftXRatio | CropYRatio

  /** One row of the table: the ratio it sets, its default position, the offset subtracted
      from a position before it becomes a ratio, and the caption shown beside it. */
  datatype Trackbar = Trackbar(name: RatioName, defaultPct: int, pctOffset: int, caption: string)

  /** Every trackbar runs from 0 to this position. */
  const TrackbarMax: int := 100

  const UiTrackbars: seq<Trackbar> := [
    Trackbar(TopCenterRatio,    50, 50, "Top Line Center"),
    Trackbar(TopHeightRatio,    20,  0, "Top Line Height"),
    Trackbar(TopWidthRatio,     20,  0, "Top Line Width"),
    Trackbar(BottomCenterRatio, 50, 50, "Bottom Line Center"),
    Trackbar(BottomHeightRatio, 10,  0, "Bottom Line Height"),
    Trackbar(BottomWidthRatio,  20,  0, "Bottom Line Width"),
    Trackbar(MapXRatio,        100,  0, "Map X"),
    Trackbar(MapYRatio,         10,  0, "Map Y"),
    Trackbar(CropXRatio,         0,  0, "Crop X"),
    Trackbar(ShiftXRatio,       50, 50, "Crop Shift X"),
    Trackbar(CropYRatio,         0,  0, "Crop Y")
  ]

  /** The ratio attributes, one field per trackbar. */
  datatype Ratios = Ratios(
    topCenterRatio: real, topHeightRatio: real, topWidthRatio: real,
    bottomCenterRatio: real, bottomHeightRatio: real, bottomWidthRatio: real,
    mapXRatio: real, mapYRatio: real,
    cropXRatio: real, shiftXRatio: real, cropYRatio: real)
  {
    /** The attribute called `name`. */
    function Get(name: RatioName): real
    {
      match name
      case TopCenterRatio => topCenterRatio
      case TopHeightRatio => topHeightRatio
      case TopWidthRatio => topWidthRatio
      case BottomCenterRatio => bottomCenterRatio
      case BottomHeightRatio => bottomHeightRatio
      case BottomWidthRatio => bottomWidthRatio
      case MapXRatio => mapXRatio
      case MapYRatio => mapYRatio
      case CropXRatio => cropXRatio
      case ShiftXRatio => shiftXRatio
      case CropYRatio => cropYRatio
    }

    /** The record after setting the attribute called `name` to `v`: that attribute reads
        `v` and every other attribute is unchanged. */
    function With(name: RatioName, v: real): (r: Ratios)
      ensures r.Get(name) == v
      ensures forall other :: other != name ==> r.Get(other) == Get(other)
    {
      match name
      case TopCenterRatio => this.(topCenterRatio := v)
      case TopHeightRatio => this.(topHeightRatio := v)
      case TopWidthRatio => this.(topWidthRatio := v)
      case BottomCenterRatio => this.(bottomCenterRatio := v)
      case BottomHeightRatio => this.(bottomHeightRatio := v)
      case BottomWidthRatio => this.(bottomWidthRatio := v)
      case MapXRatio => this.(mapXRatio := v)
      case MapYRatio => this.(mapYRatio := v)
      case CropXRatio => this.(cropXRatio := v)
      case ShiftXRatio => this.(shiftXRatio := v)
      case CropYRatio => this.(cropYRatio := v)
    }
  }

  /** A trackbar position as a ratio: the offset is taken off and the rest read as a
      percentage. The position is recovered exactly from the ratio, and a position on the
      bar gives a ratio in [-0.5, 0.5] for offset 50 and in [0, 1] for offset 0. */
  function TrackbarRatio(pct: int, pctOffset: int): (ratio: real)
    ensures pctOffset as real + 100.0 * ratio == pct as real
    ensures 0 <= pct <= TrackbarMax && pctOffset == 50 ==> -0.5 <= ratio <= 0.5
    ensures 0 <= pct <= TrackbarMax && pctOffset == 0 ==> 0.0 <= ratio <= 1.0
  {
    (pct - pctOffset) as real / 100.0
  }

  /** The trackbar that sets the attribute called `name`: every attribute has one. */
  function IndexOf(name: RatioName): (i: nat)
    ensures i < |UiTrackbars| && UiTrackbars[i].name == name
  {
    match name
    case TopCenterRatio => 0
    case TopHeightRatio => 1
    case TopWidthRatio => 2
    case BottomCenterRatio => 3
    case BottomHeightRatio => 4
    case BottomWidthRatio => 5
    case MapXRatio => 6
    case MapYRatio => 7
    case CropXRatio => 8
    case ShiftXRatio => 9
    case CropYRatio => 10
  }

  /** No two trackbars set the same attribute. */
  lemma TrackbarNamesDistinct()
    ensures forall i, j :: 0 <= i < j < |UiTrackbars| ==> UiTrackbars[i].name != UiTrackbars[j].name
  {
    forall i, j | 0 <= i < j < |UiTrackbars|
      ensures UiTrackbars[i].name != UiTrackbars[j].name
    {
      assert IndexOf(UiTrackbars[i].name) == i;
      assert IndexOf(UiTrackbars[j].name) == j;
    }
  }

  /** Whether `r` holds, for every trackbar, its position in `positions` as a ratio. */
  predicate ConvertedFrom(r: Ratios, positions: seq<int>)
    requires |positions| == |UiTrackbars|
  {
    forall i :: 0 <= i < |UiTrackbars| ==>
      r.Get(UiTrackbars[i].name) == TrackbarRatio(positions[i], UiTrackbars[i].pctOffset)
  }

  /** The positions determine the whole record: two records converted from the same
      positions are equal. */
  lemma ConvertedDetermines(r1: Ratios, r2: Ratios, positions: seq<int>)
    requires |positions| == |UiTrackbars|
    requires ConvertedFrom(r1, positions) && ConvertedFrom(r2, positions)
    ensures r1 == r2
  {
    forall name: RatioName
      ensures r1.Get(name) == r2.Get(name)
    {
      var i := IndexOf(name);
      assert r1.Get(UiTrackbars[i].name) == r2.Get(UiTrackbars[i].name);
    }
    assert r1.Get(TopCenterRatio) == r2.Get(TopCenterRatio);
    assert r1.Get(TopHeightRatio) == r2.Get(TopHeightRatio);
    assert r1.Get(TopWidthRatio) == r2.Get(TopWidthRatio);
    assert r1.Get(BottomCenterRatio) == r2.Get(BottomCenterRatio);
    assert r1.Get(BottomHeightRatio) == r2.Get(BottomHeightRatio);
    assert r1.Get(BottomWidthRatio) == r2.Get(BottomWidthRatio);
    assert r1.Get(MapXRatio) == r2.Get(MapXRatio);
    assert r1.Get(MapYRatio) == r2.Get(MapYRatio);
    assert r1.Get(CropXRatio) == r2.Get(CropXRatio);
    assert r1.Get(ShiftXRatio) == r2.Get(ShiftXRatio);
    assert r1.Get(CropYRatio) == r2.Get(CropYRatio);
  }

  /** Positions on the bars give centre and shift ratios in [-0.5, 0.5] and every other
      ratio in [0, 1]; so every ratio lies in [-0.5, 1]. */
  lemma ConvertedInRange(r: Ratios, positions: seq<int>)
    requires |positions| == |UiTrackbars| && ConvertedFrom(r, positions)
    requires forall i :: 0 <= i < |positions| ==> 0 <= positions[i] <= TrackbarMax
    ensures -0.5 <= r.topCenterRatio <= 0.5 && -0.5 <= r.bottomCenterRatio <= 0.5
    ensures -0.5 <= r.shiftXRatio <= 0.5
    ensures 0.0 <= r.topHeightRatio <= 1.0 && 0.0 <= r.topWidthRatio <= 1.0
    ensures 0.0 <= r.bottomHeightRatio <= 1.0 && 0.0 <= r.bottomWidthRatio <= 1.0
    ensures 0.0 <= r.mapXRatio <= 1.0 && 0.0 <= r.mapYRatio <= 1.0
    ensures 0.0 <= r.cropXRatio <= 1.0 && 0.0 <= r.cropYRatio <= 1.0
    ensures forall name :: -0.5 <= r.Get(name) <= 1.0
  {
    forall name: RatioName
      ensures -0.5 <= r.Get(name) <= 1.0
      ensures UiTrackbars[IndexOf(name)].pctOffset == 50 ==> r.Get(name) <= 0.5
      ensures UiTrackbars[IndexOf(name)].pctOffset == 0 ==> 0.0 <= r.Get(name)
    {
      var i := IndexOf(name);
      assert r.Get(UiTrackbars[i].name) == TrackbarRatio(positions[i], UiTrackbars[i].pctOffset);
    }
    assert UiTrackbars[IndexOf(TopCenterRatio)].pctOffset == 50;
    assert UiTrackbars[IndexOf(BottomCenterRatio)].pctOffset == 50;
    assert UiTrackbars[IndexOf(ShiftXRatio)].pctOffset == 50;
    assert r.Get(TopHeightRatio) == r.topHeightRatio && r.Get(TopWidthRatio) == r.topWidthRatio;
    assert r.Get(BottomHeightRatio) == r.bottomHeightRatio && r.Get(BottomWidthRatio) == r.bottomWidthRatio;
    assert r.Get(MapXRatio) == r.mapXRatio && r.Get(MapYRatio) == r.mapYRatio;
    assert r.Get(CropXRatio) == r.cropXRatio && r.Get(CropYRatio) == r.cropYRatio;
    assert r.Get(TopCenterRatio) == r.topCenterRatio && r.Get(BottomCenterRatio) == r.bottomCenterRatio;
    assert r.Get(ShiftXRatio) == r.shiftXRatio;
  }

  /** The default positions give the default ratios: centres and shift 0, top line 0.2 high
      and 0.2 wide, bottom line 0.1 high and 0.2 wide, map 1 by 0.1, no crop. */
  lemma DefaultRatios(r: Ratios)
    requires ConvertedFrom(r, seq(|UiTrackbars|, i requires 0 <= i < |UiTrackbars| => UiTrackbars[i].defaultPct))
    ensures r == Ratios(0.0, 0.2, 0.2, 0.0, 0.1, 0.2, 1.0, 0.1, 0.0, 0.0, 0.0)
  {
    var defaults := seq(|UiTrackbars|, i requires 0 <= i < |UiTrackbars| => UiTrackbars[i].defaultPct);
    assert r.Get(UiTrackbars[0].name) == TrackbarRatio(defaults[0], UiTrackbars[0].pctOffset);
    assert r.Get(UiTrackbars[1].name) == TrackbarRatio(defaults[1], UiTrackbars[1].pctOffset);
    assert r.Get(UiTrackbars[2].name) == TrackbarRatio(defaults[2], UiTrackbars[2].pctOffset);
    assert r.Get(UiTrackbars[3].name) == TrackbarRatio(defaults[3], UiTrackbars[3].pctOffset);
    assert r.Get(UiTrackbars[4].name) == TrackbarRatio(defaults[4], UiTrackbars[4].pctOffset);
    assert r.Get(UiTrackbars[5].name) == TrackbarRatio(defaults[5], UiTrackbars[5].pctOffset);
    assert r.Get(UiTrackbars[6].name) == TrackbarRatio(defaults[6], UiTrackbars[6].pctOffset);
    assert r.Get(UiTrackbars[7].name) == TrackbarRatio(defaults[7], UiTrackbars[7].pctOffset);
    assert r.Get(UiTrackbars[8].name) == TrackbarRatio(defaults[8], UiTrackbars[8].pctOffset);
    assert r.Get(UiTrackbars[9].name) == TrackbarRatio(defaults[9], UiTrackbars[9].pctOffset);
    assert r.Get(UiTrackbars[10].name) == TrackbarRatio(defaults[10], UiTrackbars[10].pctOffset);
  }
}
