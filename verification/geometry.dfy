/** The funnel's segment geometry: the trapezoids `main` in funnel.go hands to the drawing
    library, one per drawn segment, with the palette colour each one is filled with. */
module Geometry {
  import Palette
  import Entries

  /** One drawn trapezoid. `topX` and `botX` are half-widths about the vertical centre line;
      `shade` is the position in the ten-entry palette of the segment's fill and stroke colour. */
  datatype Segment = Segment(topY: real, botY: real, topX: real, botX: real, shade: nat)

  datatype Point = Point(x: real, y: real)

  /** The last percentage is exactly zero: it is the apex the funnel tapers to and gets no
      segment of its own. */
  predicate SkipLast(funnel: seq<real>): (b: bool)
    requires |funnel| > 0
    ensures b <==> forall width: int {:trigger HalfWidth(width, funnel[|funnel| - 1])} :: HalfWidth(width, funnel[|funnel| - 1]) == 0.0
  {
    assert HalfWidth(1, funnel[|funnel| - 1]) * 200.0 == funnel[|funnel| - 1];
    funnel[|funnel| - 1] == 0.0
  }

  /** How many segments are drawn. */
  function DrawnCount(funnel: seq<real>): (n: nat)
    requires |funnel| > 0
    ensures n <= |funnel| && |funnel| <= n + 1
    ensures n < |funnel| <==> SkipLast(funnel)
  {
    if SkipLast(funnel) then |funnel| - 1 else |funnel|
  }

  /** The planning never indexes past the colour list: the loop touches `colorPal[j]` only for
      drawn segments `j`, and the colour list has at least that many entries. */
  predicate Drawable(funnel: seq<real>) {
    |funnel| > 0 && DrawnCount(funnel) <= |Palette.Colorpal|
  }

  /** Half the width, in pixels, of a funnel row that is `percent` percent of `width` wide. */
  function HalfWidth(width: int, percent: real): real {
    width as real * percent / 200.0
  }

  /** The colour of a segment. */
  function Color(s: Segment): Palette.RGBA
    requires s.shade < |Palette.Colorpal|
  {
    Palette.Colorpal[s.shade]
  }

  /** The height of each of `n` equal bands. */
  function BandHeight(height: int, n: nat): real
    requires n > 0
  {
    height as real / n as real
  }

  /** Drawn segment `j` of the funnel. */
  function SegmentAt(funnel: seq<real>, width: int, height: int, j: nat): (s: Segment)
    requires Drawable(funnel) && j < DrawnCount(funnel)
    ensures s.botY - s.topY == BandHeight(height, DrawnCount(funnel))
    ensures s.topX * 200.0 == width as real * funnel[j]
    ensures s.botX * 200.0 == width as real * (if j + 1 < |funnel| then funnel[j + 1] else funnel[j])
    ensures s.shade < |Palette.Colorpal|
  {
    var n := DrawnCount(funnel);
    var delta := BandHeight(height, n);
    Segment(j as real * delta, (j + 1) as real * delta,
            HalfWidth(width, funnel[j]),
            if j + 1 < |funnel| then HalfWidth(width, funnel[j + 1]) else HalfWidth(width, funnel[j]),
            Palette.ColorIndices(n)[j])
  }

  /** The segments of a funnel drawn on a `width` by `height` canvas, top to bottom. */
  function Plan(funnel: seq<real>, width: int, height: int): (r: seq<Segment>)
    requires Drawable(funnel)
    ensures |r| == DrawnCount(funnel)
    ensures |r| == |funnel| || (|r| == |funnel| - 1 && funnel[|r|] == 0.0)
  {
    var n := DrawnCount(funnel);
    seq(n, j requires 0 <= j < n => SegmentAt(funnel, width, height, j))
  }

  /** A segment's top edge is its own entry's share of the width and its bottom edge the next
      entry's, so the outline runs on without a step from one segment to the next; the last
      segment is a rectangle, or a triangle down to the apex when the last entry is zero. */
  lemma {:induction false} PlanWidths(funnel: seq<real>, width: int, height: int)
    requires Drawable(funnel)
    ensures var r := Plan(funnel, width, height);
            && (forall j :: 0 <= j < |r| ==> r[j].topX * 200.0 == width as real * funnel[j])
            && (forall j :: 0 <= j < |r| - 1 ==> r[j].botX == r[j + 1].topX)
            && (|r| > 0 && !SkipLast(funnel) ==> r[|r| - 1].botX == r[|r| - 1].topX)
            && (|r| > 0 && SkipLast(funnel) ==> r[|r| - 1].botX == 0.0)
  {
    var r := Plan(funnel, width, height);
    forall j | 0 <= j < |r|
      ensures r[j].topX * 200.0 == width as real * funnel[j]
    {
      PlanAt(funnel, width, height, j);
    }
    forall j | 0 <= j < |r| - 1
      ensures r[j].botX == r[j + 1].topX
    {
      PlanAt(funnel, width, height, j);
      PlanAt(funnel, width, height, j + 1);
    }
    if |r| > 0 {
      PlanAt(funnel, width, height, |r| - 1);
    }
  }

  /** Segment `j` is filled with the `j`-th colour `getColorPal` chooses for the drawn count,
      and that colour list is long enough for every drawn segment. */
  lemma PlanColors(funnel: seq<real>, width: int, height: int)
    requires Drawable(funnel)
    ensures var r := Plan(funnel, width, height);
            && |r| <= |Palette.GetColorPal(|r|)|
            && forall j :: 0 <= j < |r| ==> r[j].shade < |Palette.Colorpal| &&
                                              Color(r[j]) == Palette.GetColorPal(|r|)[j]
  {
    Palette.ColorsFollowIndices(DrawnCount(funnel));
  }

  /** Drawn segment `j` of the plan, with its band edges spelled out. */
  lemma PlanAt(funnel: seq<real>, width: int, height: int, j: nat)
    requires Drawable(funnel) && j < DrawnCount(funnel)
    ensures Plan(funnel, width, height)[j] == SegmentAt(funnel, width, height, j)
    ensures SegmentAt(funnel, width, height, j).topY == j as real * BandHeight(height, DrawnCount(funnel))
    ensures SegmentAt(funnel, width, height, j).botY == (j + 1) as real * BandHeight(height, DrawnCount(funnel))
  {
  }

  /** The segments tile the canvas height in equal bands: the first starts at the top, each
      ends where the next begins, each is `height / n` high, and the last ends at the bottom. */
  lemma {:induction false} PlanTilesHeight(funnel: seq<real>, width: int, height: int)
    requires Drawable(funnel)
    ensures var r := Plan(funnel, width, height);
            && (|r| > 0 ==> r[0].topY == 0.0 && r[|r| - 1].botY == height as real)
            && (forall j :: 0 <= j < |r| - 1 ==> r[j].botY == r[j + 1].topY)
            && (forall j :: 0 <= j < |r| ==> r[j].botY - r[j].topY == BandHeight(height, |r|))
  {
    var r := Plan(funnel, width, height);
    var n := |r|;
    if n > 0 {
      FirstBandAtTop(funnel, width, height);
      LastBandAtBottom(funnel, width, height);
      forall j | 0 <= j < n - 1
        ensures r[j].botY == r[j + 1].topY
      {
        BandsAdjacent(funnel, width, height, j);
      }
      forall j | 0 <= j < n
        ensures r[j].botY - r[j].topY == BandHeight(height, n)
      {
        BandIsEqual(funnel, width, height, j);
      }
    }
  }

  /** The first band starts at the top edge of the canvas. */
  lemma FirstBandAtTop(funnel: seq<real>, width: int, height: int)
    requires Drawable(funnel) && DrawnCount(funnel) > 0
    ensures Plan(funnel, width, height)[0].topY == 0.0
  {
    PlanAt(funnel, width, height, 0);
  }

  /** The last band ends at the bottom edge of the canvas. */
  lemma LastBandAtBottom(funnel: seq<real>, width: int, height: int)
    requires Drawable(funnel) && DrawnCount(funnel) > 0
    ensures Plan(funnel, width, height)[DrawnCount(funnel) - 1].botY == height as real
  {
    var n := DrawnCount(funnel);
    PlanAt(funnel, width, height, n - 1);
    BandsTile(height, n);
  }

  /** Each band ends where the next one begins. */
  lemma BandsAdjacent(funnel: seq<real>, width: int, height: int, j: nat)
    requires Drawable(funnel) && j + 1 < DrawnCount(funnel)
    ensures Plan(funnel, width, height)[j].botY == Plan(funnel, width, height)[j + 1].topY
  {
    PlanAt(funnel, width, height, j);
    PlanAt(funnel, width, height, j + 1);
  }

  /** Every band is `height / n` high. */
  lemma BandIsEqual(funnel: seq<real>, width: int, height: int, j: nat)
    requires Drawable(funnel) && j < DrawnCount(funnel)
    ensures Plan(funnel, width, height)[j].botY - Plan(funnel, width, height)[j].topY
            == BandHeight(height, DrawnCount(funnel))
  {
    PlanAt(funnel, width, height, j);
  }

  /** `n` bands of height `height / n` add up to `height`. */
  lemma BandsTile(height: int, n: nat)
    requires n > 0
    ensures n as real * BandHeight(height, n) == height as real
  {
  }

  /** Multiplying by a non-negative factor keeps the order. */
  lemma MulMonotone(a: real, b: real, d: real)
    requires a <= b && d >= 0.0
    ensures a * d <= b * d
  {
  }

  /** The closed outline the drawing library traces for a segment on a `width`-wide canvas:
      top-left, top-right, bottom-right, bottom-left and back to top-left. */
  function Outline(s: Segment, width: int): (r: seq<Point>)
    ensures |r| == 5 && r[0] == r[4]
    ensures r[0].y == r[1].y == s.topY && r[2].y == r[3].y == s.botY
    // the outline is symmetric about the vertical centre line
    ensures r[0].x + r[1].x == width as real && r[2].x + r[3].x == width as real
    ensures r[1].x - r[0].x == 2.0 * s.topX && r[2].x - r[3].x == 2.0 * s.botX
  {
    var mid := width as real / 2.0;
    [Point(mid - s.topX, s.topY), Point(mid + s.topX, s.topY),
     Point(mid + s.botX, s.botY), Point(mid - s.botX, s.botY),
     Point(mid - s.topX, s.topY)]
  }

  /** The drawing loop of `main` in funnel.go, step for step: every entry in order,
      leaving the loop at the apex entry, the bottom edge falling back to the top edge when
      there is no next entry. It computes exactly the planned segments. */
  method DrawSegments(funnel: seq<real>, width: int, height: int) returns (segs: seq<Segment>)
    requires Drawable(funnel)
    ensures segs == Plan(funnel, width, height)
  {
    var skipLast := funnel[|funnel| - 1] == 0.0;
    var count := if skipLast then |funnel| - 1 else |funnel|;
    var verticalDelta := 0.0;
    if count > 0 {
      verticalDelta := BandHeight(height, count);
    }
    assert count == DrawnCount(funnel);
    var colorIdx := Palette.ColorIndices(count);
    segs := [];
    var j := 0;
    while j < |funnel|
      invariant 0 <= j <= count
      invariant segs == Plan(funnel, width, height)[..j]
    {
      if skipLast && j == |funnel| - 1 {
        break;
      }
      var topY := j as real * verticalDelta;
      var botY := (j + 1) as real * verticalDelta;
      var topX := HalfWidth(width, funnel[j]);
      var botX := topX;
      if j + 1 < |funnel| {
        botX := HalfWidth(width, funnel[j + 1]);
      }
      LoopStepIsPlanned(funnel, width, height, verticalDelta, colorIdx, j);
      assert Plan(funnel, width, height)[..j + 1] == Plan(funnel, width, height)[..j] + [Plan(funnel, width, height)[j]];
      segs := segs + [Segment(topY, botY, topX, botX, colorIdx[j])];
      j := j + 1;
    }
  }

  /** One pass of the drawing loop produces the planned segment. */
  lemma LoopStepIsPlanned(funnel: seq<real>, width: int, height: int, verticalDelta: real, colorIdx: seq<nat>, j: nat)
    requires Drawable(funnel) && j < DrawnCount(funnel)
    requires verticalDelta == BandHeight(height, DrawnCount(funnel))
    requires colorIdx == Palette.ColorIndices(DrawnCount(funnel))
    ensures Plan(funnel, width, height)[j] ==
            Segment(j as real * verticalDelta, (j + 1) as real * verticalDelta,
                    HalfWidth(width, funnel[j]),
                    if j + 1 < |funnel| then HalfWidth(width, funnel[j + 1]) else HalfWidth(width, funnel[j]),
                    colorIdx[j])
  {
    PlanAt(funnel, width, height, j);
  }

  /** Validated entries can always be planned: the count check in validation is what keeps
      `colorPal[j]` in bounds. */
  lemma ValidFunnelDrawable(funnel: seq<real>)
    requires Entries.ValidFunnel(funnel)
    ensures Drawable(funnel)
    ensures DrawnCount(funnel) <= |Palette.GetColorPal(DrawnCount(funnel))|
  {
  }

  /** The colour lookup stays in bounds exactly when at most ten segments are drawn: with
      eleven or more, segment ten would index past the ten colours returned. */
  lemma ColorInBoundsIff(n: nat)
    ensures n <= |Palette.GetColorPal(n)| <==> n <= |Palette.Colorpal|
  {
  }

  /** Colours lighten down the funnel: each drawn segment is lighter than the one above it. */
  lemma {:induction false} ColorsLightenDownward(funnel: seq<real>, width: int, height: int, j: int)
    requires Drawable(funnel)
    requires 0 < j < DrawnCount(funnel)
    ensures Plan(funnel, width, height)[j - 1].shade < Plan(funnel, width, height)[j].shade
    ensures Palette.Lighter(Color(Plan(funnel, width, height)[j - 1]), Color(Plan(funnel, width, height)[j]))
  {
    var r := Plan(funnel, width, height);
    PlanColors(funnel, width, height);
    Palette.ColorsFollowIndices(|r|);
    Palette.ChosenColorsOrdered(|r|, j - 1, j);
  }

  /** For a valid funnel on a canvas of non-negative size, every band lies in [0, height]
      and every half-width in [0, width/2]. */
  lemma {:induction false} SegmentsInCanvas(funnel: seq<real>, width: int, height: int)
    requires Entries.ValidFunnel(funnel)
    requires width >= 0 && height >= 0
    ensures forall j :: 0 <= j < |Plan(funnel, width, height)| ==>
              InCanvas(Plan(funnel, width, height)[j], width, height)
  {
    var r := Plan(funnel, width, height);
    forall j | 0 <= j < |r|
      ensures InCanvas(r[j], width, height)
    {
      SegmentInCanvas(funnel, width, height, j);
    }
  }

  /** The segment's band lies in [0, height] and its half-widths in [0, width/2]. */
  predicate InCanvas(s: Segment, width: int, height: int) {
    && 0.0 <= s.topY <= s.botY <= height as real
    && 0.0 <= s.topX <= width as real / 2.0
    && 0.0 <= s.botX <= width as real / 2.0
  }

  /** Drawn segment `j` of a valid funnel lies inside the canvas. */
  lemma SegmentInCanvas(funnel: seq<real>, width: int, height: int, j: nat)
    requires Entries.ValidFunnel(funnel)
    requires width >= 0 && height >= 0
    requires j < DrawnCount(funnel)
    ensures InCanvas(Plan(funnel, width, height)[j], width, height)
  {
    var n := DrawnCount(funnel);
    var s := Plan(funnel, width, height)[j];
    PlanAt(funnel, width, height, j);
    BandInside(height, n, j);
    assert 0.0 <= s.topY <= s.botY <= height as real;
    HalfWidthInside(width, funnel[j]);
    assert 0.0 <= s.topX <= width as real / 2.0;
    if j + 1 < |funnel| {
      HalfWidthInside(width, funnel[j + 1]);
    }
    assert 0.0 <= s.botX <= width as real / 2.0;
  }

  /** Band `j` of `n` equal bands lies inside [0, height]. */
  lemma BandInside(height: int, n: nat, j: nat)
    requires height >= 0 && j < n
    ensures 0.0 <= j as real * BandHeight(height, n)
    ensures j as real * BandHeight(height, n) <= (j + 1) as real * BandHeight(height, n)
    ensures (j + 1) as real * BandHeight(height, n) <= height as real
  {
    var d := BandHeight(height, n);
    assert d >= 0.0;
    BandsTile(height, n);
    MulMonotone(0.0, j as real, d);
    MulMonotone(j as real, (j + 1) as real, d);
    MulMonotone((j + 1) as real, n as real, d);
  }

  /** An accepted percentage of a non-negative width is a half-width in [0, width/2]. */
  lemma HalfWidthInside(width: int, percent: real)
    requires width >= 0 && Entries.InRange(percent)
    ensures 0.0 <= HalfWidth(width, percent) <= width as real / 2.0
  {
    MulMonotone(0.0, percent, width as real);
    MulMonotone(percent, 100.0, width as real);
  }

  /** Every point of the outline lies on the `width` by `height` canvas. */
  predicate OnCanvas(o: seq<Point>, width: int, height: int) {
    forall k :: 0 <= k < |o| ==> 0.0 <= o[k].x <= width as real && 0.0 <= o[k].y <= height as real
  }

  /** Reflecting the outline about the vertical line x = width/2 gives the outline's own points. */
  predicate MirrorSymmetric(o: seq<Point>, width: int) {
    forall k :: 0 <= k < |o| ==> Point(width as real - o[k].x, o[k].y) in o
  }

  /** Every outline of every segment of a valid funnel lies on the canvas and is its own
      mirror image about the centre line. */
  lemma {:induction false} OutlinesInCanvas(funnel: seq<real>, width: int, height: int)
    requires Entries.ValidFunnel(funnel)
    requires width >= 0 && height >= 0
    ensures forall j :: 0 <= j < |Plan(funnel, width, height)| ==>
              && OnCanvas(Outline(Plan(funnel, width, height)[j], width), width, height)
              && MirrorSymmetric(Outline(Plan(funnel, width, height)[j], width), width)
  {
    var r := Plan(funnel, width, height);
    forall j | 0 <= j < |r|
      ensures OnCanvas(Outline(r[j], width), width, height)
      ensures MirrorSymmetric(Outline(r[j], width), width)
    {
      SegmentInCanvas(funnel, width, height, j);
      OutlineInCanvas(r[j], width, height);
    }
  }

  /** The outline of a segment inside the canvas stays on the canvas and is its own mirror image. */
  lemma OutlineInCanvas(s: Segment, width: int, height: int)
    requires InCanvas(s, width, height)
    ensures OnCanvas(Outline(s, width), width, height)
    ensures MirrorSymmetric(Outline(s, width), width)
  {
    var o := Outline(s, width);
    assert Point(width as real - o[0].x, o[0].y) == o[1];
    assert Point(width as real - o[1].x, o[1].y) == o[0];
    assert Point(width as real - o[2].x, o[2].y) == o[3];
    assert Point(width as real - o[3].x, o[3].y) == o[2];
  }

  /** The worked example: entries 100 70 40 10 0 on a 400 by 600 canvas give four bands of
      height 150; the top one runs from half-width 200 down to 140. */
  lemma ExampleFunnel()
    ensures SkipLast([100.0, 70.0, 40.0, 10.0, 0.0])
    ensures DrawnCount([100.0, 70.0, 40.0, 10.0, 0.0]) == 4
    ensures Plan([100.0, 70.0, 40.0, 10.0, 0.0], 400, 600)[0] == Segment(0.0, 150.0, 200.0, 140.0, 0)
    ensures Plan([100.0, 70.0, 40.0, 10.0, 0.0], 400, 600)[3] == Segment(450.0, 600.0, 20.0, 0.0, 9)
  {
  }

  /** A lone zero entry draws nothing (`main` in funnel.go divides by zero there and leaves
      the loop before using the result). */
  lemma LoneZeroDrawsNothing(width: int, height: int)
    ensures Plan([0.0], width, height) == []
  {
  }
}
