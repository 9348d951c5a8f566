/** Geometry of the canvas fallback: where the source photo is drawn on the square
    canvas, and the coordinates handed to the decorative frame, corner, pattern and
    final-fill drawing calls. Only the coordinates are modelled, not the raster the
    drawing calls produce. */
module CanvasLayout {
  import opened Basics
  import opened StyleCatalog

  /** Side of the square canvas both pipelines draw on. */
  const CanvasSide: real := 1024.0

  /** Where `drawImage` puts the photo: scale, top-left corner and drawn size. */
  datatype Placement = Placement(scale: real, x: real, y: real, width: real, height: real)

  /** `Math.min(a, b)`. */
  function MinReal(a: real, b: real): real {
    if b < a then b else a
  }

  /** Scale the photo by `min(1024 / w, 1024 / h)` and centre it. */
  function Letterbox(w: real, h: real): Placement
    requires w > 0.0 && h > 0.0
  {
    var scale := MinReal(CanvasSide / w, CanvasSide / h);
    var scaledWidth := w * scale;
    var scaledHeight := h * scale;
    Placement(scale, (CanvasSide - scaledWidth) / 2.0, (CanvasSide - scaledHeight) / 2.0, scaledWidth, scaledHeight)
  }

  /** The drawn photo fits the canvas, fills it along one side, keeps the photo's aspect
      ratio and has equal margins on opposite sides. */
  lemma LetterboxFits(w: real, h: real)
    requires w > 0.0 && h > 0.0
    ensures var p := Letterbox(w, h);
      && 0.0 < p.width <= CanvasSide && 0.0 < p.height <= CanvasSide
      && (p.width == CanvasSide || p.height == CanvasSide)
      && p.x >= 0.0 && p.y >= 0.0
      && p.x + p.width + p.x == CanvasSide && p.y + p.height + p.y == CanvasSide
      && p.width * h == p.height * w
  {
    var p := Letterbox(w, h);
    var sx, sy := CanvasSide / w, CanvasSide / h;
    assert sx * w == CanvasSide && sy * h == CanvasSide;
    if sy < sx {
      assert p.scale == sy;
      assert p.height == CanvasSide;
      assert p.width == w * sy < w * sx == CanvasSide;
    } else {
      assert p.scale == sx;
      assert p.width == CanvasSide;
      assert p.height == h * sx <= h * sy == CanvasSide;
    }
  }

  datatype Point = Point(x: int, y: int)
  datatype Rect = Rect(x: int, y: int, width: int, height: int)

  /** Margin of `addEgyptianElements`'s border and arm length of its corner marks. */
  const FrameMargin: int := 20
  const CornerArm: int := 40

  /** The `strokeRect` of `addEgyptianElements`: the border sits FrameMargin pixels in
      from every edge of the canvas. */
  function FrameRect(width: int, height: int): (r: Rect)
    ensures r.x == FrameMargin && r.x + r.width == width - FrameMargin
    ensures r.y == FrameMargin && r.y + r.height == height - FrameMargin
  {
    Rect(FrameMargin, FrameMargin, width - FrameMargin * 2, height - FrameMargin * 2)
  }

  /** The four three-point polylines of `drawEgyptianCorners`, in drawing order:
      top-left, top-right, bottom-left, bottom-right. */
  function CornerMarks(width: int, height: int, margin: int): seq<seq<Point>> {
    var c := CornerArm;
    [ [Point(margin, margin + c), Point(margin, margin), Point(margin + c, margin)],
      [Point(width - margin - c, margin), Point(width - margin, margin), Point(width - margin, margin + c)],
      [Point(margin, height - margin - c), Point(margin, height - margin), Point(margin + c, height - margin)],
      [Point(width - margin - c, height - margin), Point(width - margin, height - margin), Point(width - margin, height - margin - c)] ]
  }

  /** Each corner mark bends at a corner of the border rectangle, and both of its arms
      are axis-aligned with length CornerArm. */
  lemma CornersSitOnFrame(width: int, height: int)
    ensures var r, m := FrameRect(width, height), CornerMarks(width, height, FrameMargin);
      && |m| == 4
      && m[0][1] == Point(r.x, r.y) && m[1][1] == Point(r.x + r.width, r.y)
      && m[2][1] == Point(r.x, r.y + r.height) && m[3][1] == Point(r.x + r.width, r.y + r.height)
      && (forall k :: 0 <= k < 4 ==>
            |m[k]| == 3 && Distance(m[k][0], m[k][1]) == CornerArm && Distance(m[k][1], m[k][2]) == CornerArm)
  {
  }

  /** Length of an axis-aligned segment; -1 for a diagonal one. */
  function Distance(a: Point, b: Point): int {
    if a.x == b.x then Abs(a.y - b.y) else if a.y == b.y then Abs(a.x - b.x) else -1
  }

  function Abs(n: int): nat {
    if n < 0 then -n else n
  }

  /** One `moveTo`/`lineTo`/`lineTo` chevron of the top border pattern. */
  datatype Chevron = Chevron(start: Point, apex: Point, end: Point)

  function ChevronAt(x: int): Chevron {
    Chevron(Point(x, 50), Point(x + 10, 40), Point(x + 20, 50))
  }

  /** One `arc` of the side patterns. */
  datatype Circle = Circle(center: Point, radius: int)

  /** Everything `addEgyptianOverlays` hands to the drawing calls, in drawing order. */
  datatype Overlay = Overlay(frame: Rect, chevrons: seq<Chevron>, circles: seq<Circle>)

  /** The chevrons of the top border: one every 30 pixels from `x` while below `limit`. */
  function Chevrons(x: int, limit: int): (c: seq<Chevron>)
    ensures |c| == if x < limit then (limit - x - 1) / 30 + 1 else 0
    decreases limit - x
  {
    if x < limit then [ChevronAt(x)] + Chevrons(x + 30, limit) else []
  }

  /** The circles of the side patterns: a left and a right circle every 40 pixels from
      `y` while below `limit`. */
  function CirclePairs(y: int, width: int, limit: int): (c: seq<Circle>)
    ensures |c| == if y < limit then 2 * ((limit - y - 1) / 40 + 1) else 0
    decreases limit - y
  {
    if y < limit then [Circle(Point(60, y), 8), Circle(Point(width - 60, y), 8)] + CirclePairs(y + 40, width, limit)
    else []
  }

  /** Everything `addEgyptianOverlays` draws on a canvas of the given size. */
  function Overlays(width: int, height: int): (o: Overlay)
    ensures o.frame.x == 40 && o.frame.x + o.frame.width == width - 40
    ensures o.frame.y == 40 && o.frame.y + o.frame.height == height - 40
  {
    Overlay(Rect(40, 40, width - 80, height - 80), Chevrons(60, width - 60), CirclePairs(100, width, height - 100))
  }

  /** The k-th chevron starts 30k pixels after the first, every chevron starts below the
      limit, and the next one would not. */
  lemma {:induction false} ChevronsSpaced(x: int, limit: int)
    ensures var c := Chevrons(x, limit);
      && (forall k :: 0 <= k < |c| ==> c[k] == ChevronAt(x + 30 * k) && x + 30 * k < limit)
      && (|c| == 0 || x + 30 * (|c| - 1) < limit)
      && x + 30 * |c| >= limit
    decreases limit - x
  {
    if x < limit {
      ChevronsSpaced(x + 30, limit);
      var c, rest := Chevrons(x, limit), Chevrons(x + 30, limit);
      assert c == [ChevronAt(x)] + rest;
      forall k | 0 < k < |c|
        ensures c[k] == ChevronAt(x + 30 * k) && x + 30 * k < limit
      {
        assert c[k] == rest[k - 1];
        assert x + 30 + 30 * (k - 1) == x + 30 * k;
      }
    }
  }

  /** Circles come in (left, right) pairs 40 pixels apart, at x = 60 and x = width - 60,
      every pair below the limit, and the next pair would not be. */
  lemma {:induction false} CirclePairsSpaced(y: int, width: int, limit: int)
    ensures var c := CirclePairs(y, width, limit);
      && |c| % 2 == 0
      && (forall k :: 0 <= k < |c| / 2 ==>
            c[2 * k] == Circle(Point(60, y + 40 * k), 8)
            && c[2 * k + 1] == Circle(Point(width - 60, y + 40 * k), 8)
            && y + 40 * k < limit)
      && (|c| == 0 || y + 40 * (|c| / 2 - 1) < limit)
      && y + 40 * (|c| / 2) >= limit
    decreases limit - y
  {
    if y < limit {
      CirclePairsSpaced(y + 40, width, limit);
      var c, rest := CirclePairs(y, width, limit), CirclePairs(y + 40, width, limit);
      assert c == [Circle(Point(60, y), 8), Circle(Point(width - 60, y), 8)] + rest;
      forall k | 0 < k < |c| / 2
        ensures c[2 * k] == Circle(Point(60, y + 40 * k), 8)
        ensures c[2 * k + 1] == Circle(Point(width - 60, y + 40 * k), 8)
        ensures y + 40 * k < limit
      {
        assert c[2 * k] == rest[2 * (k - 1)] && c[2 * k + 1] == rest[2 * (k - 1) + 1];
        assert y + 40 + 40 * (k - 1) == y + 40 * k;
      }
    }
  }

  /** On the 1024 x 1024 canvas the frame is inset by 40, and there are 31 chevrons
      and 21 pairs of circles. */
  lemma OverlaysOnCanvas()
    ensures Overlays(1024, 1024).frame == Rect(40, 40, 944, 944)
    ensures |Overlays(1024, 1024).chevrons| == 31
    ensures |Overlays(1024, 1024).circles| == 42
  {
    var o := Overlays(1024, 1024);
    ChevronsSpaced(60, 964);
    CirclePairsSpaced(100, 1024, 924);
  }

  /** `addEgyptianOverlays`: the frame, then a chevron every 30 pixels from x = 60 while
      x < width - 60, then a pair of circles (left, right) every 40 pixels from y = 100
      while y < height - 100. */
  method AddEgyptianOverlays(width: int, height: int) returns (o: Overlay)
    ensures o == Overlays(width, height)
  {
    var frame := Rect(40, 40, width - 80, height - 80);
    var chevrons: seq<Chevron> := [];
    var x := 60;
    while x < width - 60
      invariant chevrons + Chevrons(x, width - 60) == Chevrons(60, width - 60)
      decreases width - 60 - x
    {
      assert Chevrons(x, width - 60) == [ChevronAt(x)] + Chevrons(x + 30, width - 60);
      chevrons := chevrons + [ChevronAt(x)];
      x := x + 30;
    }
    var circles: seq<Circle> := [];
    var y := 100;
    while y < height - 100
      invariant circles + CirclePairs(y, width, height - 100) == CirclePairs(100, width, height - 100)
      decreases height - 100 - y
    {
      var pair := [Circle(Point(60, y), 8), Circle(Point(width - 60, y), 8)];
      assert CirclePairs(y, width, height - 100) == pair + CirclePairs(y + 40, width, height - 100);
      circles := circles + pair;
      y := y + 40;
    }
    o := Overlay(frame, chevrons, circles);
  }

  /** The fill of the radial vignette of `addFinalEnhancements`: transparent black at the
      centre, 30% black at a radius of half the canvas width. */
  datatype FillStyle = SolidColor(color: string) | RadialVignette(cx: real, cy: real, outerRadius: real)

  function Vignette(width: real, height: real): FillStyle {
    RadialVignette(width / 2.0, height / 2.0, width / 2.0)
  }

  /** The fill of the final `screen` pass of `addFinalEnhancements`. Its `switch` has no
      default, so a style without a case keeps the vignette gradient as fill. */
  function FinalFill(style: string, width: real, height: real): (f: FillStyle)
    ensures ParseStyle(style).None? ==> f == Vignette(width, height)
    ensures ParseStyle(style).Some? ==> f == SolidColor(StyleColor(style))
  {
    match ParseStyle(style)
    case Some(NeonGlow) => SolidColor("#ff00ff")
    case Some(DarkGold) => SolidColor("#ffd700")
    case Some(CyberpunkBlue) => SolidColor("#00ffff")
    case Some(CosmicPurple) => SolidColor("#8a2be2")
    case None => Vignette(width, height)
  }

  /** One `fillRect` over the whole canvas: its fill, composite operation and alpha. */
  datatype FillPass = FillPass(fill: FillStyle, composite: string, alpha: real)

  /** The two passes of `addFinalEnhancements`: the vignette drawn normally, then the
      `screen` pass at alpha 0.15 with the style's fill. A style without a case draws the
      vignette twice. */
  function FinalEnhancements(style: string, width: real, height: real): (passes: seq<FillPass>)
    ensures |passes| == 2
    ensures passes[0] == FillPass(Vignette(width, height), "source-over", 1.0)
    ensures passes[1] == FillPass(FinalFill(style, width, height), "screen", 0.15)
    ensures ParseStyle(style).None? <==> passes[1].fill == passes[0].fill
  {
    [FillPass(Vignette(width, height), "source-over", 1.0),
     FillPass(FinalFill(style, width, height), "screen", 0.15)]
  }
}
