/**
 * The concentric-circles renderer. Circle centers sit on a square grid; around
 * each center, circles of growing radius are sampled at evenly spaced angles,
 * and two neighbouring samples are joined by a segment exactly when both lie
 * on the canvas and are dark enough, so that each circle breaks into arcs over
 * the lighter parts of the image.
 *
 * The sample angles need cosine and sine, which the model does not compute:
 * the renderer takes a function `unit`, where `unit(i, segments)` stands for
 * the point (cos a, sin a) of the angle a = i * 2π / segments.
 */
module ConcentricCircles {
  import opened LineRenderHelper
  import opened Plot
  import opened RenderSettings
  import opened Stepping
  import opened Sequences
  import opened Wrappers

  /** The direction of sample `i` of a circle of `segments` samples. */
  type UnitCircle = (int, int) -> Point

  /** The distance between neighbouring circle centers. */
  function GridSpacing(settings: LineRenderSettings): real {
    settings.lineSpacing * 8.0
  }

  /** The center coordinates along one side of the canvas: half a spacing in, then one spacing apart. */
  function CenterCoords(spacing: real, extent: int): seq<real>
    requires spacing > 0.0
  {
    Progression(spacing / 2.0, spacing, extent as real)
  }

  /** The radius no circle reaches: the renderer's maximum radius, but never ten line spacings. */
  function MaxR(maxRadius: real, settings: LineRenderSettings): (r: real)
    ensures r <= maxRadius && r <= settings.lineSpacing * 10.0
    ensures r == maxRadius || r == settings.lineSpacing * 10.0
  {
    if maxRadius <= settings.lineSpacing * 10.0 then maxRadius else settings.lineSpacing * 10.0
  }

  /**
   * The radii drawn around each center: one increment, two, and so on, while
   * below `maxR`. A non-positive increment draws no circle, provided it is
   * not below `maxR` (otherwise the loop never ends).
   */
  function Radii(increment: real, maxR: real): seq<real> {
    if increment > 0.0 then Progression(increment, increment, maxR) else []
  }

  /** Sample `i` of the circle of `radius` around `center`. */
  function SamplePoint(center: Point, radius: real, segments: int, unit: UnitCircle, i: int): Point {
    Point(center.x + radius * unit(i, segments).x, center.y + radius * unit(i, segments).y)
  }

  /** The samples of one circle, by index; the renderer visits i = 0 .. segments, and the last one closes the circle. */
  function SampleOf(center: Point, radius: real, segments: int, unit: UnitCircle): int -> Point {
    i => SamplePoint(center, radius, segments, unit, i)
  }

  /** The canvas is [0, width) x [0, height). */
  predicate OnCanvas(img: Raster, p: Point) {
    0.0 <= p.x < img.width as real && 0.0 <= p.y < img.height as real
  }

  /** A sample that may carry ink: on the canvas of a well-formed image and at least as dark as the threshold. */
  predicate DarkSample(img: Raster, threshold: real, p: Point) {
    img.Valid() && OnCanvas(img, p) && GetDarknessAtFloat(img, p.x, p.y) >= threshold
  }

  /** Which points are dark samples of an image at a threshold. */
  function Dark(img: Raster, threshold: real): Point -> bool {
    p => DarkSample(img, threshold, p)
  }

  /** The segment between two neighbouring samples, if both are dark. */
  function Join(dark: Point -> bool, p: Point, q: Point): seq<PlotLine> {
    if dark(p) && dark(q) then [PlotLine(p, q)] else []
  }

  /** `l` joins samples `i - 1` and `i` of the first `n`, which are both dark. */
  predicate IsChord(dark: Point -> bool, pts: int -> Point, n: int, i: int, l: PlotLine) {
    1 <= i < n && dark(pts(i - 1)) && dark(pts(i)) && l == PlotLine(pts(i - 1), pts(i))
  }

  /** The samples the renderer visits around one circle, i = 0 .. segments; none when `segments` is negative. */
  function Samples(segments: int): nat {
    if segments < 0 then 0 else segments + 1
  }

  /**
   * Where the renderer puts its circles: the rows and the columns of the
   * center grid, the radii around each center, and the segments each circle
   * is divided into.
   */
  datatype Layout = Layout(ys: seq<real>, xs: seq<real>, radii: seq<real>, segments: int)

  /**
   * What the renderer draws, from the inside out: the chord between samples
   * `i - 1` and `i` of a circle; the arcs through the first `n` samples of a
   * circle; the first `n` circles around a center, smallest first; the
   * circles around the first `n` centers of a grid row, left to right; and the
   * first `n` rows of the grid, top to bottom.
   */
  datatype Figure =
    | Chord(center: Point, radius: real, i: int)
    | Arc(center: Point, radius: real, n: nat)
    | Rings(center: Point, n: nat)
    | Row(y: real, n: nat)
    | Grid(n: nat)
  {
    /** A figure made of whole parts drawn one after another: rings, a row or a grid. */
    predicate Composite() {
      Rings? || Row? || Grid?
    }

    /** The positions a composite figure walks through: radii, center columns or center rows. */
    function Steps(layout: Layout): seq<real> {
      match this
      case Rings(_, _) => layout.radii
      case Row(_, _) => layout.xs
      case Grid(_) => layout.ys
      case _ => []
    }

    predicate Valid(layout: Layout) {
      !Composite() || n <= |Steps(layout)|
    }

    function Level(): nat {
      match this
      case Chord(_, _, _) => 0
      case Arc(_, _, _) => 1
      case Rings(_, _) => 2
      case Row(_, _) => 3
      case Grid(_) => 4
    }

    /** The same composite figure, drawn up to step `m`. */
    function Upto(m: nat): (f: Figure)
      requires Composite()
      ensures f.Composite() && f.n == m && f.Level() == Level()
    {
      match this
      case Rings(center, _) => Rings(center, m)
      case Row(y, _) => Row(y, m)
      case Grid(_) => Grid(m)
    }

    /** The whole of the figure drawn at step `k`: all arcs of a circle, the rings around a center, or a grid row. */
    function Part(layout: Layout, k: int): (f: Figure)
      requires Composite() && 0 <= k < |Steps(layout)|
      ensures f.Valid(layout) && f.Level() == Level() - 1
    {
      match this
      case Rings(center, _) => Arc(center, layout.radii[k], Samples(layout.segments))
      case Row(y, _) => Rings(Point(layout.xs[k], y), |layout.radii|)
      case Grid(_) => Row(layout.ys[k], |layout.xs|)
    }
  }

  /**
   * The lines of a figure: a chord is drawn when both its samples are dark
   * samples; the arcs through the first n samples are the chords 1 .. n - 1 in
   * order; a composite figure is its parts in order.
   */
  function Lines(dark: Point -> bool, unit: UnitCircle, layout: Layout, f: Figure): seq<PlotLine>
    requires f.Valid(layout)
    decreases f.Level(), if f.Chord? then 0 else f.n
  {
    match f
    case Chord(center, radius, i) =>
      var pts := SampleOf(center, radius, layout.segments, unit);
      Join(dark, pts(i - 1), pts(i))
    case Arc(center, radius, n) =>
      if n < 2 then []
      else Lines(dark, unit, layout, Arc(center, radius, n - 1)) + Lines(dark, unit, layout, Chord(center, radius, n - 1))
    case _ =>
      if f.n == 0 then []
      else Lines(dark, unit, layout, f.Upto(f.n - 1)) + Lines(dark, unit, layout, f.Part(layout, f.n - 1))
  }

  /** The grid of centers half a spacing in from the top left corner, the radii around each, and the segments per circle. */
  function CirclesLayout(img: Raster, settings: LineRenderSettings, increment: real, maxRadius: real, segments: int): Layout
    requires settings.lineSpacing > 0.0
  {
    var g := GridSpacing(settings);
    Layout(CenterCoords(g, img.height), CenterCoords(g, img.width), Radii(increment, MaxR(maxRadius, settings)), segments)
  }

  /** Everything the renderer draws: the whole grid. */
  function CirclesLines(img: Raster, settings: LineRenderSettings, increment: real, maxRadius: real, segments: int, unit: UnitCircle): seq<PlotLine>
    requires settings.lineSpacing > 0.0
  {
    var layout := CirclesLayout(img, settings, increment, maxRadius, segments);
    Lines(Dark(img, settings.darknessThreshold), unit, layout, Grid(|layout.ys|))
  }

  // ---------------------------------------------------------------------------
  // A composite figure is the concatenation of its parts

  /** Every line of a composite figure is a line of one of the parts drawn so far. */
  lemma {:induction false} LinesSource(dark: Point -> bool, unit: UnitCircle, layout: Layout, f: Figure, l: PlotLine)
    returns (k: int)
    requires f.Composite() && f.Valid(layout) && l in Lines(dark, unit, layout, f)
    ensures 0 <= k < f.n && l in Lines(dark, unit, layout, f.Part(layout, k))
    decreases f.n
  {
    if l in Lines(dark, unit, layout, f.Upto(f.n - 1)) {
      k := LinesSource(dark, unit, layout, f.Upto(f.n - 1), l);
    } else {
      k := f.n - 1;
    }
  }

  /** Every line of a part drawn so far is a line of the composite figure. */
  lemma {:induction false} LinesHas(dark: Point -> bool, unit: UnitCircle, layout: Layout, f: Figure, k: int, l: PlotLine)
    requires f.Composite() && f.Valid(layout) && 0 <= k < f.n && l in Lines(dark, unit, layout, f.Part(layout, k))
    ensures l in Lines(dark, unit, layout, f)
    decreases f.n
  {
    if k < f.n - 1 {
      LinesHas(dark, unit, layout, f.Upto(f.n - 1), k, l);
    }
  }

  /** A loop step of the renderer: drawing the next part extends the composite figure by that part. */
  lemma LinesAdvance(dark: Point -> bool, unit: UnitCircle, layout: Layout, f: Figure, part: Figure,
                     lines: seq<PlotLine>, before: seq<PlotLine>, after: seq<PlotLine>)
    requires f.Composite() && f.n < |f.Steps(layout)| && part == f.Part(layout, f.n)
    requires before == lines + Lines(dark, unit, layout, f)
    requires after == before + Lines(dark, unit, layout, part)
    ensures after == lines + Lines(dark, unit, layout, f.Upto(f.n + 1))
  {
    var g := f.Upto(f.n + 1);
    assert g.Upto(g.n - 1) == f;
    AppendAssoc(lines, Lines(dark, unit, layout, f), Lines(dark, unit, layout, part),
                before, after, Lines(dark, unit, layout, g));
  }


  // ---------------------------------------------------------------------------
  // The grid of centers and the radii

  /**
   * Centers along a side of `extent` pixels sit at g/2 + k*g, strictly inside
   * the canvas, and their number is the first k at which that reaches the edge.
   */
  lemma CenterPositions(spacing: real, extent: int)
    requires spacing > 0.0
    ensures var cs := CenterCoords(spacing, extent);
      && (forall k :: 0 <= k < |cs| ==> cs[k] == spacing / 2.0 + k as real * spacing && 0.0 < cs[k] < extent as real)
      && spacing / 2.0 + |cs| as real * spacing >= extent as real
  {
    var cs := CenterCoords(spacing, extent);
    ProgressionValues(spacing / 2.0, spacing, extent as real);
    ProgressionLength(spacing / 2.0, spacing, extent as real);
    forall k | 0 <= k < |cs|
      ensures cs[k] == spacing / 2.0 + k as real * spacing
    {
      ProgressionAt(spacing / 2.0, spacing, extent as real, k);
    }
  }

  /**
   * The `k`-th radius is (k + 1) increments, every radius is positive and
   * below `maxR`, and the radius after the last would reach it.
   */
  lemma RadiiValues(increment: real, maxR: real)
    requires increment > 0.0 || increment >= maxR
    ensures var rs := Radii(increment, maxR);
      && (forall k :: 0 <= k < |rs| ==> rs[k] == (k + 1) as real * increment && 0.0 < rs[k] < maxR)
      && (|rs| + 1) as real * increment >= maxR
  {
    var rs := Radii(increment, maxR);
    if increment > 0.0 {
      ProgressionValues(increment, increment, maxR);
      ProgressionLength(increment, increment, maxR);
      forall k | 0 <= k < |rs|
        ensures rs[k] == (k + 1) as real * increment
      {
        ProgressionAt(increment, increment, maxR, k);
      }
      assert increment + |rs| as real * increment == (|rs| + 1) as real * increment;
    }
  }

  // ---------------------------------------------------------------------------
  // The arcs of one circle

  /** The loop step of `DrawCircle`: appending the chord ending at the current sample extends the arcs by one sample. */
  lemma ArcsStep(dark: Point -> bool, unit: UnitCircle, layout: Layout, center: Point, radius: real, i: nat,
                 lines: seq<PlotLine>, before: seq<PlotLine>, after: seq<PlotLine>)
    requires before == lines + Lines(dark, unit, layout, Arc(center, radius, i))
    requires after == before + (if i == 0 then [] else Lines(dark, unit, layout, Chord(center, radius, i)))
    ensures after == lines + Lines(dark, unit, layout, Arc(center, radius, i + 1))
  {
    AppendAssoc(lines, Lines(dark, unit, layout, Arc(center, radius, i)),
                if i == 0 then [] else Lines(dark, unit, layout, Chord(center, radius, i)),
                before, after, Lines(dark, unit, layout, Arc(center, radius, i + 1)));
  }

  /** The account `DrawCircle` keeps: the last sample, if it was a dark sample, is where the next segment starts. */
  function PrevPoint(dark: Point -> bool, pts: int -> Point, i: int): Option<Point> {
    if i > 0 && dark(pts(i - 1)) then Some(pts(i - 1)) else None
  }

  /**
   * What one pass of `DrawCircle` decides: the current sample is joined to the
   * previous point, if there is one, exactly when it is a dark sample, and it
   * becomes the previous point exactly then.
   */
  lemma JoinStep(dark: Point -> bool, unit: UnitCircle, layout: Layout, center: Point, radius: real, i: int,
                 prev: Option<Point>, isDark: bool, current: Point)
    requires 0 <= i && current == SamplePoint(center, radius, layout.segments, unit, i)
    requires prev == PrevPoint(dark, SampleOf(center, radius, layout.segments, unit), i)
    requires isDark == dark(current)
    ensures (if i == 0 then [] else Lines(dark, unit, layout, Chord(center, radius, i)))
         == (if isDark && prev.Some? then [PlotLine(prev.value, current)] else [])
    ensures PrevPoint(dark, SampleOf(center, radius, layout.segments, unit), i + 1) == (if isDark then Some(current) else None)
  {
  }

  /** A circle's first n + 1 samples give at most n segments. */
  lemma {:induction false} ArcsCount(dark: Point -> bool, unit: UnitCircle, layout: Layout, center: Point, radius: real, n: nat)
    requires 0 < n
    ensures |Lines(dark, unit, layout, Arc(center, radius, n))| <= n - 1
  {
    if n >= 2 {
      ArcsCount(dark, unit, layout, center, radius, n - 1);
    }
  }

  /** Every segment of a circle joins two neighbouring dark samples. */
  lemma {:induction false} ArcsSource(dark: Point -> bool, unit: UnitCircle, layout: Layout, center: Point, radius: real,
                                      n: nat, l: PlotLine) returns (i: int)
    requires l in Lines(dark, unit, layout, Arc(center, radius, n))
    ensures IsChord(dark, SampleOf(center, radius, layout.segments, unit), n, i, l)
  {
    if l in Lines(dark, unit, layout, Arc(center, radius, n - 1)) {
      i := ArcsSource(dark, unit, layout, center, radius, n - 1, l);
    } else {
      i := n - 1;
    }
  }

  /** The arcs of the first `m` samples come first among the arcs of the first `n`. */
  lemma {:induction false} ArcsPrefix(dark: Point -> bool, unit: UnitCircle, layout: Layout, center: Point, radius: real,
                                      m: nat, n: nat)
    requires m <= n
    decreases n - m
    ensures var a := Lines(dark, unit, layout, Arc(center, radius, n));
      var b := Lines(dark, unit, layout, Arc(center, radius, m));
      |b| <= |a| && a[..|b|] == b
  {
    if m < n {
      ArcsPrefix(dark, unit, layout, center, radius, m, n - 1);
      var b := Lines(dark, unit, layout, Arc(center, radius, m));
      var c := Lines(dark, unit, layout, Arc(center, radius, n - 1));
      var a := Lines(dark, unit, layout, Arc(center, radius, n));
      assert a[..|c|] == c;
      assert a[..|b|] == c[..|b|];
    }
  }

  /**
   * Conversely, every pair of neighbouring dark samples is joined: the
   * segment between samples `i - 1` and `i` comes right after the arcs of the
   * samples before `i`.
   */
  lemma ArcsJoin(dark: Point -> bool, unit: UnitCircle, layout: Layout, center: Point, radius: real,
                 n: nat, i: nat, l: PlotLine)
    requires IsChord(dark, SampleOf(center, radius, layout.segments, unit), n, i, l)
    ensures var k := |Lines(dark, unit, layout, Arc(center, radius, i))|;
      var a := Lines(dark, unit, layout, Arc(center, radius, n));
      k < |a| && a[k] == l
  {
    ArcsPrefix(dark, unit, layout, center, radius, i + 1, n);
    var b := Lines(dark, unit, layout, Arc(center, radius, i + 1));
    assert b == Lines(dark, unit, layout, Arc(center, radius, i)) + [l];
  }

  /**
   * Three dark samples in a row give two segments in a row that meet at the
   * middle sample: the arc continues.
   */
  lemma ArcsContinue(dark: Point -> bool, unit: UnitCircle, layout: Layout, center: Point, radius: real,
                     n: nat, i: nat) returns (k: int)
    requires 1 <= i < n - 1
    requires var pts := SampleOf(center, radius, layout.segments, unit);
      dark(pts(i - 1)) && dark(pts(i)) && dark(pts(i + 1))
    ensures var pts := SampleOf(center, radius, layout.segments, unit);
      var a := Lines(dark, unit, layout, Arc(center, radius, n));
      && 0 <= k && k + 1 < |a|
      && a[k] == PlotLine(pts(i - 1), pts(i)) && a[k + 1] == PlotLine(pts(i), pts(i + 1))
      && a[k].end == a[k + 1].start
  {
    var pts := SampleOf(center, radius, layout.segments, unit);
    k := |Lines(dark, unit, layout, Arc(center, radius, i))|;
    ArcsJoin(dark, unit, layout, center, radius, n, i, PlotLine(pts(i - 1), pts(i)));
    ArcsJoin(dark, unit, layout, center, radius, n, i + 1, PlotLine(pts(i), pts(i + 1)));
  }

  /** When every sample is a dark sample, the first n samples make one unbroken chain of n - 1 segments. */
  lemma {:induction false} ArcsAllDark(dark: Point -> bool, unit: UnitCircle, layout: Layout, center: Point, radius: real, n: nat)
    requires 0 < n
    requires forall i :: 0 <= i < n ==> dark(SamplePoint(center, radius, layout.segments, unit, i))
    ensures var pts := SampleOf(center, radius, layout.segments, unit);
      var a := Lines(dark, unit, layout, Arc(center, radius, n));
      |a| == n - 1 && forall k :: 0 <= k < n - 1 ==> a[k] == PlotLine(pts(k), pts(k + 1))
  {
    if n >= 2 {
      ArcsAllDark(dark, unit, layout, center, radius, n - 1);
      var pts := SampleOf(center, radius, layout.segments, unit);
      var a := Lines(dark, unit, layout, Arc(center, radius, n));
      assert dark(SamplePoint(center, radius, layout.segments, unit, n - 2));
      assert a == Lines(dark, unit, layout, Arc(center, radius, n - 1)) + [PlotLine(pts(n - 2), pts(n - 1))];
    }
  }

  // ---------------------------------------------------------------------------
  // Every drawn line is a chord of a drawn circle, and every such chord is drawn

  /**
   * Every line the renderer draws joins samples `i - 1` and `i` of the circle
   * of radius `radii[kr]` around the grid center `(xs[kx], ys[ky])`, and both
   * samples are on the canvas and dark enough.
   */
  lemma DrawnLineIsChord(img: Raster, settings: LineRenderSettings, increment: real, maxRadius: real, segments: int,
                         unit: UnitCircle, l: PlotLine) returns (ky: int, kx: int, kr: int, i: int)
    requires settings.lineSpacing > 0.0
    requires l in CirclesLines(img, settings, increment, maxRadius, segments, unit)
    ensures var layout := CirclesLayout(img, settings, increment, maxRadius, segments);
      && 0 <= ky < |layout.ys| && 0 <= kx < |layout.xs| && 0 <= kr < |layout.radii|
      && IsChord(Dark(img, settings.darknessThreshold),
                 SampleOf(Point(layout.xs[kx], layout.ys[ky]), layout.radii[kr], segments, unit), Samples(segments), i, l)
  {
    var dark := Dark(img, settings.darknessThreshold);
    var layout := CirclesLayout(img, settings, increment, maxRadius, segments);
    ky := LinesSource(dark, unit, layout, Grid(|layout.ys|), l);
    kx := LinesSource(dark, unit, layout, Row(layout.ys[ky], |layout.xs|), l);
    var center := Point(layout.xs[kx], layout.ys[ky]);
    kr := LinesSource(dark, unit, layout, Rings(center, |layout.radii|), l);
    i := ArcsSource(dark, unit, layout, center, layout.radii[kr], Samples(segments), l);
  }

  /** Every pair of neighbouring dark samples on every circle around every grid center is drawn. */
  lemma ChordIsDrawn(img: Raster, settings: LineRenderSettings, increment: real, maxRadius: real, segments: int,
                     unit: UnitCircle, ky: int, kx: int, kr: int, i: nat, l: PlotLine)
    requires settings.lineSpacing > 0.0
    requires var layout := CirclesLayout(img, settings, increment, maxRadius, segments);
      && 0 <= ky < |layout.ys| && 0 <= kx < |layout.xs| && 0 <= kr < |layout.radii|
      && IsChord(Dark(img, settings.darknessThreshold),
                 SampleOf(Point(layout.xs[kx], layout.ys[ky]), layout.radii[kr], segments, unit), Samples(segments), i, l)
    ensures l in CirclesLines(img, settings, increment, maxRadius, segments, unit)
  {
    var dark := Dark(img, settings.darknessThreshold);
    var layout := CirclesLayout(img, settings, increment, maxRadius, segments);
    var center := Point(layout.xs[kx], layout.ys[ky]);
    ArcsJoin(dark, unit, layout, center, layout.radii[kr], Samples(segments), i, l);
    LinesHas(dark, unit, layout, Rings(center, |layout.radii|), kr, l);
    LinesHas(dark, unit, layout, Row(layout.ys[ky], |layout.xs|), kx, l);
    LinesHas(dark, unit, layout, Grid(|layout.ys|), ky, l);
  }

  /** An image lighter than a positive threshold everywhere gets no circles at all. */
  lemma LightImageNoCircles(img: Raster, settings: LineRenderSettings, increment: real, maxRadius: real, segments: int,
                            unit: UnitCircle)
    requires img.Valid() && settings.lineSpacing > 0.0
    requires settings.darknessThreshold > 0.0 && AllBelow(img, settings.darknessThreshold)
    ensures CirclesLines(img, settings, increment, maxRadius, segments, unit) == []
  {
    var lines := CirclesLines(img, settings, increment, maxRadius, segments, unit);
    if |lines| > 0 {
      var ky, kx, kr, i := DrawnLineIsChord(img, settings, increment, maxRadius, segments, unit, lines[0]);
      var l := lines[0];
      DarknessAtFloatBelow(img, settings.darknessThreshold, l.end.x, l.end.y);
    }
  }

  // ---------------------------------------------------------------------------
  // The renderer

  class ConcentricCirclesRenderer {
    var radiusIncrement: real
    var maxRadius: real
    var circleSegments: int

    /** Circles 3 pixels apart, at most 50 pixels across the radius, sampled 36 times around. */
    constructor ()
      ensures radiusIncrement == 3.0 && maxRadius == 50.0 && circleSegments == 36
    {
      radiusIncrement := 3.0;
      maxRadius := 50.0;
      circleSegments := 36;
    }

    /** The circles around every grid center, row by row. */
    method GenerateLines(img: Raster, settings: LineRenderSettings, unit: UnitCircle) returns (lines: seq<PlotLine>)
      requires img.Valid() && settings.lineSpacing > 0.0
      requires radiusIncrement > 0.0 || radiusIncrement >= MaxR(maxRadius, settings)
      ensures lines == CirclesLines(img, settings, radiusIncrement, maxRadius, circleSegments, unit)
    {
      var gridSpacing := GridSpacing(settings);
      ghost var layout := CirclesLayout(img, settings, radiusIncrement, maxRadius, circleSegments);
      ghost var ny := 0;
      lines := [];
      var centerY := gridSpacing / 2.0;
      CountUpStarts(gridSpacing / 2.0, gridSpacing, img.height as real);
      while centerY < img.height as real
        invariant Counting(layout.ys, ny, centerY, centerY < img.height as real)
        invariant lines == [] + Lines(Dark(img, settings.darknessThreshold), unit, layout, Grid(ny))
        decreases |layout.ys| - ny
      {
        ghost var before := lines;
        lines := DrawRow(img, settings, centerY, unit, layout, lines);
        LinesAdvance(Dark(img, settings.darknessThreshold), unit, layout, Grid(ny), Row(centerY, |layout.xs|), [], before, lines);
        CountUp(gridSpacing / 2.0, gridSpacing, img.height as real, ny, centerY);
        ny := ny + 1;
        centerY := centerY + gridSpacing;
      }
    }

    /**
     * One row of the center grid: the circles around every center at height
     * `centerY`, appended to `lines`. The ghost `layout` names the grid the
     * caller walks through.
     */
    method DrawRow(img: Raster, settings: LineRenderSettings, centerY: real, unit: UnitCircle, ghost layout: Layout,
                   lines: seq<PlotLine>) returns (out: seq<PlotLine>)
      requires img.Valid() && settings.lineSpacing > 0.0
      requires radiusIncrement > 0.0 || radiusIncrement >= MaxR(maxRadius, settings)
      requires layout.xs == CenterCoords(GridSpacing(settings), img.width)
      requires layout.radii == Radii(radiusIncrement, MaxR(maxRadius, settings)) && layout.segments == circleSegments
      ensures out == lines + Lines(Dark(img, settings.darknessThreshold), unit, layout, Row(centerY, |layout.xs|))
    {
      var gridSpacing := GridSpacing(settings);
      ghost var nx := 0;
      out := lines;
      var centerX := gridSpacing / 2.0;
      CountUpStarts(gridSpacing / 2.0, gridSpacing, img.width as real);
      while centerX < img.width as real
        invariant Counting(layout.xs, nx, centerX, centerX < img.width as real)
        invariant out == lines + Lines(Dark(img, settings.darknessThreshold), unit, layout, Row(centerY, nx))
        decreases |layout.xs| - nx
      {
        ghost var before := out;
        out := DrawConcentricCircles(img, settings, Point(centerX, centerY), unit, layout, out);
        LinesAdvance(Dark(img, settings.darknessThreshold), unit, layout, Row(centerY, nx), Rings(Point(centerX, centerY), |layout.radii|),
                     lines, before, out);
        CountUp(gridSpacing / 2.0, gridSpacing, img.width as real, nx, centerX);
        nx := nx + 1;
        centerX := centerX + gridSpacing;
      }
    }

    /** Every circle around `center`, smallest first, appended to `lines`; the ghost `layout` holds the radii. */
    method DrawConcentricCircles(img: Raster, settings: LineRenderSettings, center: Point, unit: UnitCircle,
                                 ghost layout: Layout, lines: seq<PlotLine>) returns (out: seq<PlotLine>)
      requires img.Valid()
      requires radiusIncrement > 0.0 || radiusIncrement >= MaxR(maxRadius, settings)
      requires layout.radii == Radii(radiusIncrement, MaxR(maxRadius, settings)) && layout.segments == circleSegments
      ensures out == lines + Lines(Dark(img, settings.darknessThreshold), unit, layout, Rings(center, |layout.radii|))
    {
      var maxR := MaxR(maxRadius, settings);
      ghost var n := 0;
      out := lines;
      var radius := radiusIncrement;
      if radiusIncrement > 0.0 {
        CountUpStarts(radiusIncrement, radiusIncrement, maxR);
      }
      while radius < maxR
        invariant Counting(layout.radii, n, radius, radius < maxR)
        invariant out == lines + Lines(Dark(img, settings.darknessThreshold), unit, layout, Rings(center, n))
        decreases |layout.radii| - n
      {
        ghost var before := out;
        out := DrawCircle(img, settings.darknessThreshold, center, radius, unit, layout, out);
        LinesAdvance(Dark(img, settings.darknessThreshold), unit, layout, Rings(center, n), Arc(center, radius, Samples(layout.segments)),
                     lines, before, out);
        CountUp(radiusIncrement, radiusIncrement, maxR, n, radius);
        n := n + 1;
        radius := radius + radiusIncrement;
      }
    }

    /**
     * Walks once around the circle, from sample 0 to sample `circleSegments`,
     * appending a segment from the previous sample whenever both it and the
     * current one are dark samples; a light or off-canvas sample breaks the arc.
     */
    method DrawCircle(img: Raster, threshold: real, center: Point, radius: real, unit: UnitCircle, ghost layout: Layout,
                      lines: seq<PlotLine>) returns (out: seq<PlotLine>)
      requires img.Valid() && layout.segments == circleSegments
      ensures out == lines + Lines(Dark(img, threshold), unit, layout, Arc(center, radius, Samples(layout.segments)))
    {
      ghost var pts := SampleOf(center, radius, layout.segments, unit);
      var arcStart: Option<Point> := None;
      var prevPoint: Option<Point> := None;
      out := lines;
      var i := 0;
      while i <= circleSegments
        invariant 0 <= i && (i <= circleSegments + 1 || i == 0)
        invariant out == lines + Lines(Dark(img, threshold), unit, layout, Arc(center, radius, i))
        invariant prevPoint == PrevPoint(Dark(img, threshold), pts, i)
      {
        var current := SamplePoint(center, radius, circleSegments, unit, i);
        var x := current.x;
        var y := current.y;
        ghost var before := out;
        ghost var prev := prevPoint;
        ghost var dark;
        if x < 0.0 || x >= img.width as real || y < 0.0 || y >= img.height as real {
          arcStart := None;
          prevPoint := None;
          dark := false;
        } else {
          var darkness := GetDarknessAtFloat(img, x, y);
          dark := darkness >= threshold;
          if darkness >= threshold {
            if arcStart.None? {
              arcStart := Some(current);
            }
            if prevPoint.Some? {
              out := out + [PlotLine(prevPoint.value, current)];
            }
            prevPoint := Some(current);
          } else {
            arcStart := None;
            prevPoint := None;
          }
        }
        JoinStep(Dark(img, threshold), unit, layout, center, radius, i, prev, dark, current);
        ArcsStep(Dark(img, threshold), unit, layout, center, radius, i, lines, before, out);
        i := i + 1;
      }
    }
  }
}
