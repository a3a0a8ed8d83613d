/**
 * The diagonal hatch renderer: lines at 45 degrees (down and to the right)
 * and at 135 degrees (down and to the left), each drawn over the dark runs
 * of its diagonal. Diagonals are seeded along two edges of the image every
 * `lineSpacing * 1.414` pixels: 45-degree ones down the left edge and then
 * along the top edge, 135-degree ones down the right edge and then leftwards
 * along the top edge.
 */
module DiagonalHatch {
  import opened LineRenderHelper
  import opened Plot
  import opened RenderSettings
  import opened RunScan
  import opened Stepping
  import opened Sequences

  /** The seed spacing along an edge: the line spacing stretched by 1.414, close to the square root of two. */
  function DiagonalSpacing(settings: LineRenderSettings): (r: real)
    ensures settings.lineSpacing > 0.0 ==> r > settings.lineSpacing
  {
    settings.lineSpacing * 1.414
  }

  /** The edges the diagonals are seeded on, in the order the renderer visits them. */
  datatype Edge = LeftEdge | TopEdge45 | RightEdge | TopEdge135

  /** The diagonal scanned for counter value `v` on an edge; the counter is truncated to a pixel. */
  function Seed(edge: Edge, width: int, v: real): Scan {
    match edge
    case LeftEdge => Diagonal45(0, v.Floor)
    case TopEdge45 => Diagonal45(v.Floor, 0)
    case RightEdge => Diagonal135(width - 1, v.Floor)
    case TopEdge135 => Diagonal135(v.Floor, 0)
  }

  function Seeds(edge: Edge, width: int, vs: seq<real>): (r: seq<Scan>)
    ensures |r| == |vs| && forall i :: 0 <= i < |vs| ==> r[i] == Seed(edge, width, vs[i])
  {
    seq(|vs|, i requires 0 <= i < |vs| => Seed(edge, width, vs[i]))
  }

  /**
   * The values the seed counter takes along an edge: from 0 down the height,
   * from one spacing across the width, from 0 down the height, and from one
   * spacing short of the right-most column down to 0.
   */
  function EdgeCounter(edge: Edge, width: int, height: int, spacing: real): seq<real>
    requires spacing > 0.0
  {
    match edge
    case LeftEdge => Progression(0.0, spacing, height as real)
    case TopEdge45 => Progression(spacing, spacing, width as real)
    case RightEdge => Progression(0.0, spacing, height as real)
    case TopEdge135 => Countdown((width - 1) as real - spacing, spacing)
  }

  function EdgeSeeds(edge: Edge, width: int, height: int, spacing: real): seq<Scan>
    requires spacing > 0.0
  {
    Seeds(edge, width, EdgeCounter(edge, width, height, spacing))
  }

  /** The segments of the diagonals seeded on one edge, in seeding order. */
  function EdgeLines(img: Raster, settings: LineRenderSettings, edge: Edge): seq<PlotLine>
    requires img.Valid() && settings.lineSpacing > 0.0
  {
    ScansLines(img, settings.darknessThreshold, EdgeSeeds(edge, img.width, img.height, DiagonalSpacing(settings)))
  }

  /** The 45-degree family: the left-edge diagonals, then the top-edge ones. */
  function Lines45(img: Raster, settings: LineRenderSettings): seq<PlotLine>
    requires img.Valid() && settings.lineSpacing > 0.0
  {
    EdgeLines(img, settings, LeftEdge) + EdgeLines(img, settings, TopEdge45)
  }

  /** The 135-degree family: the right-edge diagonals, then the top-edge ones. */
  function Lines135(img: Raster, settings: LineRenderSettings): seq<PlotLine>
    requires img.Valid() && settings.lineSpacing > 0.0
  {
    EdgeLines(img, settings, RightEdge) + EdgeLines(img, settings, TopEdge135)
  }

  /** The renderer's output: the 45-degree family if enabled, then the 135-degree family if enabled. */
  function DiagonalLines(img: Raster, settings: LineRenderSettings, draw45: bool, draw135: bool): seq<PlotLine>
    requires img.Valid() && (settings.lineSpacing > 0.0 || (!draw45 && !draw135))
  {
    (if draw45 then Lines45(img, settings) else []) + (if draw135 then Lines135(img, settings) else [])
  }

  // ---------------------------------------------------------------------------
  // Loop accounting

  /** What a seed loop has drawn onto `base` after scanning the diagonals of the counter values `done`. */
  ghost predicate EdgeDrawnSoFar(img: Raster, threshold: real, edge: Edge, base: seq<PlotLine>, done: seq<real>,
                                 out: seq<PlotLine>)
    requires img.Valid()
  {
    out == base + ScansLines(img, threshold, Seeds(edge, img.width, done))
  }

  /** Scanning the diagonal of one more counter value appends its segments. */
  lemma EdgeAdvance(img: Raster, threshold: real, edge: Edge, base: seq<PlotLine>, all: seq<real>, n: nat, v: real,
                    before: seq<PlotLine>, after: seq<PlotLine>)
    requires img.Valid() && n < |all| && all[n] == v && EdgeDrawnSoFar(img, threshold, edge, base, all[..n], before)
    requires after == before + ScanSegments(img, threshold, Seed(edge, img.width, v))
    ensures EdgeDrawnSoFar(img, threshold, edge, base, all[..n + 1], after)
  {
    var seed := Seed(edge, img.width, v);
    var scans := Seeds(edge, img.width, all[..n]);
    var next := Seeds(edge, img.width, all[..n + 1]);
    assert next == scans + [seed];
    ScansLinesSnoc(img, threshold, scans, seed, next);
    AppendAssoc(base, ScansLines(img, threshold, scans), ScanSegments(img, threshold, seed),
                before, after, ScansLines(img, threshold, next));
  }

  /** One pass of a counting-up edge loop: the diagonal of its counter is drawn and the counter moves on. */
  lemma EdgeStepUp(img: Raster, threshold: real, edge: Edge, base: seq<PlotLine>, all: seq<real>,
                   start: real, spacing: real, limit: real, n: nat, v: real, before: seq<PlotLine>, after: seq<PlotLine>)
    requires img.Valid() && Spaced(all, start, spacing, limit) && v < limit && Counting(all, n, v, v < limit)
    requires EdgeDrawnSoFar(img, threshold, edge, base, all[..n], before)
    requires after == before + ScanSegments(img, threshold, Seed(edge, img.width, v))
    ensures Counting(all, n + 1, v + spacing, v + spacing < limit)
    ensures EdgeDrawnSoFar(img, threshold, edge, base, all[..n + 1], after)
  {
    CountSpaced(all, start, spacing, limit, n, v);
    EdgeAdvance(img, threshold, edge, base, all, n, v, before, after);
  }

  /** One pass of a counting-down edge loop: the diagonal of its counter is drawn and the counter moves on. */
  lemma EdgeStepDown(img: Raster, threshold: real, edge: Edge, base: seq<PlotLine>, all: seq<real>,
                     start: real, spacing: real, n: nat, v: real, before: seq<PlotLine>, after: seq<PlotLine>)
    requires img.Valid() && SpacedDown(all, start, spacing) && v >= 0.0 && Counting(all, n, v, v >= 0.0)
    requires EdgeDrawnSoFar(img, threshold, edge, base, all[..n], before)
    requires after == before + ScanSegments(img, threshold, Seed(edge, img.width, v))
    ensures Counting(all, n + 1, v - spacing, v - spacing >= 0.0)
    ensures EdgeDrawnSoFar(img, threshold, edge, base, all[..n + 1], after)
  {
    CountSpacedDown(all, start, spacing, n, v);
    EdgeAdvance(img, threshold, edge, base, all, n, v, before, after);
  }

  /** Once the loop has counted through every value, it has drawn every seed of the edge. */
  lemma EdgeDone(img: Raster, threshold: real, edge: Edge, base: seq<PlotLine>, all: seq<real>, n: nat, out: seq<PlotLine>)
    requires img.Valid() && n == |all| && EdgeDrawnSoFar(img, threshold, edge, base, all[..n], out)
    ensures out == base + ScansLines(img, threshold, Seeds(edge, img.width, all))
  {
    assert all[..n] == all;
  }

  /** The two edges of a family, drawn one after the other, draw the family. */
  lemma FamilyDone(lines: seq<PlotLine>, first: seq<PlotLine>, second: seq<PlotLine>, mid: seq<PlotLine>,
                   out: seq<PlotLine>, family: seq<PlotLine>)
    requires mid == lines + first && out == mid + second && family == first + second
    ensures out == lines + family
  {
    AppendAssoc(lines, first, second, mid, out, family);
  }

  /** The renderer's two families, each drawn if enabled, make up its output. */
  lemma FamiliesDone(img: Raster, settings: LineRenderSettings, draw45: bool, draw135: bool,
                     mid: seq<PlotLine>, out: seq<PlotLine>)
    requires img.Valid() && (settings.lineSpacing > 0.0 || (!draw45 && !draw135))
    requires mid == if draw45 then Lines45(img, settings) else []
    requires out == if draw135 then mid + Lines135(img, settings) else mid
    ensures out == DiagonalLines(img, settings, draw45, draw135)
  {
  }

  // ---------------------------------------------------------------------------
  // Where the seeds fall

  /**
   * The closed form of the counter's `k`-th value on an edge: `k` spacings
   * along it, after the one spacing the top edges start in by.
   */
  function SeedValue(edge: Edge, width: int, spacing: real, k: int): real {
    match edge
    case LeftEdge => k as real * spacing
    case TopEdge45 => spacing + k as real * spacing
    case RightEdge => k as real * spacing
    case TopEdge135 => (width - 1) as real - spacing - k as real * spacing
  }

  /** Seed `k` of an edge is the diagonal of the counter's `k`-th closed-form value. */
  lemma EdgeSeedAt(edge: Edge, width: int, height: int, spacing: real, k: int)
    requires spacing > 0.0 && 0 <= k < |EdgeSeeds(edge, width, height, spacing)|
    ensures EdgeSeeds(edge, width, height, spacing)[k] == Seed(edge, width, SeedValue(edge, width, spacing, k))
  {
    EdgeCounterAt(edge, width, height, spacing, k);
  }

  lemma EdgeCounterAt(edge: Edge, width: int, height: int, spacing: real, k: int)
    requires spacing > 0.0 && 0 <= k < |EdgeCounter(edge, width, height, spacing)|
    ensures EdgeCounter(edge, width, height, spacing)[k] == SeedValue(edge, width, spacing, k)
  {
    match edge {
      case LeftEdge => ProgressionAt(0.0, spacing, height as real, k);
      case RightEdge => ProgressionAt(0.0, spacing, height as real, k);
      case TopEdge45 => ProgressionAt(spacing, spacing, width as real, k);
      case TopEdge135 => CountdownAt((width - 1) as real - spacing, spacing, k);
    }
  }

  /** Whether a counter value lies past the far end of its edge, where the seed loop stops. */
  predicate PastEdge(edge: Edge, width: int, height: int, v: real) {
    match edge
    case LeftEdge => v >= height as real
    case TopEdge45 => v >= width as real
    case RightEdge => v >= height as real
    case TopEdge135 => v < 0.0
  }

  /**
   * The seeds of an edge stop at the first closed-form value past its far
   * end: the last seed's value lies before it and the next would not.
   */
  lemma EdgeSeedCount(edge: Edge, width: int, height: int, spacing: real)
    requires spacing > 0.0
    ensures var n := |EdgeSeeds(edge, width, height, spacing)|;
      && PastEdge(edge, width, height, SeedValue(edge, width, spacing, n))
      && (n > 0 ==> !PastEdge(edge, width, height, SeedValue(edge, width, spacing, n - 1)))
  {
    var n := |EdgeCounter(edge, width, height, spacing)|;
    assert |EdgeSeeds(edge, width, height, spacing)| == n;
    if edge == TopEdge135 {
      CountdownLength((width - 1) as real - spacing, spacing);
    } else {
      CounterLength(edge, width, height, spacing);
    }
  }

  /** The same for the three edges counted upwards. */
  lemma CounterLength(edge: Edge, width: int, height: int, spacing: real)
    requires spacing > 0.0 && edge != TopEdge135
    ensures var n := |EdgeCounter(edge, width, height, spacing)|;
      && PastEdge(edge, width, height, SeedValue(edge, width, spacing, n))
      && (n > 0 ==> !PastEdge(edge, width, height, SeedValue(edge, width, spacing, n - 1)))
  {
    if edge == TopEdge45 {
      ProgressionLength(spacing, spacing, width as real);
    } else {
      ProgressionLength(0.0, spacing, height as real);
    }
  }

  /** A diagonal starting on the border it is seeded on: left or top for 45 degrees, right or top for 135. */
  predicate OnBorder(s: Scan, width: int) {
    match s
    case Diagonal45(x, y) => 0 <= x && 0 <= y && (x == 0 || y == 0)
    case Diagonal135(x, y) => x < width && 0 <= y && (x == width - 1 || y == 0)
    case _ => false
  }

  /** Where the counter of each edge stays: down the height for the side edges, along the width for the top ones. */
  ghost predicate CounterInRange(edge: Edge, width: int, height: int, v: real) {
    match edge
    case LeftEdge => 0.0 <= v < height as real
    case RightEdge => 0.0 <= v < height as real
    case TopEdge45 => 0.0 <= v < width as real
    case TopEdge135 => 0.0 <= v <= (width - 1) as real
  }

  lemma CounterValueInRange(edge: Edge, width: int, height: int, spacing: real, k: int)
    requires spacing > 0.0 && 0 <= k < |EdgeCounter(edge, width, height, spacing)|
    ensures CounterInRange(edge, width, height, EdgeCounter(edge, width, height, spacing)[k])
  {
    match edge {
      case LeftEdge => ProgressionValues(0.0, spacing, height as real);
      case RightEdge => ProgressionValues(0.0, spacing, height as real);
      case TopEdge45 => ProgressionValues(spacing, spacing, width as real);
      case TopEdge135 => CountdownValues((width - 1) as real - spacing, spacing);
    }
  }

  /** A seed from a counter in range starts on its edge and, in a non-empty image, enters the grid. */
  lemma SeedOnBorder(edge: Edge, width: int, height: int, v: real)
    requires CounterInRange(edge, width, height, v)
    ensures OnBorder(Seed(edge, width, v), width)
    ensures Seed(edge, width, v).Diagonal45? <==> edge == LeftEdge || edge == TopEdge45
    ensures width > 0 && height > 0 ==> Extent(Seed(edge, width, v), width, height) > 0
  {
  }

  /**
   * Every seed is a diagonal of its edge's direction starting on that edge,
   * and in a non-empty image it enters the grid.
   */
  lemma EdgeSeedOnBorder(edge: Edge, width: int, height: int, spacing: real, k: int)
    requires spacing > 0.0 && 0 <= k < |EdgeSeeds(edge, width, height, spacing)|
    ensures var s := EdgeSeeds(edge, width, height, spacing)[k];
      && OnBorder(s, width)
      && (s.Diagonal45? <==> edge == LeftEdge || edge == TopEdge45)
      && (width > 0 && height > 0 ==> Extent(s, width, height) > 0)
  {
    var v := EdgeCounter(edge, width, height, spacing)[k];
    assert EdgeSeeds(edge, width, height, spacing)[k] == Seed(edge, width, v);
    CounterValueInRange(edge, width, height, spacing, k);
    SeedOnBorder(edge, width, height, v);
  }

  lemma EdgeSeedsOnBorder(edge: Edge, width: int, height: int, spacing: real)
    requires spacing > 0.0
    ensures var seeds := EdgeSeeds(edge, width, height, spacing);
      forall k :: 0 <= k < |seeds| ==>
        && OnBorder(seeds[k], width)
        && (width > 0 && height > 0 ==> Extent(seeds[k], width, height) > 0)
  {
    forall k | 0 <= k < |EdgeSeeds(edge, width, height, spacing)|
      ensures var s := EdgeSeeds(edge, width, height, spacing)[k];
        OnBorder(s, width) && (width > 0 && height > 0 ==> Extent(s, width, height) > 0)
    {
      EdgeSeedOnBorder(edge, width, height, spacing, k);
    }
  }

  /** A value at least one above another has a larger floor. */
  lemma FloorIncreases(a: real, b: real)
    requires a + 1.0 <= b
    ensures a.Floor < b.Floor
  {
  }

  /** With a spacing of at least one pixel, two counter values of an edge are at least a pixel apart. */
  lemma CounterValuesApart(edge: Edge, width: int, height: int, spacing: real, i: int, j: int)
    requires spacing >= 1.0 && 0 <= i < j < |EdgeCounter(edge, width, height, spacing)|
    ensures var c := EdgeCounter(edge, width, height, spacing);
      if edge == TopEdge135 then c[j] + 1.0 <= c[i] else c[i] + 1.0 <= c[j]
  {
    EdgeCounterAt(edge, width, height, spacing, i);
    EdgeCounterAt(edge, width, height, spacing, j);
    ScaledApart(i, j, spacing);
  }

  lemma ScaledApart(i: int, j: int, spacing: real)
    requires i < j && spacing >= 1.0
    ensures i as real * spacing + 1.0 <= j as real * spacing
  {
    MulNonneg((j - i - 1) as real, spacing);
    assert j as real * spacing == i as real * spacing + (j - i - 1) as real * spacing + spacing;
  }

  /** With a spacing of at least one pixel, no edge seeds the same diagonal twice. */
  lemma EdgeSeedsDistinct(edge: Edge, width: int, height: int, spacing: real, i: int, j: int)
    requires spacing >= 1.0 && 0 <= i < j < |EdgeSeeds(edge, width, height, spacing)|
    ensures EdgeSeeds(edge, width, height, spacing)[i] != EdgeSeeds(edge, width, height, spacing)[j]
  {
    var c := EdgeCounter(edge, width, height, spacing);
    CounterValuesApart(edge, width, height, spacing, i, j);
    if edge == TopEdge135 {
      FloorIncreases(c[j], c[i]);
    } else {
      FloorIncreases(c[i], c[j]);
    }
  }

  /**
   * With a spacing of at least one pixel, the top edge never seeds the corner
   * diagonal the side edge has already scanned (the top-left one at 45
   * degrees, the top-right one at 135).
   */
  lemma TopSkipsCorner(edge: Edge, width: int, height: int, spacing: real, k: int)
    requires spacing >= 1.0 && (edge == TopEdge45 || edge == TopEdge135)
    requires 0 <= k < |EdgeSeeds(edge, width, height, spacing)|
    ensures var s := EdgeSeeds(edge, width, height, spacing)[k];
      if edge == TopEdge45 then s.x >= 1 else s.x <= width - 2
  {
    var c := EdgeCounter(edge, width, height, spacing);
    if edge == TopEdge45 {
      ProgressionValues(spacing, spacing, width as real);
      FloorIncreases(0.0, c[k]);
    } else {
      CountdownValues((width - 1) as real - spacing, spacing);
      FloorIncreases(c[k], (width - 1) as real);
    }
  }

  /** The seeds of a family: the side edge's, then the top edge's. */
  function FamilySeeds(width: int, height: int, spacing: real, at45: bool): seq<Scan>
    requires spacing > 0.0
  {
    if at45 then EdgeSeeds(LeftEdge, width, height, spacing) + EdgeSeeds(TopEdge45, width, height, spacing)
    else EdgeSeeds(RightEdge, width, height, spacing) + EdgeSeeds(TopEdge135, width, height, spacing)
  }

  /** A family's lines are the segments of its seeds, scanned in order. */
  lemma FamilyLines(img: Raster, settings: LineRenderSettings, at45: bool)
    requires img.Valid() && settings.lineSpacing > 0.0
    ensures (if at45 then Lines45(img, settings) else Lines135(img, settings)) ==
      ScansLines(img, settings.darknessThreshold, FamilySeeds(img.width, img.height, DiagonalSpacing(settings), at45))
  {
    var spacing := DiagonalSpacing(settings);
    if at45 {
      ScansLinesConcat(img, settings.darknessThreshold, EdgeSeeds(LeftEdge, img.width, img.height, spacing),
                       EdgeSeeds(TopEdge45, img.width, img.height, spacing));
    } else {
      ScansLinesConcat(img, settings.darknessThreshold, EdgeSeeds(RightEdge, img.width, img.height, spacing),
                       EdgeSeeds(TopEdge135, img.width, img.height, spacing));
    }
  }

  /** No diagonal appears twice. */
  predicate Distinct(seeds: seq<Scan>) {
    forall i, j :: 0 <= i < j < |seeds| ==> seeds[i] != seeds[j]
  }

  /** Two lists without repeats and without a common element join into one without repeats. */
  lemma ConcatDistinct(a: seq<Scan>, b: seq<Scan>)
    requires Distinct(a) && Distinct(b)
    requires forall i, j :: 0 <= i < |a| && 0 <= j < |b| ==> a[i] != b[j]
    ensures Distinct(a + b)
  {
    var c := a + b;
    forall i, j | 0 <= i < j < |c|
      ensures c[i] != c[j]
    {
      if j < |a| {
        assert c[i] == a[i] && c[j] == a[j];
      } else if i >= |a| {
        assert c[i] == b[i - |a|] && c[j] == b[j - |a|];
      } else {
        assert c[i] == a[i] && c[j] == b[j - |a|];
      }
    }
  }

  /** With a spacing of at least one pixel, a family scans no diagonal twice. */
  lemma FamilySeedsDistinct(width: int, height: int, spacing: real, at45: bool)
    requires spacing >= 1.0
    ensures Distinct(FamilySeeds(width, height, spacing, at45))
  {
    var side := if at45 then LeftEdge else RightEdge;
    var top := if at45 then TopEdge45 else TopEdge135;
    var a := EdgeSeeds(side, width, height, spacing);
    var b := EdgeSeeds(top, width, height, spacing);
    forall i, j | 0 <= i < j < |a|
      ensures a[i] != a[j]
    {
      EdgeSeedsDistinct(side, width, height, spacing, i, j);
    }
    forall i, j | 0 <= i < j < |b|
      ensures b[i] != b[j]
    {
      EdgeSeedsDistinct(top, width, height, spacing, i, j);
    }
    forall i, j | 0 <= i < |a| && 0 <= j < |b|
      ensures a[i] != b[j]
    {
      assert a[i] == Seed(side, width, EdgeCounter(side, width, height, spacing)[i]);
      TopSkipsCorner(top, width, height, spacing, j);
    }
    ConcatDistinct(a, b);
  }

  // ---------------------------------------------------------------------------
  // What the lines are

  /**
   * `l` joins pixel 0 and pixel `n` of the path `s`, both inside the grid;
   * every pixel between them is at or above the threshold, and the pixels
   * just beyond either end are below it or outside the grid.
   */
  ghost predicate DarkStretch(img: Raster, threshold: real, s: Scan, n: int, l: PlotLine)
    requires img.Valid()
  {
    && 0 <= n
    && l == Segment(s, Run(0, n))
    && img.InBounds(PixelAt(s, 0).0, PixelAt(s, 0).1)
    && img.InBounds(PixelAt(s, n).0, PixelAt(s, n).1)
    && (forall k :: 0 <= k <= n ==> DarkAt(img, threshold, s, k))
    && (img.InBounds(PixelAt(s, -1).0, PixelAt(s, -1).1) ==> !DarkAt(img, threshold, s, -1))
    && (img.InBounds(PixelAt(s, n + 1).0, PixelAt(s, n + 1).1) ==> !DarkAt(img, threshold, s, n + 1))
  }

  /** The diagonal through the start of `l`: at 45 degrees (right and down) or at 135 degrees (left and down). */
  function DiagonalThrough(at45: bool, l: PlotLine): Scan {
    if at45 then Diagonal45(l.start.x.Floor, l.start.y.Floor) else Diagonal135(l.start.x.Floor, l.start.y.Floor)
  }

  /** `l` is a maximal dark stretch of the diagonal of its direction through its start. */
  ghost predicate DarkDiagonal(img: Raster, threshold: real, at45: bool, l: PlotLine)
    requires img.Valid()
  {
    DarkStretch(img, threshold, DiagonalThrough(at45, l), l.end.y.Floor - l.start.y.Floor, l)
  }

  /** The diagonal `s` continued from its pixel `lo` on. */
  function From(s: Scan, lo: int): Scan {
    match s
    case Diagonal45(x, y) => Diagonal45(x + lo, y + lo)
    case Diagonal135(x, y) => Diagonal135(x - lo, y + lo)
    case _ => s
  }

  lemma FromPixel(s: Scan, lo: int, k: int)
    requires s.Diagonal45? || s.Diagonal135?
    ensures PixelAt(From(s, lo), k) == PixelAt(s, lo + k)
  {
  }

  /** A maximal dark block `lo..hi` of a diagonal is a maximal dark stretch of the diagonal continued from `lo`. */
  lemma RunIsStretch(img: Raster, threshold: real, s: Scan, lo: int, hi: int, l: PlotLine, at45: bool)
    requires img.Valid() && (s.Diagonal45? || s.Diagonal135?) && 0 <= lo <= hi
    requires l == Segment(s, Run(lo, hi))
    requires img.InBounds(PixelAt(s, lo).0, PixelAt(s, lo).1) && img.InBounds(PixelAt(s, hi).0, PixelAt(s, hi).1)
    requires forall k :: lo <= k <= hi ==> DarkAt(img, threshold, s, k)
    requires img.InBounds(PixelAt(s, lo - 1).0, PixelAt(s, lo - 1).1) ==> !DarkAt(img, threshold, s, lo - 1)
    requires img.InBounds(PixelAt(s, hi + 1).0, PixelAt(s, hi + 1).1) ==> !DarkAt(img, threshold, s, hi + 1)
    requires From(s, lo) == DiagonalThrough(at45, l) && hi - lo == l.end.y.Floor - l.start.y.Floor
    ensures DarkDiagonal(img, threshold, at45, l)
  {
    RunIsStretchFrom(img, threshold, s, lo, hi, l);
  }

  /** The same stretch, stated on the diagonal continued from `lo`. */
  lemma RunIsStretchFrom(img: Raster, threshold: real, s: Scan, lo: int, hi: int, l: PlotLine)
    requires img.Valid() && (s.Diagonal45? || s.Diagonal135?) && 0 <= lo <= hi
    requires l == Segment(s, Run(lo, hi))
    requires img.InBounds(PixelAt(s, lo).0, PixelAt(s, lo).1) && img.InBounds(PixelAt(s, hi).0, PixelAt(s, hi).1)
    requires forall k :: lo <= k <= hi ==> DarkAt(img, threshold, s, k)
    requires img.InBounds(PixelAt(s, lo - 1).0, PixelAt(s, lo - 1).1) ==> !DarkAt(img, threshold, s, lo - 1)
    requires img.InBounds(PixelAt(s, hi + 1).0, PixelAt(s, hi + 1).1) ==> !DarkAt(img, threshold, s, hi + 1)
    ensures DarkStretch(img, threshold, From(s, lo), hi - lo, l)
  {
    var f := From(s, lo);
    FromPixel(s, lo, 0);
    FromPixel(s, lo, hi - lo);
    FromPixel(s, lo, -1);
    FromPixel(s, lo, hi - lo + 1);
    forall k | 0 <= k <= hi - lo
      ensures DarkAt(img, threshold, f, k)
    {
      FromPixel(s, lo, k);
      assert DarkAt(img, threshold, s, lo + k);
    }
  }

  /** The diagonal continued from a segment's first pixel is the diagonal through its start, and the segment spans `hi - lo` rows. */
  lemma FromSegmentStart(s: Scan, lo: int, hi: int, l: PlotLine)
    requires (s.Diagonal45? || s.Diagonal135?) && l == Segment(s, Run(lo, hi))
    ensures From(s, lo) == DiagonalThrough(s.Diagonal45?, l)
    ensures hi - lo == l.end.y.Floor - l.start.y.Floor
  {
  }

  /** Every segment of a diagonal seeded on the border is a maximal dark stretch of it. */
  lemma BorderSegmentIsDarkStretch(img: Raster, threshold: real, s: Scan, l: PlotLine)
    requires img.Valid() && OnBorder(s, img.width) && l in ScanSegments(img, threshold, s)
    ensures DarkDiagonal(img, threshold, s.Diagonal45?, l)
  {
    var lo, hi := SegmentRun(img, threshold, s, l);
    ExtentBound(s, img.width, img.height, hi + 1);
    PathInGrid(s, img.width, img.height, lo);
    PathInGrid(s, img.width, img.height, hi);
    assert lo == 0 ==> !img.InBounds(PixelAt(s, lo - 1).0, PixelAt(s, lo - 1).1);
    FromSegmentStart(s, lo, hi, l);
    RunIsStretch(img, threshold, s, lo, hi, l, s.Diagonal45?);
  }

  /** Every line drawn from an edge is a maximal dark stretch of a diagonal of that edge's direction. */
  lemma EdgeLinesAreDarkStretches(img: Raster, settings: LineRenderSettings, edge: Edge, l: PlotLine)
    requires img.Valid() && settings.lineSpacing > 0.0 && l in EdgeLines(img, settings, edge)
    ensures DarkDiagonal(img, settings.darknessThreshold, edge == LeftEdge || edge == TopEdge45, l)
  {
    var threshold := settings.darknessThreshold;
    var seeds := EdgeSeeds(edge, img.width, img.height, DiagonalSpacing(settings));
    ScansLinesMember(img, threshold, seeds, l);
    var j :| 0 <= j < |seeds| && l in ScanSegments(img, threshold, seeds[j]);
    EdgeSeedOnBorder(edge, img.width, img.height, DiagonalSpacing(settings), j);
    BorderSegmentIsDarkStretch(img, threshold, seeds[j], l);
  }

  /** Every 45-degree line is a maximal dark stretch of a 45-degree diagonal. */
  lemma Lines45AreDarkDiagonals(img: Raster, settings: LineRenderSettings)
    requires img.Valid() && settings.lineSpacing > 0.0
    ensures forall l :: l in Lines45(img, settings) ==> DarkDiagonal(img, settings.darknessThreshold, true, l)
  {
    forall l | l in Lines45(img, settings)
      ensures DarkDiagonal(img, settings.darknessThreshold, true, l)
    {
      if l in EdgeLines(img, settings, LeftEdge) {
        EdgeLinesAreDarkStretches(img, settings, LeftEdge, l);
      } else {
        EdgeLinesAreDarkStretches(img, settings, TopEdge45, l);
      }
    }
  }

  /** Every 135-degree line is a maximal dark stretch of a 135-degree diagonal. */
  lemma Lines135AreDarkDiagonals(img: Raster, settings: LineRenderSettings)
    requires img.Valid() && settings.lineSpacing > 0.0
    ensures forall l :: l in Lines135(img, settings) ==> DarkDiagonal(img, settings.darknessThreshold, false, l)
  {
    forall l | l in Lines135(img, settings)
      ensures DarkDiagonal(img, settings.darknessThreshold, false, l)
    {
      if l in EdgeLines(img, settings, RightEdge) {
        EdgeLinesAreDarkStretches(img, settings, RightEdge, l);
      } else {
        EdgeLinesAreDarkStretches(img, settings, TopEdge135, l);
      }
    }
  }

  /** Conversely, every maximal block of dark pixels on a seeded diagonal is drawn. */
  lemma EdgeLinesComplete(img: Raster, settings: LineRenderSettings, edge: Edge, k: int, r: Run)
    requires img.Valid() && settings.lineSpacing > 0.0
    requires 0 <= k < |EdgeSeeds(edge, img.width, img.height, DiagonalSpacing(settings))|
    requires MaximalRun(DarkAlong(img, settings.darknessThreshold,
                                  EdgeSeeds(edge, img.width, img.height, DiagonalSpacing(settings))[k]), r)
    ensures Segment(EdgeSeeds(edge, img.width, img.height, DiagonalSpacing(settings))[k], r) in EdgeLines(img, settings, edge)
  {
    var threshold := settings.darknessThreshold;
    var seeds := EdgeSeeds(edge, img.width, img.height, DiagonalSpacing(settings));
    var d := DarkAlong(img, threshold, seeds[k]);
    MaximalRunsAreRuns(d, r);
    var i :| 0 <= i < |Runs(d)| && Runs(d)[i] == r;
    assert ScanSegments(img, threshold, seeds[k])[i] == Segment(seeds[k], r);
    ScansLinesMember(img, threshold, seeds, Segment(seeds[k], r));
  }

  /** An image with every pixel below a positive threshold gets no diagonal lines. */
  lemma LightImageNoDiagonals(img: Raster, settings: LineRenderSettings, draw45: bool, draw135: bool)
    requires img.Valid() && settings.darknessThreshold > 0.0 && AllBelow(img, settings.darknessThreshold)
    requires settings.lineSpacing > 0.0 || (!draw45 && !draw135)
    ensures DiagonalLines(img, settings, draw45, draw135) == []
  {
    if settings.lineSpacing > 0.0 {
      var spacing := DiagonalSpacing(settings);
      ScansLinesOfLightImage(img, settings.darknessThreshold, EdgeSeeds(LeftEdge, img.width, img.height, spacing));
      ScansLinesOfLightImage(img, settings.darknessThreshold, EdgeSeeds(TopEdge45, img.width, img.height, spacing));
      ScansLinesOfLightImage(img, settings.darknessThreshold, EdgeSeeds(RightEdge, img.width, img.height, spacing));
      ScansLinesOfLightImage(img, settings.darknessThreshold, EdgeSeeds(TopEdge135, img.width, img.height, spacing));
    }
  }

  /**
   * In a non-empty image with every pixel at or above the threshold, each
   * seeded diagonal becomes one line from the edge it starts on to the edge
   * it leaves the image by.
   */
  lemma DarkImageWholeDiagonals(img: Raster, settings: LineRenderSettings, edge: Edge)
    requires img.Valid() && settings.lineSpacing > 0.0 && AllAtLeast(img, settings.darknessThreshold)
    requires img.width > 0 && img.height > 0
    ensures EdgeLines(img, settings, edge) ==
      WholePaths(img.width, img.height, EdgeSeeds(edge, img.width, img.height, DiagonalSpacing(settings)))
  {
    EdgeSeedsOnBorder(edge, img.width, img.height, DiagonalSpacing(settings));
    ScansLinesOfDarkImage(img, settings.darknessThreshold, EdgeSeeds(edge, img.width, img.height, DiagonalSpacing(settings)));
  }

  // ---------------------------------------------------------------------------
  // The renderer

  class DiagonalHatchRenderer {
    var draw45Degrees: bool
    var draw135Degrees: bool

    /** Both families on. */
    constructor ()
      ensures draw45Degrees && draw135Degrees
    {
      draw45Degrees := true;
      draw135Degrees := true;
    }

    /** The enabled families, the 45-degree one first. */
    method GenerateLines(img: Raster, settings: LineRenderSettings) returns (lines: seq<PlotLine>)
      requires img.Valid() && (settings.lineSpacing > 0.0 || (!draw45Degrees && !draw135Degrees))
      ensures lines == DiagonalLines(img, settings, draw45Degrees, draw135Degrees)
    {
      lines := [];
      if draw45Degrees {
        lines := Generate45DegreeLines(img, settings, lines);
      }
      ghost var mid := lines;
      if draw135Degrees {
        lines := Generate135DegreeLines(img, settings, lines);
      }
      FamiliesDone(img, settings, draw45Degrees, draw135Degrees, mid, lines);
    }

    /** The 45-degree diagonals seeded down the left edge, then those seeded along the top edge. */
    method Generate45DegreeLines(img: Raster, settings: LineRenderSettings, lines: seq<PlotLine>)
      returns (out: seq<PlotLine>)
      requires img.Valid() && settings.lineSpacing > 0.0
      ensures out == lines + Lines45(img, settings)
    {
      var threshold := settings.darknessThreshold;
      var spacing := DiagonalSpacing(settings);
      ProgressionValues(0.0, spacing, img.height as real);
      ProgressionValues(spacing, spacing, img.width as real);
      var mid := ScanLeftEdge(img, threshold, spacing, EdgeCounter(LeftEdge, img.width, img.height, spacing), lines);
      out := ScanTopEdge45(img, threshold, spacing, EdgeCounter(TopEdge45, img.width, img.height, spacing), mid);
      FamilyDone(lines, EdgeLines(img, settings, LeftEdge), EdgeLines(img, settings, TopEdge45), mid, out,
                 Lines45(img, settings));
    }

    /**
     * The first loop of the 45-degree family: a diagonal from every `spacing`
     * down the left edge. The ghost `left` names the values the loop counts through.
     */
    method ScanLeftEdge(img: Raster, threshold: real, spacing: real, ghost left: seq<real>, lines: seq<PlotLine>)
      returns (out: seq<PlotLine>)
      requires img.Valid() && Spaced(left, 0.0, spacing, img.height as real)
      ensures out == lines + ScansLines(img, threshold, Seeds(LeftEdge, img.width, left))
    {
      out := lines;
      ghost var n := 0;
      var startY := 0.0;
      CountSpacedStarts(left, 0.0, spacing, img.height as real);
      while startY < img.height as real
        invariant Counting(left, n, startY, startY < img.height as real)
        invariant EdgeDrawnSoFar(img, threshold, LeftEdge, lines, left[..n], out)
        decreases |left| - n
      {
        ghost var before := out;
        out := ScanDiagonal45(img, threshold, 0, startY.Floor, out);
        EdgeStepUp(img, threshold, LeftEdge, lines, left, 0.0, spacing, img.height as real, n, startY, before, out);
        n := n + 1;
        startY := startY + spacing;
      }
      EdgeDone(img, threshold, LeftEdge, lines, left, n, out);
    }

    /**
     * The second loop of the 45-degree family: a diagonal from every `spacing`
     * along the top edge, after the corner. The ghost `top` names the values
     * the loop counts through.
     */
    method ScanTopEdge45(img: Raster, threshold: real, spacing: real, ghost top: seq<real>, lines: seq<PlotLine>)
      returns (out: seq<PlotLine>)
      requires img.Valid() && spacing > 0.0 && Spaced(top, spacing, spacing, img.width as real)
      ensures out == lines + ScansLines(img, threshold, Seeds(TopEdge45, img.width, top))
    {
      out := lines;
      ghost var k := 0;
      var startX := spacing;
      CountSpacedStarts(top, spacing, spacing, img.width as real);
      while startX < img.width as real
        invariant spacing <= startX
        invariant Counting(top, k, startX, startX < img.width as real)
        invariant EdgeDrawnSoFar(img, threshold, TopEdge45, lines, top[..k], out)
        decreases |top| - k
      {
        ghost var before := out;
        out := ScanDiagonal45(img, threshold, startX.Floor, 0, out);
        EdgeStepUp(img, threshold, TopEdge45, lines, top, spacing, spacing, img.width as real, k, startX, before, out);
        k := k + 1;
        startX := startX + spacing;
      }
      EdgeDone(img, threshold, TopEdge45, lines, top, k, out);
    }

    /** The 135-degree diagonals seeded down the right edge, then those seeded leftwards along the top edge. */
    method Generate135DegreeLines(img: Raster, settings: LineRenderSettings, lines: seq<PlotLine>)
      returns (out: seq<PlotLine>)
      requires img.Valid() && settings.lineSpacing > 0.0
      ensures out == lines + Lines135(img, settings)
    {
      var threshold := settings.darknessThreshold;
      var spacing := DiagonalSpacing(settings);
      ProgressionValues(0.0, spacing, img.height as real);
      CountdownValues((img.width - 1) as real - spacing, spacing);
      var mid := ScanRightEdge(img, threshold, spacing, EdgeCounter(RightEdge, img.width, img.height, spacing), lines);
      out := ScanTopEdge135(img, threshold, spacing, EdgeCounter(TopEdge135, img.width, img.height, spacing), mid);
      FamilyDone(lines, EdgeLines(img, settings, RightEdge), EdgeLines(img, settings, TopEdge135), mid, out,
                 Lines135(img, settings));
    }

    /**
     * The first loop of the 135-degree family: a diagonal from every `spacing`
     * down the right edge. The ghost `right` names the values the loop counts through.
     */
    method ScanRightEdge(img: Raster, threshold: real, spacing: real, ghost right: seq<real>, lines: seq<PlotLine>)
      returns (out: seq<PlotLine>)
      requires img.Valid() && Spaced(right, 0.0, spacing, img.height as real)
      ensures out == lines + ScansLines(img, threshold, Seeds(RightEdge, img.width, right))
    {
      out := lines;
      ghost var n := 0;
      var startY := 0.0;
      CountSpacedStarts(right, 0.0, spacing, img.height as real);
      while startY < img.height as real
        invariant Counting(right, n, startY, startY < img.height as real)
        invariant EdgeDrawnSoFar(img, threshold, RightEdge, lines, right[..n], out)
        decreases |right| - n
      {
        ghost var before := out;
        out := ScanDiagonal135(img, threshold, img.width - 1, startY.Floor, out);
        EdgeStepUp(img, threshold, RightEdge, lines, right, 0.0, spacing, img.height as real, n, startY, before, out);
        n := n + 1;
        startY := startY + spacing;
      }
      EdgeDone(img, threshold, RightEdge, lines, right, n, out);
    }

    /**
     * The second loop of the 135-degree family: a diagonal from every
     * `spacing` leftwards along the top edge, after the corner. The ghost
     * `top` names the values the loop counts through.
     */
    method ScanTopEdge135(img: Raster, threshold: real, spacing: real, ghost top: seq<real>, lines: seq<PlotLine>)
      returns (out: seq<PlotLine>)
      requires img.Valid() && SpacedDown(top, (img.width - 1) as real - spacing, spacing)
      ensures out == lines + ScansLines(img, threshold, Seeds(TopEdge135, img.width, top))
    {
      out := lines;
      ghost var k := 0;
      var startX := (img.width - 1) as real - spacing;
      CountSpacedDownStarts(top, (img.width - 1) as real - spacing, spacing);
      while startX >= 0.0
        invariant Counting(top, k, startX, startX >= 0.0)
        invariant EdgeDrawnSoFar(img, threshold, TopEdge135, lines, top[..k], out)
        decreases |top| - k
      {
        ghost var before := out;
        out := ScanDiagonal135(img, threshold, startX.Floor, 0, out);
        EdgeStepDown(img, threshold, TopEdge135, lines, top, (img.width - 1) as real - spacing, spacing, k, startX, before, out);
        k := k + 1;
        startX := startX - spacing;
      }
      EdgeDone(img, threshold, TopEdge135, lines, top, k, out);
    }

    /** One pass down a 45-degree diagonal from (startX, startY): a line over each maximal run of dark pixels. */
    method ScanDiagonal45(img: Raster, threshold: real, startX: int, startY: int, lines: seq<PlotLine>)
      returns (out: seq<PlotLine>)
      requires img.Valid() && 0 <= startX
      ensures out == lines + ScanSegments(img, threshold, Diagonal45(startX, startY))
    {
      ghost var s := Diagonal45(startX, startY);
      ghost var d := DarkAlong(img, threshold, s);
      ghost var run := -1;
      var x := startX;
      var y := startY;
      var lineStartX := -1;
      var lineStartY := -1;
      out := lines;
      while x < img.width && y < img.height
        invariant startX <= x && y - startY == x - startX <= |d|
        invariant ScannedSoFar(s, d, x - startX, lines, run, out)
        invariant OpenRunAt(s, x - startX, run, lineStartX, lineStartY)
        decreases img.width - x
      {
        ExtentBound(s, img.width, img.height, x - startX);
        DarkAlongAt(img, threshold, s, x - startX);
        var darkness := GetDarknessAt(img, x, y);
        ghost var start, before := run, out;
        if darkness >= threshold {
          if lineStartX < 0 {
            lineStartX := x;
            lineStartY := y;
            run := x - startX;
          }
        } else {
          if lineStartX >= 0 {
            out := out + [FromCoords(lineStartX as real, lineStartY as real, (x - 1) as real, (y - 1) as real)];
            lineStartX := -1;
            lineStartY := -1;
            run := -1;
          }
        }
        ScanAdvance(s, d, x - startX, lines, start, before, run, out);
        x := x + 1;
        y := y + 1;
      }
      ghost var last := x - startX;
      ExtentBound(s, img.width, img.height, last);
      ghost var before := out;
      if lineStartX >= 0 {
        out := out + [FromCoords(lineStartX as real, lineStartY as real, (x - 1) as real, (y - 1) as real)];
      }
      ScanComplete(s, d, last, lines, run, before, out);
    }

    /** One pass down a 135-degree diagonal from (startX, startY): a line over each maximal run of dark pixels. */
    method ScanDiagonal135(img: Raster, threshold: real, startX: int, startY: int, lines: seq<PlotLine>)
      returns (out: seq<PlotLine>)
      requires img.Valid()
      ensures out == lines + ScanSegments(img, threshold, Diagonal135(startX, startY))
    {
      ghost var s := Diagonal135(startX, startY);
      ghost var d := DarkAlong(img, threshold, s);
      ghost var run := -1;
      var x := startX;
      var y := startY;
      var lineStartX := -1;
      var lineStartY := -1;
      out := lines;
      while x >= 0 && y < img.height
        invariant x <= startX && y - startY == startX - x <= |d|
        invariant ScannedSoFar(s, d, startX - x, lines, run, out)
        invariant OpenRunAt(s, startX - x, run, lineStartX, lineStartY)
        decreases x
      {
        ExtentBound(s, img.width, img.height, startX - x);
        DarkAlongAt(img, threshold, s, startX - x);
        var darkness := GetDarknessAt(img, x, y);
        ghost var start, before := run, out;
        if darkness >= threshold {
          if lineStartX < 0 {
            lineStartX := x;
            lineStartY := y;
            run := startX - x;
          }
        } else {
          if lineStartX >= 0 {
            out := out + [FromCoords(lineStartX as real, lineStartY as real, (x + 1) as real, (y - 1) as real)];
            lineStartX := -1;
            lineStartY := -1;
            run := -1;
          }
        }
        ScanAdvance(s, d, startX - x, lines, start, before, run, out);
        x := x - 1;
        y := y + 1;
      }
      ghost var last := startX - x;
      ExtentBound(s, img.width, img.height, last);
      ghost var before := out;
      if lineStartX >= 0 {
        out := out + [FromCoords(lineStartX as real, lineStartY as real, (x + 1) as real, (y - 1) as real)];
      }
      ScanComplete(s, d, last, lines, run, before, out);
    }
  }

  /** The open run of a diagonal scan: none (both coordinates -1), or one starting at an earlier pixel of the path. */
  ghost predicate OpenRunAt(s: Scan, k: int, run: int, lineStartX: int, lineStartY: int) {
    if run < 0 then lineStartX == -1 && lineStartY == -1
    else run < k && (lineStartX, lineStartY) == PixelAt(s, run)
  }
}
