/**
 * The orthogonal hatch renderer: horizontal lines along sampled rows and
 * vertical lines along sampled columns, each drawn over the dark runs of
 * its row or column. Rows (columns) are sampled every `lineSpacing` pixels.
 * With adaptive spacing, the gap after a row (column) grows as the row
 * (column) gets lighter.
 */
module OrthogonalHatch {
  import opened LineRenderHelper
  import opened Plot
  import opened RenderSettings
  import opened RunScan
  import opened Stepping
  import opened Sequences

  /** A floating-point value that may be NaN, as 0/0 is; rounding is not modelled. */
  datatype Float = Finite(value: real) | NaN

  /** Rows are swept for horizontal lines, columns for vertical ones. */
  datatype Axis = Horizontal | Vertical

  /** How far the sampling counter runs: down the height for rows, across the width for columns. */
  function Span(img: Raster, axis: Axis): int {
    if axis == Horizontal then img.height else img.width
  }

  /** The row or column at position `p`. */
  function LineAt(axis: Axis, p: int): Scan {
    if axis == Horizontal then Row(p) else Column(p)
  }

  function LineScans(axis: Axis, ps: seq<int>): (r: seq<Scan>)
    ensures |r| == |ps| && forall i :: 0 <= i < |ps| ==> r[i] == LineAt(axis, ps[i])
  {
    seq(|ps|, i requires 0 <= i < |ps| => LineAt(axis, ps[i]))
  }

  // ---------------------------------------------------------------------------
  // Average darkness and the adaptive gap

  /** Sum of the darkness of the first `n` pixels of a path. */
  function DarknessSum(img: Raster, s: Scan, n: nat): (r: real)
    requires img.Valid()
    ensures 0.0 <= r <= n as real
  {
    if n == 0 then 0.0 else DarknessSum(img, s, n - 1) + GetDarknessAt(img, PixelAt(s, n - 1).0, PixelAt(s, n - 1).1)
  }

  /** Floating-point division of a sum of darknesses by their count: NaN for no pixels, else within [0, 1]. */
  function Mean(sum: real, n: nat): (m: Float)
    requires 0.0 <= sum <= n as real
    ensures m == NaN <==> n == 0
    ensures m.Finite? ==> 0.0 <= m.value <= 1.0 && m.value * n as real == sum
  {
    if n == 0 then NaN else DivideAtMostOne(sum, n as real); Finite(sum / n as real)
  }

  lemma DivideAtMostOne(sum: real, n: real)
    requires n > 0.0 && 0.0 <= sum <= n
    ensures 0.0 <= sum / n <= 1.0
  {
    assert sum / n * n == sum;
  }

  /** The average darkness along a whole row or column: NaN for an empty one. */
  function LineAverage(img: Raster, s: Scan): Float
    requires img.Valid()
  {
    var n := Extent(s, img.width, img.height);
    Mean(DarknessSum(img, s, n), n)
  }

  /** The gap after a line of average darkness `avg`. */
  function AdaptiveSpacing(lineSpacing: real, avg: real): real {
    lineSpacing * (1.0 + (1.0 - avg) * 2.0)
  }

  /**
   * The adaptive gap lies between one and three line spacings, is one for a
   * black line and three for a white one, and shrinks as the line darkens.
   */
  lemma AdaptiveSpacingRange(lineSpacing: real, avg: real, darker: real)
    requires lineSpacing > 0.0 && 0.0 <= avg <= darker <= 1.0
    ensures lineSpacing <= AdaptiveSpacing(lineSpacing, avg) <= 3.0 * lineSpacing
    ensures AdaptiveSpacing(lineSpacing, darker) <= AdaptiveSpacing(lineSpacing, avg)
    ensures AdaptiveSpacing(lineSpacing, 1.0) == lineSpacing
    ensures AdaptiveSpacing(lineSpacing, 0.0) == 3.0 * lineSpacing
  {
    assert AdaptiveSpacing(lineSpacing, avg) == 3.0 * lineSpacing - lineSpacing * (avg * 2.0);
    assert AdaptiveSpacing(lineSpacing, darker) == 3.0 * lineSpacing - lineSpacing * (darker * 2.0);
    MulNonneg(lineSpacing, (1.0 - avg) * 2.0);
    MulNonneg(lineSpacing, avg * 2.0);
    MulNonneg(lineSpacing, (darker - avg) * 2.0);
    assert lineSpacing * (darker * 2.0) - lineSpacing * (avg * 2.0) == lineSpacing * ((darker - avg) * 2.0);
  }

  // ---------------------------------------------------------------------------
  // The sweep over rows (columns)

  /** Every finite average darkness of the table lies within [0, 1]. */
  predicate AveragesInRange(avgs: seq<Float>) {
    forall p :: 0 <= p < |avgs| && avgs[p].Finite? ==> 0.0 <= avgs[p].value <= 1.0
  }

  /** The average darkness of every row (column) of the image, by position. */
  function LineAverages(img: Raster, axis: Axis): (r: seq<Float>)
    requires img.Valid()
    ensures |r| == Span(img, axis) && AveragesInRange(r)
  {
    AveragesBelow(img, axis, Span(img, axis))
  }

  /** The average darkness of the first `n` rows (columns). */
  function AveragesBelow(img: Raster, axis: Axis, n: nat): (r: seq<Float>)
    requires img.Valid()
    ensures |r| == n && AveragesInRange(r)
  {
    if n == 0 then [] else AveragesBelow(img, axis, n - 1) + [LineAverage(img, LineAt(axis, n - 1))]
  }

  /** Entry `p` of the table is the average darkness of row (column) `p`. */
  lemma LineAveragesAt(img: Raster, axis: Axis, p: int)
    requires img.Valid() && 0 <= p < Span(img, axis)
    ensures LineAverages(img, axis)[p] == LineAverage(img, LineAt(axis, p))
  {
    AveragesBelowAt(img, axis, Span(img, axis), p);
  }

  lemma {:induction false} AveragesBelowAt(img: Raster, axis: Axis, n: nat, p: int)
    requires img.Valid() && 0 <= p < n
    ensures AveragesBelow(img, axis, n)[p] == LineAverage(img, LineAt(axis, p))
  {
    if p < n - 1 {
      AveragesBelowAt(img, axis, n - 1, p);
    }
  }

  /**
   * The counter's step after the row (column) at counter value `v`: the line
   * spacing, or with adaptive spacing the gap for that row's (column's)
   * average, which is NaN when the average is.
   */
  function Gap(avgs: seq<Float>, lineSpacing: real, adaptive: bool, v: real): (g: Float)
    requires 0.0 <= v < |avgs| as real
    ensures g == NaN <==> adaptive && avgs[v.Floor] == NaN
  {
    if !adaptive then
      Finite(lineSpacing)
    else
      match avgs[v.Floor]
      case NaN => NaN
      case Finite(a) => Finite(AdaptiveSpacing(lineSpacing, a))
  }

  /** A finite gap is at least one line spacing and at most three. */
  lemma GapRange(avgs: seq<Float>, lineSpacing: real, adaptive: bool, v: real)
    requires AveragesInRange(avgs) && 0.0 <= v < |avgs| as real && lineSpacing > 0.0
    ensures Gap(avgs, lineSpacing, adaptive, v).Finite? ==>
      lineSpacing <= Gap(avgs, lineSpacing, adaptive, v).value <= 3.0 * lineSpacing
  {
    if adaptive && avgs[v.Floor].Finite? {
      AdaptiveSpacingRange(lineSpacing, avgs[v.Floor].value, avgs[v.Floor].value);
    }
  }

  /**
   * The rows (columns) the sweep visits from counter value `v` on: the one at
   * `v`, then those after the gap, until the counter leaves the image or the
   * gap is NaN.
   */
  function PositionsFrom(avgs: seq<Float>, lineSpacing: real, adaptive: bool, v: real): seq<int>
    requires AveragesInRange(avgs) && 0.0 <= v
    requires lineSpacing > 0.0 || v >= |avgs| as real
    decreases if lineSpacing > 0.0 then (|avgs| as real - v) / lineSpacing else 0.0
  {
    if v >= |avgs| as real then
      []
    else
      match Gap(avgs, lineSpacing, adaptive, v)
      case NaN => [v.Floor]
      case Finite(step) =>
        GapRange(avgs, lineSpacing, adaptive, v);
        StepDecreases(|avgs| as real, v, step, lineSpacing);
        [v.Floor] + PositionsFrom(avgs, lineSpacing, adaptive, v + step)
  }

  /** A sorted list of positions stays sorted with a smaller position in front. */
  lemma ConsAscending(p: int, rest: seq<int>, strict: bool)
    requires forall i, j :: 0 <= i < j < |rest| ==> (if strict then rest[i] < rest[j] else rest[i] <= rest[j])
    requires forall i :: 0 <= i < |rest| ==> (if strict then p < rest[i] else p <= rest[i])
    ensures var ps := [p] + rest;
      forall i, j :: 0 <= i < j < |ps| ==> (if strict then ps[i] < ps[j] else ps[i] <= ps[j])
  {
    var ps := [p] + rest;
    forall i, j | 0 <= i < j < |ps|
      ensures if strict then ps[i] < ps[j] else ps[i] <= ps[j]
    {
      assert ps[j] == rest[j - 1];
      if i > 0 {
        assert ps[i] == rest[i - 1];
      }
    }
  }

  /**
   * The sweep visits at least one row (column) exactly when the counter
   * starts inside the image; it visits rows (columns) of the image only,
   * from `floor(v)` on, in ascending order, and never the same twice when
   * the spacing is at least one pixel.
   */
  lemma {:induction false} PositionsAscending(avgs: seq<Float>, lineSpacing: real, adaptive: bool, v: real)
    requires AveragesInRange(avgs) && 0.0 <= v
    requires lineSpacing > 0.0 || v >= |avgs| as real
    ensures var ps := PositionsFrom(avgs, lineSpacing, adaptive, v);
      && (|ps| == 0 <==> v >= |avgs| as real)
      && (|ps| > 0 ==> ps[0] == v.Floor)
      && (forall i :: 0 <= i < |ps| ==> v.Floor <= ps[i] < |avgs|)
      && (forall i, j :: 0 <= i < j < |ps| ==> ps[i] <= ps[j])
      && (lineSpacing >= 1.0 ==> forall i, j :: 0 <= i < j < |ps| ==> ps[i] < ps[j])
    decreases if lineSpacing > 0.0 then (|avgs| as real - v) / lineSpacing else 0.0
  {
    if v < |avgs| as real && Gap(avgs, lineSpacing, adaptive, v).Finite? {
      var step := Gap(avgs, lineSpacing, adaptive, v).value;
      GapRange(avgs, lineSpacing, adaptive, v);
      StepDecreases(|avgs| as real, v, step, lineSpacing);
      PositionsAscending(avgs, lineSpacing, adaptive, v + step);
      var rest := PositionsFrom(avgs, lineSpacing, adaptive, v + step);
      assert PositionsFrom(avgs, lineSpacing, adaptive, v) == [v.Floor] + rest;
      ConsAscending(v.Floor, rest, false);
      if lineSpacing >= 1.0 {
        ConsAscending(v.Floor, rest, true);
      }
    }
  }

  /** Without adaptive spacing, the sweep visits the floors of `v, v + lineSpacing, ...` below the span. */
  lemma {:induction false} FixedSpacingPositions(avgs: seq<Float>, lineSpacing: real, v: real)
    requires AveragesInRange(avgs) && 0.0 <= v && lineSpacing > 0.0
    ensures PositionsFrom(avgs, lineSpacing, false, v) == Floors(Progression(v, lineSpacing, |avgs| as real))
    decreases (|avgs| as real - v) / lineSpacing
  {
    if v < |avgs| as real {
      StepDecreases(|avgs| as real, v, lineSpacing, lineSpacing);
      FixedSpacingPositions(avgs, lineSpacing, v + lineSpacing);
    }
  }

  /** With adaptive spacing, every visited row (column) but the last has a finite average. */
  lemma {:induction false} AdaptiveStopsAtNaN(avgs: seq<Float>, lineSpacing: real, v: real)
    requires AveragesInRange(avgs) && 0.0 <= v && lineSpacing > 0.0
    ensures var ps := PositionsFrom(avgs, lineSpacing, true, v);
      forall i :: 0 <= i < |ps| - 1 ==> 0 <= ps[i] < |avgs| && avgs[ps[i]].Finite?
    decreases (|avgs| as real - v) / lineSpacing
  {
    var ps := PositionsFrom(avgs, lineSpacing, true, v);
    if v < |avgs| as real && Gap(avgs, lineSpacing, true, v).Finite? {
      var step := Gap(avgs, lineSpacing, true, v).value;
      GapRange(avgs, lineSpacing, true, v);
      StepDecreases(|avgs| as real, v, step, lineSpacing);
      AdaptiveStopsAtNaN(avgs, lineSpacing, v + step);
      PositionsAscending(avgs, lineSpacing, true, v + step);
      var rest := PositionsFrom(avgs, lineSpacing, true, v + step);
      assert ps == [v.Floor] + rest;
      assert avgs[v.Floor].Finite?;
      forall i | 0 <= i < |ps| - 1
        ensures 0 <= ps[i] < |avgs| && avgs[ps[i]].Finite?
      {
        if i > 0 {
          assert ps[i] == rest[i - 1];
        }
      }
    }
  }

  /** After the visits `visited`, the visits from counter value `v` on complete the sweep `all`. */
  ghost predicate VisitsSoFar(avgs: seq<Float>, lineSpacing: real, adaptive: bool, v: real, visited: seq<int>, all: seq<int>)
    requires AveragesInRange(avgs) && 0.0 <= v && (lineSpacing > 0.0 || v >= |avgs| as real)
  {
    visited + PositionsFrom(avgs, lineSpacing, adaptive, v) == all
  }

  /** Visiting the row (column) at counter value `v` and taking a finite gap keeps the account of the visits to come. */
  lemma PositionsAdvance(avgs: seq<Float>, lineSpacing: real, adaptive: bool, v: real, step: real,
                         all: seq<int>, visited: seq<int>)
    requires AveragesInRange(avgs) && 0.0 <= v < |avgs| as real && lineSpacing > 0.0
    requires Gap(avgs, lineSpacing, adaptive, v) == Finite(step)
    requires VisitsSoFar(avgs, lineSpacing, adaptive, v, visited, all)
    ensures step >= lineSpacing
    ensures VisitsSoFar(avgs, lineSpacing, adaptive, v + step, visited + [v.Floor], all)
  {
    GapRange(avgs, lineSpacing, adaptive, v);
    AppendShift(visited, [v.Floor], PositionsFrom(avgs, lineSpacing, adaptive, v + step),
                PositionsFrom(avgs, lineSpacing, adaptive, v), all, visited + [v.Floor]);
  }

  /** Visiting the row (column) at counter value `v` when the gap is NaN is the last visit. */
  lemma PositionsStop(avgs: seq<Float>, lineSpacing: real, adaptive: bool, v: real, all: seq<int>, visited: seq<int>)
    requires AveragesInRange(avgs) && 0.0 <= v < |avgs| as real && lineSpacing > 0.0
    requires Gap(avgs, lineSpacing, adaptive, v) == NaN
    requires VisitsSoFar(avgs, lineSpacing, adaptive, v, visited, all)
    ensures visited + [v.Floor] == all
  {
  }

  /** Once the counter has left the image, every visit has been made. */
  lemma PositionsDone(avgs: seq<Float>, lineSpacing: real, adaptive: bool, v: real, all: seq<int>, visited: seq<int>)
    requires AveragesInRange(avgs) && |avgs| as real <= v
    requires VisitsSoFar(avgs, lineSpacing, adaptive, v, visited, all)
    ensures visited == all
  {
    assert PositionsFrom(avgs, lineSpacing, adaptive, v) == [];
  }

  // ---------------------------------------------------------------------------
  // The renderer's output

  /** The rows (columns) one sweep visits. */
  function Positions(img: Raster, settings: LineRenderSettings, adaptive: bool, axis: Axis): seq<int>
    requires img.Valid()
    requires settings.lineSpacing > 0.0 || Span(img, axis) <= 0
  {
    PositionsFrom(LineAverages(img, axis), settings.lineSpacing, adaptive, 0.0)
  }

  /**
   * The lines of one sweep, in the order the renderer adds them: the scans
   * of the rows (columns) it visits, one after the other, each drawing a
   * line over every maximal dark run of its row (column).
   */
  function SweepLines(img: Raster, settings: LineRenderSettings, adaptive: bool, axis: Axis): seq<PlotLine>
    requires img.Valid()
    requires settings.lineSpacing > 0.0 || Span(img, axis) <= 0
  {
    ScansLines(img, settings.darknessThreshold, LineScans(axis, Positions(img, settings, adaptive, axis)))
  }

  /** Everything the renderer returns: the horizontal sweep, then the vertical one. */
  function HatchLines(img: Raster, settings: LineRenderSettings, horizontal: bool, vertical: bool, adaptive: bool): seq<PlotLine>
    requires img.Valid()
    requires settings.lineSpacing > 0.0 || ((!horizontal || img.height <= 0) && (!vertical || img.width <= 0))
  {
    (if horizontal then SweepLines(img, settings, adaptive, Horizontal) else [])
    + (if vertical then SweepLines(img, settings, adaptive, Vertical) else [])
  }

  /** What a sweep has drawn onto `lines` after scanning the rows (columns) `visited`. */
  ghost predicate DrawnSoFar(img: Raster, threshold: real, axis: Axis, lines: seq<PlotLine>, visited: seq<int>, out: seq<PlotLine>)
    requires img.Valid()
  {
    out == lines + ScansLines(img, threshold, LineScans(axis, visited))
  }

  /** Scanning one more row (column) appends its segments to what was drawn. */
  lemma DrawnAdvance(img: Raster, threshold: real, axis: Axis, visited: seq<int>, p: int,
                     lines: seq<PlotLine>, before: seq<PlotLine>, after: seq<PlotLine>)
    requires img.Valid()
    requires DrawnSoFar(img, threshold, axis, lines, visited, before)
    requires after == before + ScanSegments(img, threshold, LineAt(axis, p))
    ensures DrawnSoFar(img, threshold, axis, lines, visited + [p], after)
  {
    var scans := LineScans(axis, visited);
    var next := LineScans(axis, visited + [p]);
    assert next == scans + [LineAt(axis, p)];
    ScansLinesSnoc(img, threshold, scans, LineAt(axis, p), next);
    AppendAssoc(lines, ScansLines(img, threshold, scans), ScanSegments(img, threshold, LineAt(axis, p)), before, after,
                ScansLines(img, threshold, next));
  }

  /**
   * One pass of a sweep at counter `v`: once row (column) `(int)v` is scanned, the
   * drawing covers it, and the gap either ends the sweep there (NaN) or moves the
   * counter on by at least one line spacing to the rest of the rows it visits.
   */
  lemma SweepPass(img: Raster, settings: LineRenderSettings, adaptive: bool, axis: Axis, v: real, gap: Float,
                  visited: seq<int>, lines: seq<PlotLine>, before: seq<PlotLine>, after: seq<PlotLine>)
    requires img.Valid() && 0.0 <= v < Span(img, axis) as real && settings.lineSpacing > 0.0
    requires VisitsSoFar(LineAverages(img, axis), settings.lineSpacing, adaptive, v, visited,
                         Positions(img, settings, adaptive, axis))
    requires DrawnSoFar(img, settings.darknessThreshold, axis, lines, visited, before)
    requires after == before + ScanSegments(img, settings.darknessThreshold, LineAt(axis, v.Floor))
    requires gap == Gap(LineAverages(img, axis), settings.lineSpacing, adaptive, v)
    ensures DrawnSoFar(img, settings.darknessThreshold, axis, lines, visited + [v.Floor], after)
    ensures gap == NaN ==> visited + [v.Floor] == Positions(img, settings, adaptive, axis)
    ensures gap.Finite? ==> gap.value >= settings.lineSpacing
    ensures gap.Finite? ==>
      VisitsSoFar(LineAverages(img, axis), settings.lineSpacing, adaptive, v + gap.value, visited + [v.Floor],
                  Positions(img, settings, adaptive, axis))
  {
    var avgs := LineAverages(img, axis);
    var all := Positions(img, settings, adaptive, axis);
    DrawnAdvance(img, settings.darknessThreshold, axis, visited, v.Floor, lines, before, after);
    if gap == NaN {
      PositionsStop(avgs, settings.lineSpacing, adaptive, v, all, visited);
    } else {
      PositionsAdvance(avgs, settings.lineSpacing, adaptive, v, gap.value, all, visited);
    }
  }

  /** Having drawn every row (column) of the sweep, the renderer has drawn the sweep. */
  lemma DrawnAll(img: Raster, settings: LineRenderSettings, adaptive: bool, axis: Axis, lines: seq<PlotLine>, out: seq<PlotLine>)
    requires img.Valid() && (settings.lineSpacing > 0.0 || Span(img, axis) <= 0)
    requires DrawnSoFar(img, settings.darknessThreshold, axis, lines, Positions(img, settings, adaptive, axis), out)
    ensures out == lines + SweepLines(img, settings, adaptive, axis)
  {
  }

  /** With fixed spacing, a sweep visits the rows (columns) `(int)0, (int)s, (int)2s, ...` below the span. */
  lemma FixedSweepPositions(img: Raster, settings: LineRenderSettings, axis: Axis)
    requires img.Valid() && settings.lineSpacing > 0.0
    ensures Positions(img, settings, false, axis) == Floors(Progression(0.0, settings.lineSpacing, Span(img, axis) as real))
  {
    FixedSpacingPositions(LineAverages(img, axis), settings.lineSpacing, 0.0);
  }

  /**
   * A sweep visits rows (columns) of the image only, in ascending order, the
   * first being row (column) 0 of a non-empty image; with a spacing of at
   * least one pixel it never visits one twice.
   */
  lemma SweepVisitsLines(img: Raster, settings: LineRenderSettings, adaptive: bool, axis: Axis)
    requires img.Valid()
    requires settings.lineSpacing > 0.0 || Span(img, axis) <= 0
    ensures var ps := Positions(img, settings, adaptive, axis);
      && (|ps| == 0 <==> Span(img, axis) <= 0)
      && (|ps| > 0 ==> ps[0] == 0)
      && (forall i :: 0 <= i < |ps| ==> 0 <= ps[i] < Span(img, axis))
      && (settings.lineSpacing >= 1.0 ==> forall i, j :: 0 <= i < j < |ps| ==> ps[i] < ps[j])
  {
    PositionsAscending(LineAverages(img, axis), settings.lineSpacing, adaptive, 0.0);
  }

  /** An image with every pixel below a positive threshold gets no lines. */
  lemma LightImageNoLines(img: Raster, settings: LineRenderSettings, horizontal: bool, vertical: bool, adaptive: bool)
    requires img.Valid() && settings.darknessThreshold > 0.0 && AllBelow(img, settings.darknessThreshold)
    requires settings.lineSpacing > 0.0 || ((!horizontal || img.height <= 0) && (!vertical || img.width <= 0))
    ensures HatchLines(img, settings, horizontal, vertical, adaptive) == []
  {
    if horizontal {
      ScansLinesOfLightImage(img, settings.darknessThreshold, LineScans(Horizontal, Positions(img, settings, adaptive, Horizontal)));
    }
    if vertical {
      ScansLinesOfLightImage(img, settings.darknessThreshold, LineScans(Vertical, Positions(img, settings, adaptive, Vertical)));
    }
  }

  /** How many pixels a line of the axis crosses: the width for a row, the height for a column. */
  function Breadth(img: Raster, axis: Axis): int {
    if axis == Horizontal then img.width else img.height
  }

  /**
   * Every line of a sweep lies along a visited row (column) `p` inside the
   * image, from pixel `lo` to pixel `hi` of it, and covers a block of dark
   * pixels that cannot be extended: the pixels just beyond it are light or
   * past the edge.
   */
  lemma SweepLineIsDarkRun(img: Raster, settings: LineRenderSettings, adaptive: bool, axis: Axis, l: PlotLine)
    returns (p: int, lo: int, hi: int)
    requires img.Valid() && (settings.lineSpacing > 0.0 || Span(img, axis) <= 0)
    requires l in SweepLines(img, settings, adaptive, axis)
    ensures p in Positions(img, settings, adaptive, axis) && 0 <= p < Span(img, axis)
    ensures 0 <= lo <= hi < Breadth(img, axis)
    ensures axis == Horizontal ==> l == FromCoords(lo as real, p as real, hi as real, p as real)
    ensures axis == Vertical ==> l == FromCoords(p as real, lo as real, p as real, hi as real)
    ensures MaximalRun(DarkAlong(img, settings.darknessThreshold, LineAt(axis, p)), Run(lo, hi))
    ensures DarkStretchAlong(img, settings.darknessThreshold, LineAt(axis, p), lo, hi)
  {
    var threshold := settings.darknessThreshold;
    var ps := Positions(img, settings, adaptive, axis);
    var scans := LineScans(axis, ps);
    SweepVisitsLines(img, settings, adaptive, axis);
    ScansLinesMember(img, threshold, scans, l);
    var j :| 0 <= j < |scans| && l in ScanSegments(img, threshold, scans[j]);
    p := ps[j];
    var s := LineAt(axis, p);
    assert scans[j] == s;
    var segs := ScanSegments(img, threshold, s);
    var i :| 0 <= i < |segs| && segs[i] == l;
    ScanSegmentsAreDarkRuns(img, threshold, s, i);
    var r := Runs(DarkAlong(img, threshold, s))[i];
    lo, hi := r.lo, r.hi;
    assert r == Run(lo, hi);
    MaximalRunIsDark(img, threshold, s, lo, hi);
  }

  /** Conversely, every maximal block of dark pixels on a visited row (column) is drawn. */
  lemma SweepLinesComplete(img: Raster, settings: LineRenderSettings, adaptive: bool, axis: Axis, p: int, lo: int, hi: int)
    requires img.Valid() && (settings.lineSpacing > 0.0 || Span(img, axis) <= 0)
    requires p in Positions(img, settings, adaptive, axis)
    requires MaximalRun(DarkAlong(img, settings.darknessThreshold, LineAt(axis, p)), Run(lo, hi))
    ensures Segment(LineAt(axis, p), Run(lo, hi)) in SweepLines(img, settings, adaptive, axis)
  {
    var threshold := settings.darknessThreshold;
    var ps := Positions(img, settings, adaptive, axis);
    var scans := LineScans(axis, ps);
    var s := LineAt(axis, p);
    var d := DarkAlong(img, threshold, s);
    MaximalRunsAreRuns(d, Run(lo, hi));
    var i :| 0 <= i < |Runs(d)| && Runs(d)[i] == Run(lo, hi);
    assert ScanSegments(img, threshold, s)[i] == Segment(s, Run(lo, hi));
    var j :| 0 <= j < |ps| && ps[j] == p;
    assert scans[j] == s;
    ScansLinesMember(img, threshold, scans, Segment(s, Run(lo, hi)));
  }

  /** The line the renderer draws over an all-dark row (column) `p`: across the whole width (height). */
  function FullLine(axis: Axis, p: int, width: int, height: int): PlotLine {
    if axis == Horizontal then FromCoords(0.0, p as real, (width - 1) as real, p as real)
    else FromCoords(p as real, 0.0, p as real, (height - 1) as real)
  }

  /** One full line per position. */
  function FullLines(axis: Axis, ps: seq<int>, width: int, height: int): (r: seq<PlotLine>)
    ensures |r| == |ps|
  {
    if |ps| == 0 then [] else [FullLine(axis, ps[0], width, height)] + FullLines(axis, ps[1..], width, height)
  }

  /**
   * In an image with every pixel at or above the threshold, every visited
   * row (column) becomes one line across the whole width (height).
   */
  lemma DarkImageFullLines(img: Raster, settings: LineRenderSettings, adaptive: bool, axis: Axis)
    requires img.Valid() && AllAtLeast(img, settings.darknessThreshold) && Breadth(img, axis) > 0
    requires settings.lineSpacing > 0.0 || Span(img, axis) <= 0
    ensures SweepLines(img, settings, adaptive, axis) ==
      FullLines(axis, Positions(img, settings, adaptive, axis), img.width, img.height)
  {
    SweepVisitsLines(img, settings, adaptive, axis);
    LinesOfDarkImage(img, settings.darknessThreshold, axis, Positions(img, settings, adaptive, axis));
  }

  lemma {:induction false} LinesOfDarkImage(img: Raster, threshold: real, axis: Axis, ps: seq<int>)
    requires img.Valid() && AllAtLeast(img, threshold) && Breadth(img, axis) > 0
    requires forall i :: 0 <= i < |ps| ==> 0 <= ps[i] < Span(img, axis)
    ensures ScansLines(img, threshold, LineScans(axis, ps)) == FullLines(axis, ps, img.width, img.height)
  {
    if |ps| > 0 {
      var scans := LineScans(axis, ps);
      var s := LineAt(axis, ps[0]);
      assert scans[0] == s;
      DarkImageOneSegment(img, threshold, s);
      assert ScanSegments(img, threshold, scans[0]) == [FullLine(axis, ps[0], img.width, img.height)];
      assert scans[1..] == LineScans(axis, ps[1..]);
      LinesOfDarkImage(img, threshold, axis, ps[1..]);
    }
  }

  /** A fixed-spacing sweep of 4 over a span of 10 visits 0, 4 and 8. */
  lemma SpacingFourOverTen(img: Raster, settings: LineRenderSettings, axis: Axis)
    requires img.Valid() && Span(img, axis) == 10 && settings.lineSpacing == 4.0
    ensures Positions(img, settings, false, axis) == [0, 4, 8]
  {
    FixedSweepPositions(img, settings, axis);
    assert Progression(12.0, 4.0, 10.0) == [];
    assert Progression(8.0, 4.0, 10.0) == [8.0];
    assert Progression(4.0, 4.0, 10.0) == [4.0, 8.0];
    assert Progression(0.0, 4.0, 10.0) == [0.0, 4.0, 8.0];
  }

  /** Swept at fixed spacing 4, a 10 by 10 image dark everywhere gets full lines at 0, 4 and 8. */
  lemma DarkTenByTenSweep(img: Raster, settings: LineRenderSettings, axis: Axis)
    requires img.Valid() && img.width == 10 && img.height == 10
    requires AllAtLeast(img, settings.darknessThreshold) && settings.lineSpacing == 4.0
    ensures SweepLines(img, settings, false, axis) == FullLines(axis, [0, 4, 8], 10, 10)
  {
    SpacingFourOverTen(img, settings, axis);
    DarkImageFullLines(img, settings, false, axis);
  }

  /**
   * A 10 by 10 image dark everywhere, hatched both ways every 4 pixels,
   * gets rows 0, 4 and 8 and columns 0, 4 and 8, each across the whole image.
   */
  lemma DarkTenByTenHatch(img: Raster, settings: LineRenderSettings)
    requires img.Valid() && img.width == 10 && img.height == 10
    requires AllAtLeast(img, settings.darknessThreshold) && settings.lineSpacing == 4.0
    ensures HatchLines(img, settings, true, true, false) ==
      [FromCoords(0.0, 0.0, 9.0, 0.0), FromCoords(0.0, 4.0, 9.0, 4.0), FromCoords(0.0, 8.0, 9.0, 8.0),
       FromCoords(0.0, 0.0, 0.0, 9.0), FromCoords(4.0, 0.0, 4.0, 9.0), FromCoords(8.0, 0.0, 8.0, 9.0)]
  {
    DarkTenByTenSweep(img, settings, Horizontal);
    DarkTenByTenSweep(img, settings, Vertical);
    assert FullLines(Horizontal, [0, 4, 8], 10, 10) ==
      [FromCoords(0.0, 0.0, 9.0, 0.0), FromCoords(0.0, 4.0, 9.0, 4.0), FromCoords(0.0, 8.0, 9.0, 8.0)];
    assert FullLines(Vertical, [0, 4, 8], 10, 10) ==
      [FromCoords(0.0, 0.0, 0.0, 9.0), FromCoords(4.0, 0.0, 4.0, 9.0), FromCoords(8.0, 0.0, 8.0, 9.0)];
  }

  class OrthogonalHatchRenderer {
    var drawHorizontal: bool
    var drawVertical: bool
    var adaptiveSpacing: bool

    /** Both directions on, adaptive spacing off. */
    constructor ()
      ensures drawHorizontal && drawVertical && !adaptiveSpacing
    {
      drawHorizontal := true;
      drawVertical := true;
      adaptiveSpacing := false;
    }

    /** The horizontal sweep, if enabled, then the vertical sweep, if enabled. */
    method GenerateLines(img: Raster, settings: LineRenderSettings) returns (lines: seq<PlotLine>)
      requires img.Valid()
      requires settings.lineSpacing > 0.0 || ((!drawHorizontal || img.height == 0) && (!drawVertical || img.width == 0))
      ensures lines == HatchLines(img, settings, drawHorizontal, drawVertical, adaptiveSpacing)
    {
      lines := [];
      if drawHorizontal {
        lines := GenerateHorizontalLines(img, settings, lines);
      }
      if drawVertical {
        lines := GenerateVerticalLines(img, settings, lines);
      }
    }

    /** Appends the lines of every sampled row to `lines`. */
    method GenerateHorizontalLines(img: Raster, settings: LineRenderSettings, lines: seq<PlotLine>)
      returns (out: seq<PlotLine>)
      requires img.Valid()
      requires settings.lineSpacing > 0.0 || img.height == 0
      ensures out == lines + SweepLines(img, settings, adaptiveSpacing, Horizontal)
    {
      var adaptive := adaptiveSpacing;
      var ls := settings.lineSpacing;
      ghost var avgs := LineAverages(img, Horizontal);
      ghost var all := Positions(img, settings, adaptive, Horizontal);
      ghost var visited: seq<int> := [];
      ghost var stopped := false;
      var y := 0.0;
      out := lines;
      while y < img.height as real
        invariant 0.0 <= y && !stopped
        invariant VisitsSoFar(avgs, ls, adaptive, y, visited, all)
        invariant DrawnSoFar(img, settings.darknessThreshold, Horizontal, lines, visited, out)
        decreases |all| - |visited|
      {
        ghost var before := out;
        var spacing;
        out, spacing := SweepRow(img, settings, adaptive, y, out);
        SweepPass(img, settings, adaptive, Horizontal, y, spacing, visited, lines, before, out);
        visited := visited + [y.Floor];
        match spacing {
          case NaN =>
            stopped := true;
            break;
          case Finite(step) =>
            y := y + step;
        }
      }
      if !stopped {
        PositionsDone(avgs, ls, adaptive, y, all, visited);
      }
      DrawnAll(img, settings, adaptive, Horizontal, lines, out);
    }

    /**
     * One pass of the horizontal sweep at counter `y`: scans row `(int)y` onto `out` and gives the
     * spacing to the next row (the line spacing, or the adaptive spacing, which is NaN for an empty row).
     */
    method SweepRow(img: Raster, settings: LineRenderSettings, adaptive: bool, y: real, out: seq<PlotLine>)
      returns (next: seq<PlotLine>, spacing: Float)
      requires img.Valid() && 0.0 <= y < img.height as real
      ensures next == out + ScanSegments(img, settings.darknessThreshold, Row(y.Floor))
      ensures spacing == Gap(LineAverages(img, Horizontal), settings.lineSpacing, adaptive, y)
    {
      var p := y.Floor;
      next := ScanRow(img, settings.darknessThreshold, p, out);
      spacing := Finite(settings.lineSpacing);
      if adaptive {
        var avg := GetAverageDarknessInRow(img, p);
        LineAveragesAt(img, Horizontal, p);
        if avg.Finite? {
          spacing := Finite(AdaptiveSpacing(settings.lineSpacing, avg.value));
        } else {
          spacing := NaN;
        }
      }
    }

    /** Appends the lines of every sampled column to `lines`. */
    method GenerateVerticalLines(img: Raster, settings: LineRenderSettings, lines: seq<PlotLine>)
      returns (out: seq<PlotLine>)
      requires img.Valid()
      requires settings.lineSpacing > 0.0 || img.width == 0
      ensures out == lines + SweepLines(img, settings, adaptiveSpacing, Vertical)
    {
      var adaptive := adaptiveSpacing;
      var ls := settings.lineSpacing;
      ghost var avgs := LineAverages(img, Vertical);
      ghost var all := Positions(img, settings, adaptive, Vertical);
      ghost var visited: seq<int> := [];
      ghost var stopped := false;
      var x := 0.0;
      out := lines;
      while x < img.width as real
        invariant 0.0 <= x && !stopped
        invariant VisitsSoFar(avgs, ls, adaptive, x, visited, all)
        invariant DrawnSoFar(img, settings.darknessThreshold, Vertical, lines, visited, out)
        decreases |all| - |visited|
      {
        ghost var before := out;
        var spacing;
        out, spacing := SweepColumn(img, settings, adaptive, x, out);
        SweepPass(img, settings, adaptive, Vertical, x, spacing, visited, lines, before, out);
        visited := visited + [x.Floor];
        match spacing {
          case NaN =>
            stopped := true;
            break;
          case Finite(step) =>
            x := x + step;
        }
      }
      if !stopped {
        PositionsDone(avgs, ls, adaptive, x, all, visited);
      }
      DrawnAll(img, settings, adaptive, Vertical, lines, out);
    }

    /**
     * One pass of the vertical sweep at counter `x`: scans column `(int)x` onto `out` and gives the
     * spacing to the next column (the line spacing, or the adaptive spacing, which is NaN for an empty column).
     */
    method SweepColumn(img: Raster, settings: LineRenderSettings, adaptive: bool, x: real, out: seq<PlotLine>)
      returns (next: seq<PlotLine>, spacing: Float)
      requires img.Valid() && 0.0 <= x < img.width as real
      ensures next == out + ScanSegments(img, settings.darknessThreshold, Column(x.Floor))
      ensures spacing == Gap(LineAverages(img, Vertical), settings.lineSpacing, adaptive, x)
    {
      var p := x.Floor;
      next := ScanColumn(img, settings.darknessThreshold, p, out);
      spacing := Finite(settings.lineSpacing);
      if adaptive {
        var avg := GetAverageDarknessInColumn(img, p);
        LineAveragesAt(img, Vertical, p);
        if avg.Finite? {
          spacing := Finite(AdaptiveSpacing(settings.lineSpacing, avg.value));
        } else {
          spacing := NaN;
        }
      }
    }

    /** One pass along a row: a line over each maximal run of dark pixels. */
    method ScanRow(img: Raster, threshold: real, row: int, lines: seq<PlotLine>) returns (out: seq<PlotLine>)
      requires img.Valid() && 0 <= row < img.height
      ensures out == lines + ScanSegments(img, threshold, Row(row))
    {
      ghost var d := DarkAlong(img, threshold, Row(row));
      var lineStartX := -1;
      out := lines;
      var x := 0;
      while x < img.width
        invariant 0 <= x <= img.width
        invariant ScannedSoFar(Row(row), d, x, lines, lineStartX, out)
      {
        var darkness := GetDarknessAt(img, x, row);
        DarkAlongAt(img, threshold, Row(row), x);
        ghost var start, before := lineStartX, out;
        if darkness >= threshold {
          if lineStartX < 0 {
            lineStartX := x;
          }
        } else {
          if lineStartX >= 0 {
            out := out + [FromCoords(lineStartX as real, row as real, (x - 1) as real, row as real)];
            lineStartX := -1;
          }
        }
        ScanAdvance(Row(row), d, x, lines, start, before, lineStartX, out);
        x := x + 1;
      }
      ghost var before := out;
      if lineStartX >= 0 {
        out := out + [FromCoords(lineStartX as real, row as real, (img.width - 1) as real, row as real)];
      }
      ScanComplete(Row(row), d, x, lines, lineStartX, before, out);
    }

    /** One pass down a column: a line over each maximal run of dark pixels. */
    method ScanColumn(img: Raster, threshold: real, col: int, lines: seq<PlotLine>) returns (out: seq<PlotLine>)
      requires img.Valid() && 0 <= col < img.width
      ensures out == lines + ScanSegments(img, threshold, Column(col))
    {
      ghost var d := DarkAlong(img, threshold, Column(col));
      var lineStartY := -1;
      out := lines;
      var y := 0;
      while y < img.height
        invariant 0 <= y <= img.height
        invariant ScannedSoFar(Column(col), d, y, lines, lineStartY, out)
      {
        var darkness := GetDarknessAt(img, col, y);
        DarkAlongAt(img, threshold, Column(col), y);
        ghost var start, before := lineStartY, out;
        if darkness >= threshold {
          if lineStartY < 0 {
            lineStartY := y;
          }
        } else {
          if lineStartY >= 0 {
            out := out + [FromCoords(col as real, lineStartY as real, col as real, (y - 1) as real)];
            lineStartY := -1;
          }
        }
        ScanAdvance(Column(col), d, y, lines, start, before, lineStartY, out);
        y := y + 1;
      }
      ghost var before := out;
      if lineStartY >= 0 {
        out := out + [FromCoords(col as real, lineStartY as real, col as real, (img.height - 1) as real)];
      }
      ScanComplete(Column(col), d, y, lines, lineStartY, before, out);
    }

    /** Average darkness of a row; NaN for an image of width zero. */
    method GetAverageDarknessInRow(img: Raster, row: int) returns (avg: Float)
      requires img.Valid()
      ensures avg == LineAverage(img, Row(row))
    {
      var sum := 0.0;
      var x := 0;
      while x < img.width
        invariant 0 <= x <= img.width
        invariant sum == DarknessSum(img, Row(row), x)
      {
        sum := sum + GetDarknessAt(img, x, row);
        x := x + 1;
      }
      avg := if img.width == 0 then NaN else Finite(sum / img.width as real);
    }

    /** Average darkness of a column; NaN for an image of height zero. */
    method GetAverageDarknessInColumn(img: Raster, col: int) returns (avg: Float)
      requires img.Valid()
      ensures avg == LineAverage(img, Column(col))
    {
      var sum := 0.0;
      var y := 0;
      while y < img.height
        invariant 0 <= y <= img.height
        invariant sum == DarknessSum(img, Column(col), y)
      {
        sum := sum + GetDarknessAt(img, col, y);
        y := y + 1;
      }
      avg := if img.height == 0 then NaN else Finite(sum / img.height as real);
    }
  }
}
