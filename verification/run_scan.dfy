/**
 * The scan shared by the hatch renderers. A scan walks a straight path of
 * pixels. A dark pixel opens a run when none is open, a light pixel closes
 * the open run, and the end of the path closes a run left open. Every run
 * closed this way becomes one segment from its first to its last pixel.
 *
 * `ScanPrefix` is the scan's state after a prefix of the path and `Runs` is
 * its result. The lemmas prove that the runs are exactly the maximal blocks
 * of dark pixels, listed in path order.
 */
module RunScan {
  import opened LineRenderHelper
  import opened Plot
  import opened Sequences

  /** A run of path positions `lo..hi`, both included. */
  datatype Run = Run(lo: int, hi: int)

  /** Runs closed so far, and the first position of the open run (negative when none is open). */
  datatype ScanState = ScanState(closed: seq<Run>, lineStart: int)

  const Initial: ScanState := ScanState([], -1)

  /** One pixel of the scan: position `k`, dark or not. */
  function Step(s: ScanState, dark: bool, k: int): ScanState {
    if dark then
      if s.lineStart < 0 then ScanState(s.closed, k) else s
    else
      if s.lineStart >= 0 then ScanState(s.closed + [Run(s.lineStart, k - 1)], -1) else s
  }

  /** The state after the first `i` pixels of the path. */
  function ScanPrefix(d: seq<bool>, i: nat): ScanState
    requires i <= |d|
  {
    if i == 0 then Initial else Step(ScanPrefix(d, i - 1), d[i - 1], i - 1)
  }

  /** The runs of the whole path: the closed ones, then the one the end of the path closes. */
  function Runs(d: seq<bool>): seq<Run> {
    var s := ScanPrefix(d, |d|);
    if s.lineStart >= 0 then s.closed + [Run(s.lineStart, |d| - 1)] else s.closed
  }

  /** Positions lo..hi are dark. */
  predicate AllDark(d: seq<bool>, lo: int, hi: int) {
    forall m :: lo <= m <= hi && 0 <= m < |d| ==> d[m]
  }

  /** A block of dark pixels that cannot be extended either way. */
  predicate MaximalRun(d: seq<bool>, r: Run) {
    && 0 <= r.lo <= r.hi < |d|
    && AllDark(d, r.lo, r.hi)
    && (r.lo == 0 || !d[r.lo - 1])
    && (r.hi == |d| - 1 || !d[r.hi + 1])
  }

  /** In path order, with at least one pixel between consecutive runs. */
  predicate Separated(runs: seq<Run>) {
    forall j1, j2 :: 0 <= j1 < j2 < |runs| ==> runs[j1].hi + 1 < runs[j2].lo
  }

  /** Position `k` lies in one of the runs. */
  predicate Covered(runs: seq<Run>, k: int) {
    exists j :: 0 <= j < |runs| && runs[j].lo <= k <= runs[j].hi
  }

  /** The closed runs after `i` pixels: maximal, each followed by a light pixel already seen, in order. */
  predicate ClosedRunsInv(d: seq<bool>, i: nat, c: seq<Run>) {
    && (forall j :: 0 <= j < |c| ==> MaximalRun(d, c[j]) && c[j].hi + 1 < i)
    && Separated(c)
  }

  /** The open run after `i` pixels: dark up to pixel `i - 1`, starting after a light pixel and after every closed run. */
  predicate OpenRunInv(d: seq<bool>, i: nat, s: ScanState)
    requires i <= |d|
  {
    && (s.lineStart >= 0 ==>
          && s.lineStart < i
          && AllDark(d, s.lineStart, i - 1)
          && (s.lineStart == 0 || !d[s.lineStart - 1])
          && (forall j :: 0 <= j < |s.closed| ==> s.closed[j].hi + 1 < s.lineStart))
    && (s.lineStart < 0 ==> s.lineStart == -1 && (i == 0 || !d[i - 1]))
  }

  /** The first `i` pixels are dark exactly where a closed run or the open run covers them. */
  predicate CoverInv(d: seq<bool>, i: nat, s: ScanState)
    requires i <= |d|
  {
    forall k :: 0 <= k < i ==> (d[k] <==> Covered(s.closed, k) || (0 <= s.lineStart <= k))
  }

  /** The invariant of the scan after `i` pixels. */
  predicate PrefixInv(d: seq<bool>, i: nat, s: ScanState)
    requires i <= |d|
  {
    ClosedRunsInv(d, i, s.closed) && OpenRunInv(d, i, s) && CoverInv(d, i, s)
  }

  /** The scan keeps its invariant at every prefix. */
  lemma {:induction false} PrefixInvHolds(d: seq<bool>, i: nat)
    requires i <= |d|
    ensures PrefixInv(d, i, ScanPrefix(d, i))
  {
    if i > 0 {
      var k := i - 1;
      PrefixInvHolds(d, k);
      StepKeepsInv(d, k);
    }
  }

  /** One step of the scan keeps the invariant. */
  lemma StepKeepsInv(d: seq<bool>, k: nat)
    requires k < |d| && PrefixInv(d, k, ScanPrefix(d, k))
    ensures PrefixInv(d, k + 1, ScanPrefix(d, k + 1))
  {
    var s := ScanPrefix(d, k);
    assert ScanPrefix(d, k + 1) == Step(s, d[k], k);
    if d[k] {
      if s.lineStart < 0 {
        OpenKeepsInv(d, k, s);
      }
    } else if s.lineStart >= 0 {
      CloseKeepsRuns(d, k, s);
      CloseKeepsCover(d, k, s);
    }
  }

  /** A dark pixel with no open run opens one. */
  lemma OpenKeepsInv(d: seq<bool>, k: nat, s: ScanState)
    requires k < |d| && PrefixInv(d, k, s) && d[k] && s.lineStart < 0
    ensures PrefixInv(d, k + 1, ScanState(s.closed, k))
  {
    assert forall m :: 0 <= m < k ==> (d[m] <==> Covered(s.closed, m));
  }

  /** A light pixel closes the open run, which is maximal and comes after the runs closed before it. */
  lemma CloseKeepsRuns(d: seq<bool>, k: nat, s: ScanState)
    requires k < |d| && ClosedRunsInv(d, k, s.closed) && OpenRunInv(d, k, s) && !d[k] && s.lineStart >= 0
    ensures ClosedRunsInv(d, k + 1, s.closed + [Run(s.lineStart, k - 1)])
  {
    var r := Run(s.lineStart, k - 1);
    var c := s.closed + [r];
    assert MaximalRun(d, r);
    forall j | 0 <= j < |c|
      ensures MaximalRun(d, c[j]) && c[j].hi + 1 < k + 1
    {
      if j < |s.closed| {
        assert c[j] == s.closed[j];
      }
    }
    forall j1, j2 | 0 <= j1 < j2 < |c|
      ensures c[j1].hi + 1 < c[j2].lo
    {
      assert c[j1] == s.closed[j1];
      if j2 < |s.closed| {
        assert c[j2] == s.closed[j2];
      }
    }
  }

  /** Closing the open run keeps the coverage of the pixels seen, and the light pixel is covered by nothing. */
  lemma CloseKeepsCover(d: seq<bool>, k: nat, s: ScanState)
    requires k < |d| && CoverInv(d, k, s) && OpenRunInv(d, k, s) && !d[k] && s.lineStart >= 0
    ensures CoverInv(d, k + 1, ScanState(s.closed + [Run(s.lineStart, k - 1)], -1))
  {
    var r := Run(s.lineStart, k - 1);
    var c := s.closed + [r];
    forall m | 0 <= m < k + 1 && d[m]
      ensures Covered(c, m)
    {
      if m >= s.lineStart {
        assert c[|s.closed|] == r;
      } else {
        var j :| 0 <= j < |s.closed| && s.closed[j].lo <= m <= s.closed[j].hi;
        assert c[j] == s.closed[j];
      }
    }
    forall m | 0 <= m < k + 1 && Covered(c, m)
      ensures d[m]
    {
      var j :| 0 <= j < |c| && c[j].lo <= m <= c[j].hi;
      if j < |s.closed| {
        assert c[j] == s.closed[j] && Covered(s.closed, m);
      }
    }
  }

  /** Every run of the path is a maximal block of dark pixels. */
  lemma RunsAreMaximal(d: seq<bool>)
    ensures forall j :: 0 <= j < |Runs(d)| ==> MaximalRun(d, Runs(d)[j])
  {
    PrefixInvHolds(d, |d|);
  }

  /** The runs come in path order, separated by light pixels. */
  lemma RunsAreSeparated(d: seq<bool>)
    ensures Separated(Runs(d))
  {
    PrefixInvHolds(d, |d|);
  }

  /** A pixel is dark exactly when it lies in one of the runs. */
  lemma RunsCoverDarkPixels(d: seq<bool>)
    ensures forall k :: 0 <= k < |d| ==> (d[k] <==> Covered(Runs(d), k))
  {
    var s := ScanPrefix(d, |d|);
    PrefixInvHolds(d, |d|);
    if s.lineStart >= 0 {
      var runs := Runs(d);
      var last := Run(s.lineStart, |d| - 1);
      assert runs == s.closed + [last];
      forall k | 0 <= k < |d|
        ensures d[k] <==> Covered(runs, k)
      {
        if Covered(s.closed, k) {
          var j :| 0 <= j < |s.closed| && s.closed[j].lo <= k <= s.closed[j].hi;
          assert runs[j] == s.closed[j];
        }
        if s.lineStart <= k {
          assert runs[|s.closed|] == last;
        }
        if Covered(runs, k) {
          var j :| 0 <= j < |runs| && runs[j].lo <= k <= runs[j].hi;
          if j < |s.closed| {
            assert runs[j] == s.closed[j];
          }
        }
      }
    }
  }

  /** Two maximal runs that share a position are the same run. */
  lemma MaximalRunsMeet(d: seq<bool>, r1: Run, r2: Run, k: int)
    requires MaximalRun(d, r1) && MaximalRun(d, r2)
    requires r1.lo <= k <= r1.hi && r2.lo <= k <= r2.hi
    ensures r1 == r2
  {
  }

  /** Every maximal block of dark pixels is one of the runs: nothing dark is missed or split. */
  lemma MaximalRunsAreRuns(d: seq<bool>, r: Run)
    requires MaximalRun(d, r)
    ensures r in Runs(d)
  {
    RunsAreMaximal(d);
    RunsCoverDarkPixels(d);
    var runs := Runs(d);
    assert d[r.lo];
    var j :| 0 <= j < |runs| && runs[j].lo <= r.lo <= runs[j].hi;
    MaximalRunsMeet(d, r, runs[j], r.lo);
  }

  /** A path of dark pixels only is one run from end to end. */
  lemma RunsAllDark(d: seq<bool>)
    requires |d| > 0 && forall k :: 0 <= k < |d| ==> d[k]
    ensures Runs(d) == [Run(0, |d| - 1)]
  {
    var r := Run(0, |d| - 1);
    assert MaximalRun(d, r);
    MaximalRunsAreRuns(d, r);
    RunsAreMaximal(d);
    RunsAreSeparated(d);
    var runs := Runs(d);
    FirstTwoSeparated(runs);
    forall j | 0 <= j < |runs|
      ensures runs[j] == r
    {
      MaximalRunsMeet(d, runs[j], r, runs[j].lo);
    }
  }

  lemma FirstTwoSeparated(runs: seq<Run>)
    requires Separated(runs)
    ensures |runs| >= 2 ==> runs[0].hi + 1 < runs[1].lo
  {
  }

  /** A path with no dark pixel has no runs. */
  lemma RunsAllLight(d: seq<bool>)
    requires forall k :: 0 <= k < |d| ==> !d[k]
    ensures Runs(d) == []
  {
    RunsAreMaximal(d);
    FirstRunStartsDark(d, Runs(d));
  }

  lemma FirstRunStartsDark(d: seq<bool>, runs: seq<Run>)
    requires forall j :: 0 <= j < |runs| ==> MaximalRun(d, runs[j])
    ensures |runs| > 0 ==> 0 <= runs[0].lo < |d| && d[runs[0].lo]
  {
  }

  // ---------------------------------------------------------------------------
  // Scan paths over the pixel grid

  /**
   * The four paths of the hatch renderers: a row, a column, a diagonal going
   * right and down from (x, y), and a diagonal going left and down from (x, y).
   */
  datatype Scan =
    | Row(row: int)
    | Column(col: int)
    | Diagonal45(x: int, y: int)
    | Diagonal135(x: int, y: int)

  /** The `k`-th pixel of the path. */
  function PixelAt(s: Scan, k: int): (int, int) {
    match s
    case Row(row) => (k, row)
    case Column(col) => (col, k)
    case Diagonal45(x, y) => (x + k, y + k)
    case Diagonal135(x, y) => (x - k, y + k)
  }

  function Max0(n: int): nat {
    if n < 0 then 0 else n
  }

  function Min(a: int, b: int): int {
    if a <= b then a else b
  }

  /**
   * The number of pixels the path visits in a width-by-height grid: a row
   * runs across the width, a column down the height, and a diagonal stops at
   * the first edge it crosses.
   */
  function Extent(s: Scan, width: int, height: int): nat {
    match s
    case Row(_) => Max0(width)
    case Column(_) => Max0(height)
    case Diagonal45(x, y) => Max0(Min(width - x, height - y))
    case Diagonal135(x, y) => Max0(Min(x + 1, height - y))
  }

  /** The path starts inside the grid (a row or column inside it, a diagonal starting in it). */
  predicate Starts(s: Scan, width: int, height: int) {
    match s
    case Row(row) => 0 <= row < height
    case Column(col) => 0 <= col < width
    case Diagonal45(x, y) => 0 <= x && 0 <= y
    case Diagonal135(x, y) => x < width && 0 <= y
  }

  /** Position `k` of a path lies within its extent exactly when the scan loop's condition holds at its pixel. */
  lemma ExtentBound(s: Scan, width: int, height: int, k: nat)
    ensures k < Extent(s, width, height) <==>
      match s
      case Row(_) => k < width
      case Column(_) => k < height
      case Diagonal45(x, y) => x + k < width && y + k < height
      case Diagonal135(x, y) => x - k >= 0 && y + k < height
  {
  }

  /** A path that starts inside the grid stays inside it for all of its extent. */
  lemma PathInGrid(s: Scan, width: int, height: int, k: int)
    requires Starts(s, width, height) && 0 <= k < Extent(s, width, height)
    ensures 0 <= PixelAt(s, k).0 < width && 0 <= PixelAt(s, k).1 < height
  {
  }

  /** Whether pixel `k` of the path is at or above the threshold. */
  predicate DarkAt(img: Raster, threshold: real, s: Scan, k: int)
    requires img.Valid()
  {
    GetDarknessAt(img, PixelAt(s, k).0, PixelAt(s, k).1) >= threshold
  }

  /** Whether each of the first `n` pixels of the path is dark, pixel by pixel. */
  function DarkPrefix(img: Raster, threshold: real, s: Scan, n: nat): (d: seq<bool>)
    requires img.Valid()
    ensures |d| == n
  {
    if n == 0 then [] else DarkPrefix(img, threshold, s, n - 1) + [DarkAt(img, threshold, s, n - 1)]
  }

  /** Whether each pixel of the path is at or above the threshold. */
  function DarkAlong(img: Raster, threshold: real, s: Scan): (d: seq<bool>)
    requires img.Valid()
    ensures |d| == Extent(s, img.width, img.height)
  {
    DarkPrefix(img, threshold, s, Extent(s, img.width, img.height))
  }

  lemma {:induction false} DarkPrefixAt(img: Raster, threshold: real, s: Scan, n: nat, k: int)
    requires img.Valid() && 0 <= k < n
    ensures DarkPrefix(img, threshold, s, n)[k] == DarkAt(img, threshold, s, k)
    decreases n
  {
    if k < n - 1 {
      DarkPrefixAt(img, threshold, s, n - 1, k);
    }
  }

  /** Position `k` of the path is marked dark exactly when its pixel is at or above the threshold. */
  lemma DarkAlongAt(img: Raster, threshold: real, s: Scan, k: int)
    requires img.Valid() && 0 <= k < Extent(s, img.width, img.height)
    ensures DarkAlong(img, threshold, s)[k] <==> GetDarknessAt(img, PixelAt(s, k).0, PixelAt(s, k).1) >= threshold
  {
    DarkPrefixAt(img, threshold, s, Extent(s, img.width, img.height), k);
  }

  /** The same for every position of the path at once. */
  lemma DarkAlongAll(img: Raster, threshold: real, s: Scan)
    requires img.Valid()
    ensures var d := DarkAlong(img, threshold, s);
      forall k :: 0 <= k < |d| ==> (d[k] <==> GetDarknessAt(img, PixelAt(s, k).0, PixelAt(s, k).1) >= threshold)
  {
    forall k | 0 <= k < Extent(s, img.width, img.height)
      ensures DarkAlong(img, threshold, s)[k] <==> GetDarknessAt(img, PixelAt(s, k).0, PixelAt(s, k).1) >= threshold
    {
      DarkAlongAt(img, threshold, s, k);
    }
  }

  /** The segment drawn for a run: from its first pixel to its last. */
  function Segment(s: Scan, r: Run): (l: PlotLine)
    ensures l.start == Point(PixelAt(s, r.lo).0 as real, PixelAt(s, r.lo).1 as real)
    ensures l.end == Point(PixelAt(s, r.hi).0 as real, PixelAt(s, r.hi).1 as real)
  {
    FromCoords(PixelAt(s, r.lo).0 as real, PixelAt(s, r.lo).1 as real,
               PixelAt(s, r.hi).0 as real, PixelAt(s, r.hi).1 as real)
  }

  function Segments(s: Scan, runs: seq<Run>): (ls: seq<PlotLine>)
    ensures |ls| == |runs|
    ensures forall j :: 0 <= j < |runs| ==> ls[j] == Segment(s, runs[j])
  {
    seq(|runs|, j requires 0 <= j < |runs| => Segment(s, runs[j]))
  }

  /** Closing one more run adds its segment at the end. */
  lemma SegmentsAppend(s: Scan, runs: seq<Run>, r: Run)
    ensures Segments(s, runs + [r]) == Segments(s, runs) + [Segment(s, r)]
  {
  }

  /**
   * The state of a scan loop after the first `k` pixels: `lineStart` is the
   * start of the open run and `out` holds the segments of the closed runs
   * after `lines`.
   */
  ghost predicate ScannedSoFar(s: Scan, d: seq<bool>, k: nat, lines: seq<PlotLine>, lineStart: int, out: seq<PlotLine>)
    requires k <= |d|
  {
    lineStart == ScanPrefix(d, k).lineStart && out == lines + Segments(s, ScanPrefix(d, k).closed)
  }

  /**
   * What a scan loop does with pixel `k`: a dark pixel opens a run if none is
   * open; a light pixel closes the open run, drawing its segment.
   */
  ghost predicate PixelHandled(s: Scan, dark: bool, k: int, start: int, before: seq<PlotLine>, start': int, after: seq<PlotLine>) {
    if dark then
      start' == (if start < 0 then k else start) && after == before
    else if start >= 0 then
      start' == -1 && after == before + [Segment(s, Run(start, k - 1))]
    else
      start' == start && after == before
  }

  /** Handling one more pixel as the loop does advances the scan by one pixel. */
  lemma ScanAdvance(s: Scan, d: seq<bool>, k: nat, lines: seq<PlotLine>, start: int, before: seq<PlotLine>,
                    start': int, after: seq<PlotLine>)
    requires k < |d| && ScannedSoFar(s, d, k, lines, start, before)
    requires PixelHandled(s, d[k], k, start, before, start', after)
    ensures ScannedSoFar(s, d, k + 1, lines, start', after)
  {
    var st := ScanPrefix(d, k);
    assert ScanPrefix(d, k + 1) == Step(st, d[k], k);
    if !d[k] && start >= 0 {
      var seg := Segment(s, Run(start, k - 1));
      SegmentsAppend(s, st.closed, Run(start, k - 1));
      AppendAssoc(lines, Segments(s, st.closed), [seg], before, after, Segments(s, st.closed + [Run(start, k - 1)]));
    }
  }

  /** Closing the run left open at the end of the path completes the scan's segments. */
  lemma ScanComplete(s: Scan, d: seq<bool>, k: nat, lines: seq<PlotLine>, start: int, before: seq<PlotLine>,
                     after: seq<PlotLine>)
    requires k == |d| && ScannedSoFar(s, d, k, lines, start, before)
    requires after == if start >= 0 then before + [Segment(s, Run(start, k - 1))] else before
    ensures after == lines + Segments(s, Runs(d))
  {
    var last := ScanPrefix(d, |d|);
    if start >= 0 {
      var seg := Segment(s, Run(start, |d| - 1));
      SegmentsAppend(s, last.closed, Run(start, |d| - 1));
      AppendAssoc(lines, Segments(s, last.closed), [seg], before, after, Segments(s, last.closed + [Run(start, |d| - 1)]));
    }
  }

  /** The segments one scan adds. */
  function ScanSegments(img: Raster, threshold: real, s: Scan): seq<PlotLine>
    requires img.Valid()
  {
    Segments(s, Runs(DarkAlong(img, threshold, s)))
  }

  /** The segments of several scans, in the order they are made. */
  function ScansLines(img: Raster, threshold: real, scans: seq<Scan>): seq<PlotLine>
    requires img.Valid()
  {
    if |scans| == 0 then [] else ScanSegments(img, threshold, scans[0]) + ScansLines(img, threshold, scans[1..])
  }

  /** Scanning two lists of paths one after the other yields their segments one after the other. */
  lemma {:induction false} ScansLinesConcat(img: Raster, threshold: real, a: seq<Scan>, b: seq<Scan>)
    requires img.Valid()
    ensures ScansLines(img, threshold, a + b) == ScansLines(img, threshold, a) + ScansLines(img, threshold, b)
  {
    if |a| > 0 {
      assert (a + b)[0] == a[0] && (a + b)[1..] == a[1..] + b;
      ScansLinesConcat(img, threshold, a[1..], b);
      AppendAssoc(ScanSegments(img, threshold, a[0]), ScansLines(img, threshold, a[1..]), ScansLines(img, threshold, b),
                  ScansLines(img, threshold, a), ScansLines(img, threshold, a) + ScansLines(img, threshold, b),
                  ScansLines(img, threshold, a[1..] + b));
    } else {
      assert a + b == b;
    }
  }

  /** Scanning one more path appends its segments. */
  lemma ScansLinesSnoc(img: Raster, threshold: real, scans: seq<Scan>, s: Scan, next: seq<Scan>)
    requires img.Valid() && next == scans + [s]
    ensures ScansLines(img, threshold, next) == ScansLines(img, threshold, scans) + ScanSegments(img, threshold, s)
  {
    ScansLinesConcat(img, threshold, scans, [s]);
    assert ScansLines(img, threshold, [s]) == ScanSegments(img, threshold, s) + ScansLines(img, threshold, []);
  }

  /** A line is drawn by several scans exactly when one of them draws it. */
  lemma {:induction false} ScansLinesMember(img: Raster, threshold: real, scans: seq<Scan>, l: PlotLine)
    requires img.Valid()
    ensures l in ScansLines(img, threshold, scans) <==>
      exists j :: 0 <= j < |scans| && l in ScanSegments(img, threshold, scans[j])
  {
    if |scans| > 0 {
      var rest := scans[1..];
      ScansLinesMember(img, threshold, rest, l);
      if j :| 0 <= j < |rest| && l in ScanSegments(img, threshold, rest[j]) {
        assert rest[j] == scans[j + 1];
      }
      if j :| 0 < j < |scans| && l in ScanSegments(img, threshold, scans[j]) {
        assert rest[j - 1] == scans[j];
      }
    }
  }

  /**
   * Every segment of a scan that starts in the grid joins two dark pixels of
   * the grid along the path, every pixel of the path between them is dark,
   * and the pixels just beyond its ends are light or outside the path.
   */
  lemma ScanSegmentsAreDarkRuns(img: Raster, threshold: real, s: Scan, j: int)
    requires img.Valid() && Starts(s, img.width, img.height)
    requires 0 <= j < |ScanSegments(img, threshold, s)|
    ensures var d := DarkAlong(img, threshold, s);
      var r := Runs(d)[j];
      && ScanSegments(img, threshold, s)[j] == Segment(s, r)
      && MaximalRun(d, r)
      && 0 <= PixelAt(s, r.lo).0 < img.width && 0 <= PixelAt(s, r.lo).1 < img.height
      && 0 <= PixelAt(s, r.hi).0 < img.width && 0 <= PixelAt(s, r.hi).1 < img.height
      && (forall k :: r.lo <= k <= r.hi ==>
            GetDarknessAt(img, PixelAt(s, k).0, PixelAt(s, k).1) >= threshold)
  {
    var d := DarkAlong(img, threshold, s);
    DarkAlongAll(img, threshold, s);
    RunsAreMaximal(d);
    var r := Runs(d)[j];
    PathInGrid(s, img.width, img.height, r.lo);
    PathInGrid(s, img.width, img.height, r.hi);
  }

  /**
   * Positions `lo` to `hi` of the path are dark pixel by pixel, and the
   * pixels just beyond them are light or past an end of the path.
   */
  ghost predicate DarkStretchAlong(img: Raster, threshold: real, s: Scan, lo: int, hi: int)
    requires img.Valid()
  {
    && (forall k :: lo <= k <= hi ==> DarkAt(img, threshold, s, k))
    && (lo == 0 || !DarkAt(img, threshold, s, lo - 1))
    && (hi == Extent(s, img.width, img.height) - 1 || !DarkAt(img, threshold, s, hi + 1))
  }

  /**
   * A segment of a scan joins the ends `lo` and `hi` of a block of dark
   * pixels along the path that cannot be extended: the pixels just beyond it
   * are light or past the end of the path.
   */
  lemma SegmentRun(img: Raster, threshold: real, s: Scan, l: PlotLine) returns (lo: int, hi: int)
    requires img.Valid() && l in ScanSegments(img, threshold, s)
    ensures 0 <= lo <= hi < Extent(s, img.width, img.height)
    ensures l == Segment(s, Run(lo, hi))
    ensures DarkStretchAlong(img, threshold, s, lo, hi)
  {
    var d := DarkAlong(img, threshold, s);
    var runs := Runs(d);
    var segs := Segments(s, runs);
    var j :| 0 <= j < |segs| && segs[j] == l;
    RunsAreMaximal(d);
    lo, hi := runs[j].lo, runs[j].hi;
    assert runs[j] == Run(lo, hi);
    MaximalRunIsDark(img, threshold, s, lo, hi);
  }

  /** A maximal run of dark positions along the path is a dark stretch of it. */
  lemma MaximalRunIsDark(img: Raster, threshold: real, s: Scan, lo: int, hi: int)
    requires img.Valid() && MaximalRun(DarkAlong(img, threshold, s), Run(lo, hi))
    ensures DarkStretchAlong(img, threshold, s, lo, hi)
  {
    forall k | lo <= k <= hi
      ensures DarkAt(img, threshold, s, k)
    {
      DarkAlongAt(img, threshold, s, k);
    }
    if lo > 0 {
      DarkAlongAt(img, threshold, s, lo - 1);
    }
    if hi < Extent(s, img.width, img.height) - 1 {
      DarkAlongAt(img, threshold, s, hi + 1);
    }
  }

  /** A pixel on the path that is dark lies on one of the scan's segments. */
  lemma DarkPixelsAreDrawn(img: Raster, threshold: real, s: Scan, k: int)
    requires img.Valid() && 0 <= k < Extent(s, img.width, img.height)
    requires GetDarknessAt(img, PixelAt(s, k).0, PixelAt(s, k).1) >= threshold
    ensures exists j :: (0 <= j < |Runs(DarkAlong(img, threshold, s))| &&
      var r := Runs(DarkAlong(img, threshold, s))[j];
      r.lo <= k <= r.hi && ScanSegments(img, threshold, s)[j] == Segment(s, r))
  {
    var d := DarkAlong(img, threshold, s);
    DarkAlongAt(img, threshold, s, k);
    RunsCoverDarkPixels(d);
    assert Covered(Runs(d), k);
  }

  /** When every pixel is below a positive threshold, a scan draws nothing. */
  lemma LightImageNoSegments(img: Raster, threshold: real, s: Scan)
    requires img.Valid() && threshold > 0.0 && AllBelow(img, threshold)
    ensures ScanSegments(img, threshold, s) == []
  {
    var d := DarkAlong(img, threshold, s);
    forall k | 0 <= k < |d|
      ensures !d[k]
    {
      var (x, y) := PixelAt(s, k);
      DarkAlongAt(img, threshold, s, k);
      assert GetDarknessAt(img, x, y) < threshold;
    }
    RunsAllLight(d);
  }

  /** Scanning any paths of an image with every pixel below a positive threshold draws nothing. */
  lemma {:induction false} ScansLinesOfLightImage(img: Raster, threshold: real, scans: seq<Scan>)
    requires img.Valid() && threshold > 0.0 && AllBelow(img, threshold)
    ensures ScansLines(img, threshold, scans) == []
  {
    if |scans| > 0 {
      LightImageNoSegments(img, threshold, scans[0]);
      ScansLinesOfLightImage(img, threshold, scans[1..]);
    }
  }

  /**
   * When every pixel is at or above the threshold, a scan that starts in the
   * grid draws one segment over its whole extent.
   */
  lemma DarkImageOneSegment(img: Raster, threshold: real, s: Scan)
    requires img.Valid() && AllAtLeast(img, threshold)
    requires Starts(s, img.width, img.height) && Extent(s, img.width, img.height) > 0
    ensures ScanSegments(img, threshold, s) == [Segment(s, Run(0, Extent(s, img.width, img.height) - 1))]
  {
    var d := DarkAlong(img, threshold, s);
    forall k | 0 <= k < |d|
      ensures d[k]
    {
      DarkAlongAt(img, threshold, s, k);
      PathInGrid(s, img.width, img.height, k);
    }
    RunsAllDark(d);
  }

  /** One segment per path, from its first pixel to its last in a width-by-height grid. */
  function WholePaths(width: int, height: int, scans: seq<Scan>): (r: seq<PlotLine>)
    ensures |r| == |scans|
  {
    if |scans| == 0 then []
    else [Segment(scans[0], Run(0, Extent(scans[0], width, height) - 1))] + WholePaths(width, height, scans[1..])
  }

  /**
   * When every pixel is at or above the threshold, scanning paths that start
   * in the grid and enter it yields one whole-path segment per path, in order.
   */
  lemma {:induction false} ScansLinesOfDarkImage(img: Raster, threshold: real, scans: seq<Scan>)
    requires img.Valid() && AllAtLeast(img, threshold)
    requires forall i :: 0 <= i < |scans| ==>
      Starts(scans[i], img.width, img.height) && Extent(scans[i], img.width, img.height) > 0
    ensures ScansLines(img, threshold, scans) == WholePaths(img.width, img.height, scans)
  {
    if |scans| > 0 {
      DarkImageOneSegment(img, threshold, scans[0]);
      ScansLinesOfDarkImage(img, threshold, scans[1..]);
    }
  }
}
