/**
 * The exporters that lay a list of segments out for a pen plotter: CSV,
 * JSON and plain text with one row per segment, and polylines, which first
 * chain segments whose ends meet so that the pen is lifted less often.
 *
 * A file is modelled as the sequence of rows written to it; the numbers in a
 * row are kept as numbers, their three-decimal formatting is not modelled.
 */
module LineExporter {
  import opened Plot
  import opened Sequences

  // ---------------------------------------------------------------------------
  // Closeness of points

  /** How far apart two points may be and still count as the same, in pixels. */
  const Tolerance: real := 0.1

  /**
   * Whether two points are less than the tolerance apart, compared on the
   * squared distance. Close points differ by less than the tolerance in each
   * coordinate, and every point is close to itself.
   */
  function PointsAreClose(p1: Point, p2: Point): (r: bool)
    ensures r ==> -Tolerance < p1.x - p2.x < Tolerance && -Tolerance < p1.y - p2.y < Tolerance
    ensures p1 == p2 ==> r
  {
    var dx := p1.x - p2.x;
    var dy := p1.y - p2.y;
    SquaresBelow(dx, dy);
    SquaresBelow(dy, dx);
    dx * dx + dy * dy < Tolerance * Tolerance
  }

  /** When a sum of two squares is below the squared tolerance, the first number is within the tolerance. */
  lemma SquaresBelow(a: real, b: real)
    ensures a * a + b * b < Tolerance * Tolerance ==> -Tolerance < a < Tolerance
  {
    SquareNonneg(b);
    if a >= Tolerance {
      assert a * a - Tolerance * Tolerance == (a - Tolerance) * (a + Tolerance);
      ProductNonneg(a - Tolerance, a + Tolerance);
    } else if a <= -Tolerance {
      assert a * a - Tolerance * Tolerance == (-Tolerance - a) * (Tolerance - a);
      ProductNonneg(-Tolerance - a, Tolerance - a);
    }
  }

  lemma ProductNonneg(a: real, b: real)
    requires a >= 0.0 && b >= 0.0
    ensures a * b >= 0.0
  {
  }

  /** Closeness does not depend on the order of the two points. */
  lemma PointsAreCloseSymmetric(p1: Point, p2: Point)
    ensures PointsAreClose(p1, p2) == PointsAreClose(p2, p1)
  {
    var dx := p1.x - p2.x;
    var dy := p1.y - p2.y;
    assert (-dx) * (-dx) == dx * dx && (-dy) * (-dy) == dy * dy;
  }

  // ---------------------------------------------------------------------------
  // Total length

  /** The sum of the segments' lengths. */
  function TotalLength(lines: seq<PlotLine>, sqrt: real -> real): real {
    if |lines| == 0 then 0.0 else TotalLength(lines[..|lines| - 1], sqrt) + Length(lines[|lines| - 1], sqrt)
  }

  /** The total length of two lists one after the other is the sum of their totals. */
  lemma {:induction false} TotalLengthAppend(a: seq<PlotLine>, b: seq<PlotLine>, sqrt: real -> real)
    ensures TotalLength(a + b, sqrt) == TotalLength(a, sqrt) + TotalLength(b, sqrt)
    decreases |b|
  {
    if |b| > 0 {
      var b' := b[..|b| - 1];
      assert (a + b)[..|a + b| - 1] == a + b';
      assert (a + b)[|a + b| - 1] == b[|b| - 1];
      TotalLengthAppend(a, b', sqrt);
    } else {
      assert a + b == a;
    }
  }

  /** With a true square root, the total length is never negative. */
  lemma {:induction false} TotalLengthNonNegative(lines: seq<PlotLine>, sqrt: real -> real)
    requires IsSquareRoot(sqrt)
    ensures TotalLength(lines, sqrt) >= 0.0
    decreases |lines|
  {
    if |lines| > 0 {
      TotalLengthNonNegative(lines[..|lines| - 1], sqrt);
      LengthNonNegative(lines[|lines| - 1], sqrt);
    }
  }

  /** Accumulates the length of every segment. */
  method CalculateTotalLength(lines: seq<PlotLine>, sqrt: real -> real) returns (total: real)
    ensures total == TotalLength(lines, sqrt)
  {
    total := 0.0;
    var i := 0;
    while i < |lines|
      invariant 0 <= i <= |lines|
      invariant total == TotalLength(lines[..i], sqrt)
    {
      assert lines[..i + 1][..i] == lines[..i];
      total := total + Length(lines[i], sqrt);
      i := i + 1;
    }
    assert lines[..i] == lines;
  }

  // ---------------------------------------------------------------------------
  // Row layouts

  /** One row of an exported file. */
  datatype Row =
    | Literal(text: string)
    | CsvLine(x1: real, y1: real, x2: real, y2: real)
    | JsonLine(x1: real, y1: real, x2: real, y2: real, comma: bool)
    | JsonCount(count: int)
    | JsonTotalLength(total: real)
    | TextLine(x1: real, y1: real, x2: real, y2: real)
    | PathPoint(x: real, y: real)
    | Blank

  const CsvHeader: string := "x1,y1,x2,y2"

  /**
   * Reads back the segments of the rows that carry one, in order: the
   * inverse of the CSV, JSON and text layouts.
   */
  function ReadLines(rows: seq<Row>): seq<PlotLine> {
    if |rows| == 0 then []
    else
      var rest := ReadLines(rows[1..]);
      match rows[0]
      case CsvLine(x1, y1, x2, y2) => [FromCoords(x1, y1, x2, y2)] + rest
      case JsonLine(x1, y1, x2, y2, _) => [FromCoords(x1, y1, x2, y2)] + rest
      case TextLine(x1, y1, x2, y2) => [FromCoords(x1, y1, x2, y2)] + rest
      case _ => rest
  }

  /** Reading back rows that carry no segment gives nothing. */
  lemma {:induction false} ReadLinesOfOthers(rows: seq<Row>)
    requires forall i :: 0 <= i < |rows| ==> !rows[i].CsvLine? && !rows[i].JsonLine? && !rows[i].TextLine?
    ensures ReadLines(rows) == []
  {
    if |rows| > 0 {
      ReadLinesOfOthers(rows[1..]);
    }
  }

  /** Reading back two blocks of rows reads back the first block, then the second. */
  lemma {:induction false} ReadLinesAppend(a: seq<Row>, b: seq<Row>)
    ensures ReadLines(a + b) == ReadLines(a) + ReadLines(b)
  {
    if |a| > 0 {
      assert (a + b)[0] == a[0] && (a + b)[1..] == a[1..] + b;
      ReadLinesAppend(a[1..], b);
    } else {
      assert a + b == b;
    }
  }

  /** The CSV file: the header, then one row per segment, in order. */
  method ExportToCsv(lines: seq<PlotLine>) returns (rows: seq<Row>)
    ensures |rows| == |lines| + 1 && rows[0] == Literal(CsvHeader)
    ensures forall i :: 0 <= i < |lines| ==>
      rows[i + 1] == CsvLine(lines[i].start.x, lines[i].start.y, lines[i].end.x, lines[i].end.y)
  {
    rows := [Literal(CsvHeader)];
    var i := 0;
    while i < |lines|
      invariant 0 <= i <= |lines| && |rows| == i + 1 && rows[0] == Literal(CsvHeader)
      invariant forall k :: 0 <= k < i ==>
        rows[k + 1] == CsvLine(lines[k].start.x, lines[k].start.y, lines[k].end.x, lines[k].end.y)
    {
      var line := lines[i];
      rows := rows + [CsvLine(line.start.x, line.start.y, line.end.x, line.end.y)];
      i := i + 1;
    }
  }

  /** The JSON file: an opening, one entry per segment, each but the last followed by a comma, then the count and the total length. */
  method ExportToJson(lines: seq<PlotLine>, sqrt: real -> real) returns (rows: seq<Row>)
    ensures |rows| == |lines| + 6
    ensures rows[0] == Literal("{") && rows[1] == Literal("  \"lines\": [")
    ensures forall i :: 0 <= i < |lines| ==>
      rows[i + 2] == JsonLine(lines[i].start.x, lines[i].start.y, lines[i].end.x, lines[i].end.y, i < |lines| - 1)
    ensures rows[|lines| + 2] == Literal("  ],")
    ensures rows[|lines| + 3] == JsonCount(|lines|)
    ensures rows[|lines| + 4] == JsonTotalLength(TotalLength(lines, sqrt))
    ensures rows[|lines| + 5] == Literal("}")
  {
    rows := [Literal("{"), Literal("  \"lines\": [")];
    var i := 0;
    while i < |lines|
      invariant 0 <= i <= |lines| && |rows| == i + 2
      invariant rows[0] == Literal("{") && rows[1] == Literal("  \"lines\": [")
      invariant forall k :: 0 <= k < i ==>
        rows[k + 2] == JsonLine(lines[k].start.x, lines[k].start.y, lines[k].end.x, lines[k].end.y, k < |lines| - 1)
    {
      var line := lines[i];
      var comma := i < |lines| - 1;
      rows := rows + [JsonLine(line.start.x, line.start.y, line.end.x, line.end.y, comma)];
      i := i + 1;
    }
    var total := CalculateTotalLength(lines, sqrt);
    rows := rows + [Literal("  ],"), JsonCount(|lines|), JsonTotalLength(total), Literal("}")];
  }

  /** The text file: one row per segment, in order. */
  method ExportToText(lines: seq<PlotLine>) returns (rows: seq<Row>)
    ensures |rows| == |lines|
    ensures forall i :: 0 <= i < |lines| ==>
      rows[i] == TextLine(lines[i].start.x, lines[i].start.y, lines[i].end.x, lines[i].end.y)
  {
    rows := [];
    var i := 0;
    while i < |lines|
      invariant 0 <= i <= |lines| && |rows| == i
      invariant forall k :: 0 <= k < i ==>
        rows[k] == TextLine(lines[k].start.x, lines[k].start.y, lines[k].end.x, lines[k].end.y)
    {
      var line := lines[i];
      rows := rows + [TextLine(line.start.x, line.start.y, line.end.x, line.end.y)];
      i := i + 1;
    }
  }

  /** Rows that each read back as one segment read back, together, as those segments in order. */
  lemma {:induction false} ReadBackRows(lines: seq<PlotLine>, rows: seq<Row>)
    requires |rows| == |lines|
    requires forall i :: 0 <= i < |rows| ==> ReadLines([rows[i]]) == [lines[i]]
    ensures ReadLines(rows) == lines
  {
    if |rows| > 0 {
      assert rows == [rows[0]] + rows[1..];
      assert lines == [lines[0]] + lines[1..];
      ReadBackRows(lines[1..], rows[1..]);
      ReadLinesAppend([rows[0]], rows[1..]);
    }
  }

  /** Reading back the CSV file gives the segments exported: nothing but number formatting is lost. */
  lemma CsvRoundTrip(lines: seq<PlotLine>, rows: seq<Row>)
    requires |rows| == |lines| + 1 && rows[0] == Literal(CsvHeader)
    requires forall i :: 0 <= i < |lines| ==>
      rows[i + 1] == CsvLine(lines[i].start.x, lines[i].start.y, lines[i].end.x, lines[i].end.y)
    ensures ReadLines(rows) == lines
  {
    CsvBodyReadsBack(lines, rows);
    ReadLinesOfOthers(rows[..1]);
    ReadLinesOfOthers(rows[|rows|..]);
    ReadLinesFramed(rows, 1, |rows|);
  }

  lemma CsvBodyReadsBack(lines: seq<PlotLine>, rows: seq<Row>)
    requires |rows| == |lines| + 1
    requires forall i :: 0 <= i < |lines| ==>
      rows[i + 1] == CsvLine(lines[i].start.x, lines[i].start.y, lines[i].end.x, lines[i].end.y)
    ensures ReadLines(rows[1..]) == lines
  {
    var body := rows[1..];
    forall i | 0 <= i < |body|
      ensures ReadLines([body[i]]) == [lines[i]]
    {
      assert body[i] == rows[i + 1];
    }
    ReadBackRows(lines, body);
  }

  /** Reading back the JSON file gives the segments exported. */
  lemma JsonRoundTrip(lines: seq<PlotLine>, total: real, rows: seq<Row>)
    requires |rows| == |lines| + 6
    requires rows[0] == Literal("{") && rows[1] == Literal("  \"lines\": [")
    requires forall i :: 0 <= i < |lines| ==>
      rows[i + 2] == JsonLine(lines[i].start.x, lines[i].start.y, lines[i].end.x, lines[i].end.y, i < |lines| - 1)
    requires rows[|lines| + 2] == Literal("  ],") && rows[|lines| + 3] == JsonCount(|lines|)
    requires rows[|lines| + 4] == JsonTotalLength(total) && rows[|lines| + 5] == Literal("}")
    ensures ReadLines(rows) == lines
  {
    var n := |lines|;
    JsonFrameReadsNothing(rows, n);
    ReadLinesFramed(rows, 2, n + 2);
    JsonBodyReadsBack(lines, rows);
  }

  lemma JsonBodyReadsBack(lines: seq<PlotLine>, rows: seq<Row>)
    requires |rows| == |lines| + 6
    requires forall i :: 0 <= i < |lines| ==>
      rows[i + 2] == JsonLine(lines[i].start.x, lines[i].start.y, lines[i].end.x, lines[i].end.y, i < |lines| - 1)
    ensures ReadLines(rows[2..|lines| + 2]) == lines
  {
    var body := rows[2..|lines| + 2];
    forall i | 0 <= i < |body|
      ensures ReadLines([body[i]]) == [lines[i]]
    {
      assert body[i] == rows[i + 2];
    }
    ReadBackRows(lines, body);
  }

  /** Rows before `lo` and from `hi` on that carry no segment do not change what is read back. */
  lemma ReadLinesFramed(rows: seq<Row>, lo: nat, hi: nat)
    requires lo <= hi <= |rows|
    requires ReadLines(rows[..lo]) == [] && ReadLines(rows[hi..]) == []
    ensures ReadLines(rows) == ReadLines(rows[lo..hi])
  {
    SliceSplit(rows, lo, hi);
    ReadLinesAppend(rows[..lo], rows[lo..hi]);
    ReadLinesAppend(rows[..hi], rows[hi..]);
  }

  /** The opening and closing rows of the JSON file carry no segment. */
  lemma JsonFrameReadsNothing(rows: seq<Row>, n: nat)
    requires |rows| == n + 6
    requires rows[0].Literal? && rows[1].Literal?
    requires rows[n + 2].Literal? && rows[n + 3].JsonCount? && rows[n + 4].JsonTotalLength? && rows[n + 5].Literal?
    ensures ReadLines(rows[..2]) == [] && ReadLines(rows[n + 2..]) == []
  {
    ReadLinesOfOthers(rows[..2]);
    ReadLinesOfOthers(rows[n + 2..]);
  }

  /** Reading back the text file gives the segments exported. */
  lemma TextRoundTrip(lines: seq<PlotLine>, rows: seq<Row>)
    requires |rows| == |lines|
    requires forall i :: 0 <= i < |lines| ==>
      rows[i] == TextLine(lines[i].start.x, lines[i].start.y, lines[i].end.x, lines[i].end.y)
    ensures ReadLines(rows) == lines
  {
    ReadBackRows(lines, rows);
  }

  // ---------------------------------------------------------------------------
  // Chaining segments into polylines
  //
  // The reference definition works on segment indices: a chain is the list of
  // indices of the segments of one polyline, and `used` holds the indices
  // already placed in some chain.

  /** The indices of the segments, as a set. */
  function Range(n: int): (r: set<int>)
    ensures forall i :: i in r <==> 0 <= i < n
  {
    if n <= 0 then {} else Range(n - 1) + {n - 1}
  }

  /** The elements of a chain, as a set. */
  function Members(c: seq<int>): set<int> {
    set x | x in c
  }

  /** Every element of `c` indexes a segment. */
  ghost predicate InRange(c: seq<int>, n: int) {
    forall m :: 0 <= m < |c| ==> 0 <= c[m] < n
  }

  /**
   * The lowest index from `j` on of an unused segment that starts close to
   * `p`, or `|lines|` when there is none.
   */
  function FirstClose(lines: seq<PlotLine>, used: set<int>, p: Point, j: int): (r: int)
    requires 0 <= j <= |lines|
    ensures j <= r <= |lines|
    ensures r < |lines| ==> r !in used && PointsAreClose(p, lines[r].start)
    ensures forall k :: j <= k < r ==> k in used || !PointsAreClose(p, lines[k].start)
    decreases |lines| - j
  {
    if j == |lines| then |lines|
    else if j !in used && PointsAreClose(p, lines[j].start) then j
    else FirstClose(lines, used, p, j + 1)
  }

  /** Placing one more segment leaves fewer unused ones. */
  lemma ShrinkUnused(n: int, used: set<int>, j: int)
    requires 0 <= j < n && j !in used
    ensures |Range(n) - (used + {j})| < |Range(n) - used|
  {
    var before := Range(n) - used;
    var after := Range(n) - (used + {j});
    assert after == before - {j};
    assert before == after + {j} && j !in after;
  }

  /**
   * Grows a chain from its last segment: appends the first unused segment
   * that starts close to where the chain ends, until there is none. Gives
   * the chain and the used indices at that point.
   */
  function Extend(lines: seq<PlotLine>, used: set<int>, chain: seq<int>): (r: (seq<int>, set<int>))
    requires |chain| > 0 && InRange(chain, |lines|)
    ensures |r.0| > 0 && InRange(r.0, |lines|)
    decreases |Range(|lines|) - used|
  {
    var j := FirstClose(lines, used, lines[chain[|chain| - 1]].end, 0);
    if j == |lines| then
      (chain, used)
    else
      ShrinkUnused(|lines|, used, j);
      Extend(lines, used + {j}, chain + [j])
  }

  /**
   * The chains started from index `i` on: each unused index, in increasing
   * order, starts a chain that is then grown as far as it goes. There are
   * never more chains than segments.
   */
  function ChainsFrom(lines: seq<PlotLine>, used: set<int>, i: int): (r: seq<seq<int>>)
    requires 0 <= i <= |lines|
    ensures |r| <= |lines| - i
    ensures forall k :: 0 <= k < |r| ==> |r[k]| > 0 && InRange(r[k], |lines|)
    decreases |lines| - i
  {
    if i == |lines| then
      []
    else if i in used then
      ChainsFrom(lines, used, i + 1)
    else
      var grown := Extend(lines, used + {i}, [i]);
      [grown.0] + ChainsFrom(lines, grown.1, i + 1)
  }

  /** The chains of a list of segments. */
  function Chains(lines: seq<PlotLine>): seq<seq<int>> {
    ChainsFrom(lines, {}, 0)
  }

  /** The segments of a chain, in chain order. */
  function LinesOf(lines: seq<PlotLine>, c: seq<int>): (r: seq<PlotLine>)
    requires InRange(c, |lines|)
    ensures |r| == |c| && forall m :: 0 <= m < |c| ==> r[m] == lines[c[m]]
  {
    seq(|c|, m requires 0 <= m < |c| => lines[c[m]])
  }

  /** The segments of each chain. */
  function PolylinesOf(lines: seq<PlotLine>, cs: seq<seq<int>>): (r: seq<seq<PlotLine>>)
    requires forall k :: 0 <= k < |cs| ==> InRange(cs[k], |lines|)
    ensures |r| == |cs|
    ensures forall k :: 0 <= k < |cs| ==> r[k] == LinesOf(lines, cs[k])
  {
    if |cs| == 0 then [] else [LinesOf(lines, cs[0])] + PolylinesOf(lines, cs[1..])
  }

  /** The polylines a list of segments is chained into. */
  function Polylines(lines: seq<PlotLine>): seq<seq<PlotLine>> {
    PolylinesOf(lines, Chains(lines))
  }

  /** Once no unused segment starts close to the chain's end, the chain is complete. */
  lemma ExtendStops(lines: seq<PlotLine>, used: set<int>, chain: seq<int>, p: Point)
    requires |chain| > 0 && InRange(chain, |lines|) && p == lines[chain[|chain| - 1]].end
    requires FirstClose(lines, used, p, 0) == |lines|
    ensures Extend(lines, used, chain) == (chain, used)
  {
  }

  /** Appending the first match and marking it used leaves the completed chain as it was. */
  lemma ExtendSteps(lines: seq<PlotLine>, used: set<int>, chain: seq<int>, p: Point, j: int)
    requires |chain| > 0 && InRange(chain, |lines|) && p == lines[chain[|chain| - 1]].end
    requires j == FirstClose(lines, used, p, 0) && j < |lines|
    ensures InRange(chain + [j], |lines|)
    ensures Extend(lines, used + {j}, chain + [j]) == Extend(lines, used, chain)
  {
    assert InRange(chain + [j], |lines|);
  }

  /** The first match is an unused index. */
  lemma {:induction false} FirstCloseUnused(lines: seq<PlotLine>, used: set<int>, p: Point, j: int)
    requires 0 <= j <= |lines|
    ensures var r := FirstClose(lines, used, p, j); r < |lines| ==> r !in used
    decreases |lines| - j
  {
    if j < |lines| {
      FirstCloseUnused(lines, used, p, j + 1);
    }
  }

  /** One pass of the extension loop that finds a match: the polyline, the chain and the used set grow together. */
  lemma GrowStep(lines: seq<PlotLine>, used: set<int>, chain: seq<int>, polyline: seq<PlotLine>, j: int)
    requires |chain| > 0 && InRange(chain, |lines|) && polyline == LinesOf(lines, chain)
    requires j == FirstClose(lines, used, polyline[|polyline| - 1].end, 0) && j < |lines|
    requires forall x :: x in used ==> 0 <= x < |lines|
    ensures forall x :: x in used + {j} ==> 0 <= x < |lines|
    ensures InRange(chain + [j], |lines|) && polyline + [lines[j]] == LinesOf(lines, chain + [j])
    ensures Extend(lines, used + {j}, chain + [j]) == Extend(lines, used, chain)
    ensures |Range(|lines|) - (used + {j})| < |Range(|lines|) - used|
  {
    var last := polyline[|polyline| - 1];
    assert last == lines[chain[|chain| - 1]];
    ExtendSteps(lines, used, chain, last.end, j);
    assert polyline + [lines[j]] == LinesOf(lines, chain + [j]);
    FirstCloseUnused(lines, used, last.end, 0);
    ShrinkUnused(|lines|, used, j);
  }

  /** One pass of the extension loop that finds no match: the chain is complete. */
  lemma GrowStop(lines: seq<PlotLine>, used: set<int>, chain: seq<int>, polyline: seq<PlotLine>)
    requires |chain| > 0 && InRange(chain, |lines|) && polyline == LinesOf(lines, chain)
    requires FirstClose(lines, used, polyline[|polyline| - 1].end, 0) == |lines|
    ensures Extend(lines, used, chain).0 == chain && Extend(lines, used, chain).1 == used
  {
    var last := polyline[|polyline| - 1];
    assert last == lines[chain[|chain| - 1]];
    ExtendStops(lines, used, chain, last.end);
  }

  /** The first match at or after `j` is the first match from `j + 1` when `j` is used or starts too far away. */
  lemma FirstCloseSkips(lines: seq<PlotLine>, used: set<int>, p: Point, j: int)
    requires 0 <= j < |lines| && (j in used || !PointsAreClose(p, lines[j].start))
    ensures FirstClose(lines, used, p, j) == FirstClose(lines, used, p, j + 1)
  {
  }

  /**
   * The search of one extension step: scans the segments in index order and
   * stops at the first unused one that starts close to `p`, giving
   * `|lines|` when the scan runs out.
   */
  method FindNext(lines: seq<PlotLine>, used: set<int>, p: Point) returns (j: int)
    ensures j == FirstClose(lines, used, p, 0)
  {
    j := 0;
    while j < |lines|
      invariant 0 <= j <= |lines|
      invariant FirstClose(lines, used, p, j) == FirstClose(lines, used, p, 0)
    {
      if j !in used && PointsAreClose(p, lines[j].start) {
        return;
      }
      FirstCloseSkips(lines, used, p, j);
      j := j + 1;
    }
  }

  /** Chains segments into polylines: each unused segment, in order, starts a polyline that is extended by first matches. */
  method ExtractPolylines(lines: seq<PlotLine>) returns (polylines: seq<seq<PlotLine>>)
    ensures polylines == Polylines(lines)
  {
    polylines := [];
    var used: set<int> := {};
    var i := 0;
    while i < |lines|
      invariant 0 <= i <= |lines|
      invariant forall x :: x in used ==> 0 <= x < |lines|
      invariant Polylines(lines) == polylines + PolylinesOf(lines, ChainsFrom(lines, used, i))
    {
      polylines, used := VisitSegment(lines, used, i, polylines);
      i := i + 1;
    }
  }

  /**
   * One pass of the extraction loop at segment `i`: an unused segment starts
   * a polyline, grown as far as it goes, and a used one is passed over.
   */
  method VisitSegment(lines: seq<PlotLine>, used0: set<int>, i: int, done: seq<seq<PlotLine>>)
    returns (polylines: seq<seq<PlotLine>>, used: set<int>)
    requires 0 <= i < |lines| && forall x :: x in used0 ==> 0 <= x < |lines|
    requires Polylines(lines) == done + PolylinesOf(lines, ChainsFrom(lines, used0, i))
    ensures forall x :: x in used ==> 0 <= x < |lines|
    ensures Polylines(lines) == polylines + PolylinesOf(lines, ChainsFrom(lines, used, i + 1))
  {
    polylines, used := done, used0;
    if i !in used {
      ChainsFromStarts(lines, used, i, polylines);
      var polyline;
      polyline, used := GrowPolyline(lines, used, i);
      polylines := polylines + [polyline];
    } else {
      ChainsFromSkips(lines, used, i);
    }
  }

  /** A used index starts no chain. */
  lemma ChainsFromSkips(lines: seq<PlotLine>, used: set<int>, i: int)
    requires 0 <= i < |lines| && i in used
    ensures ChainsFrom(lines, used, i) == ChainsFrom(lines, used, i + 1)
  {
  }

  /** An unused index starts the next chain; the chains after it continue from the next index. */
  lemma ChainsFromStarts(lines: seq<PlotLine>, used: set<int>, i: int, done: seq<seq<PlotLine>>)
    requires 0 <= i < |lines| && i !in used
    requires Polylines(lines) == done + PolylinesOf(lines, ChainsFrom(lines, used, i))
    ensures var grown := Extend(lines, used + {i}, [i]);
      Polylines(lines) == (done + [LinesOf(lines, grown.0)]) + PolylinesOf(lines, ChainsFrom(lines, grown.1, i + 1))
  {
    var grown := Extend(lines, used + {i}, [i]);
    var rest := ChainsFrom(lines, grown.1, i + 1);
    assert ChainsFrom(lines, used, i) == [grown.0] + rest;
    assert ([grown.0] + rest)[1..] == rest;
  }

  /**
   * Starts a polyline at segment `i` and extends it while some unused
   * segment starts close to its end; gives the polyline and the used set
   * afterwards.
   */
  method GrowPolyline(lines: seq<PlotLine>, used0: set<int>, i: int) returns (polyline: seq<PlotLine>, used: set<int>)
    requires 0 <= i < |lines| && i !in used0
    requires forall x :: x in used0 ==> 0 <= x < |lines|
    ensures var grown := Extend(lines, used0 + {i}, [i]);
      polyline == LinesOf(lines, grown.0) && used == grown.1
    ensures forall x :: x in used ==> 0 <= x < |lines|
  {
    polyline := [lines[i]];
    used := used0 + {i};
    ghost var chain := [i];
    ghost var grown := Extend(lines, used, chain);
    var extended := true;
    while extended
      invariant |chain| > 0 && InRange(chain, |lines|) && polyline == LinesOf(lines, chain)
      invariant forall x :: x in used ==> 0 <= x < |lines|
      invariant extended ==> Extend(lines, used, chain) == grown
      invariant !extended ==> chain == grown.0 && used == grown.1
      decreases |Range(|lines|) - used| + (if extended then 1 else 0)
    {
      extended := false;
      var last := polyline[|polyline| - 1];
      var j := FindNext(lines, used, last.end);
      if j < |lines| {
        GrowStep(lines, used, chain, polyline, j);
        polyline := polyline + [lines[j]];
        used := used + {j};
        chain := chain + [j];
        extended := true;
      } else {
        GrowStop(lines, used, chain, polyline);
      }
    }
  }

  // ---------------------------------------------------------------------------
  // What the chaining promises

  /** The first match is the lowest unused index from `j` on whose segment starts close to `p`; `|lines|` means there is none. */
  lemma {:induction false} FirstCloseMeaning(lines: seq<PlotLine>, used: set<int>, p: Point, j: int)
    requires 0 <= j <= |lines|
    ensures var r := FirstClose(lines, used, p, j);
      && (r < |lines| ==> r !in used && PointsAreClose(p, lines[r].start))
      && (forall k :: j <= k < r ==> k in used || !PointsAreClose(p, lines[k].start))
    decreases |lines| - j
  {
    if j < |lines| {
      FirstCloseMeaning(lines, used, p, j + 1);
    }
  }

  /** Each element of `c` indexes a segment outside `used`, and no index repeats. */
  ghost predicate FreshChain(n: int, used: set<int>, c: seq<int>) {
    && |c| > 0
    && (forall m :: 0 <= m < |c| ==> 0 <= c[m] < n && c[m] !in used)
    && (forall m1, m2 :: 0 <= m1 < m2 < |c| ==> c[m1] != c[m2])
  }

  /** Each link after the first is the first match for the end of the link before it, among the indices not yet used. */
  ghost predicate FirstMatches(lines: seq<PlotLine>, used: set<int>, c: seq<int>)
    requires FreshChain(|lines|, used, c)
  {
    forall m :: 1 <= m < |c| ==> c[m] == FirstClose(lines, used + Members(c[..m]), lines[c[m - 1]].end, 0)
  }

  /** No segment still unused starts close to where the chain ends. */
  ghost predicate Closed(lines: seq<PlotLine>, used: set<int>, c: seq<int>)
    requires FreshChain(|lines|, used, c)
  {
    FirstClose(lines, used + Members(c), lines[c[|c| - 1]].end, 0) == |lines|
  }

  /** `c` is the chain the greedy extension grows from its head when `used` is taken. */
  ghost predicate GreedyChain(lines: seq<PlotLine>, used: set<int>, c: seq<int>) {
    FreshChain(|lines|, used, c) && FirstMatches(lines, used, c) && Closed(lines, used, c)
  }

  /** A fresh chain with first-match links stays so when its first match is appended. */
  lemma ChainSnoc(lines: seq<PlotLine>, used0: set<int>, chain: seq<int>, j: int)
    requires FreshChain(|lines|, used0, chain) && FirstMatches(lines, used0, chain)
    requires j == FirstClose(lines, used0 + Members(chain), lines[chain[|chain| - 1]].end, 0) && j < |lines|
    ensures FreshChain(|lines|, used0, chain + [j]) && FirstMatches(lines, used0, chain + [j])
    ensures Members(chain + [j]) == Members(chain) + {j}
  {
    var c := chain + [j];
    FirstCloseMeaning(lines, used0 + Members(chain), lines[chain[|chain| - 1]].end, 0);
    forall m | 0 <= m < |chain|
      ensures chain[m] != j
    {
      assert chain[m] in Members(chain);
    }
    forall m | 1 <= m < |c|
      ensures c[m] == FirstClose(lines, used0 + Members(c[..m]), lines[c[m - 1]].end, 0)
    {
      if m < |chain| {
        assert c[..m] == chain[..m];
      } else {
        assert c[..m] == chain;
      }
    }
  }

  /** Growing a fresh chain with first-match links gives a greedy chain, and marks exactly its elements used. */
  lemma {:induction false} ExtendGreedy(lines: seq<PlotLine>, used0: set<int>, chain: seq<int>)
    requires FreshChain(|lines|, used0, chain) && FirstMatches(lines, used0, chain)
    ensures var r := Extend(lines, used0 + Members(chain), chain);
      GreedyChain(lines, used0, r.0) && r.1 == used0 + Members(r.0) && r.0[0] == chain[0]
    decreases |Range(|lines|) - (used0 + Members(chain))|, 1
  {
    var used := used0 + Members(chain);
    var p := lines[chain[|chain| - 1]].end;
    if FirstClose(lines, used, p, 0) < |lines| {
      ExtendGreedyStep(lines, used0, chain);
    } else {
      ExtendStops(lines, used, chain, p);
    }
  }

  /** The step of `ExtendGreedy` that appends a first match. */
  lemma {:induction false} ExtendGreedyStep(lines: seq<PlotLine>, used0: set<int>, chain: seq<int>)
    requires FreshChain(|lines|, used0, chain) && FirstMatches(lines, used0, chain)
    requires FirstClose(lines, used0 + Members(chain), lines[chain[|chain| - 1]].end, 0) < |lines|
    ensures var r := Extend(lines, used0 + Members(chain), chain);
      GreedyChain(lines, used0, r.0) && r.1 == used0 + Members(r.0) && r.0[0] == chain[0]
    decreases |Range(|lines|) - (used0 + Members(chain))|, 0
  {
    var used := used0 + Members(chain);
    var p := lines[chain[|chain| - 1]].end;
    var j := FirstClose(lines, used, p, 0);
    ChainSnoc(lines, used0, chain, j);
    FirstCloseUnused(lines, used, p, 0);
    ShrinkUnused(|lines|, used, j);
    assert used + {j} == used0 + Members(chain + [j]);
    ExtendSteps(lines, used, chain, p, j);
    ExtendGreedy(lines, used0, chain + [j]);
  }

  /** The elements of the first `k` chains. */
  function UsedBy(cs: seq<seq<int>>, k: int): set<int>
    requires 0 <= k <= |cs|
  {
    if k == 0 then {} else UsedBy(cs, k - 1) + Members(cs[k - 1])
  }

  lemma {:induction false} UsedByCons(c: seq<int>, rest: seq<seq<int>>, k: int)
    requires 0 <= k <= |rest|
    ensures UsedBy([c] + rest, k + 1) == Members(c) + UsedBy(rest, k)
  {
    if k > 0 {
      UsedByCons(c, rest, k - 1);
      assert ([c] + rest)[k] == rest[k - 1];
    }
  }

  /**
   * Chain `c` is what the outer loop produces when `before` is used: its
   * head is the lowest unused index and the rest is grown greedily.
   */
  ghost predicate GreedyAt(lines: seq<PlotLine>, before: set<int>, c: seq<int>) {
    GreedyChain(lines, before, c) && forall x :: 0 <= x < c[0] ==> x in before
  }

  /** Every chain is greedy with respect to the indices used before it. */
  ghost predicate Greedy(lines: seq<PlotLine>, used: set<int>, cs: seq<seq<int>>)
    decreases |cs|
  {
    |cs| == 0 || (GreedyAt(lines, used, cs[0]) && Greedy(lines, used + Members(cs[0]), cs[1..]))
  }

  /** A greedy chain followed by chains greedy after it is a greedy list. */
  lemma GreedyCons(lines: seq<PlotLine>, used: set<int>, c: seq<int>, rest: seq<seq<int>>, cs: seq<seq<int>>)
    requires cs == [c] + rest
    requires GreedyAt(lines, used, c) && Greedy(lines, used + Members(c), rest)
    ensures Greedy(lines, used, cs)
  {
    assert cs[0] == c && cs[1..] == rest;
  }

  /** The indices used by a chain and then by the chains after it are those used by the whole list. */
  lemma CoverCons(used: set<int>, c: seq<int>, rest: seq<seq<int>>, cs: seq<seq<int>>, after: set<int>, all: set<int>)
    requires cs == [c] + rest && after == used + Members(c) && after + UsedBy(rest, |rest|) == all
    ensures used + UsedBy(cs, |cs|) == all
  {
    UsedByCons(c, rest, |rest|);
  }

  /** In a greedy list of chains, the `k`-th is greedy with respect to the indices of the chains before it. */
  lemma {:induction false} GreedyIndex(lines: seq<PlotLine>, used: set<int>, cs: seq<seq<int>>, k: int)
    requires Greedy(lines, used, cs) && 0 <= k < |cs|
    ensures GreedyAt(lines, used + UsedBy(cs, k), cs[k])
    decreases k
  {
    if k == 0 {
      GreedyAtSame(lines, used, cs[0], used + UsedBy(cs, k), cs[k]);
    } else {
      var rest := cs[1..];
      GreedyIndex(lines, used + Members(cs[0]), rest, k - 1);
      assert [cs[0]] + rest == cs;
      UsedByCons(cs[0], rest, k - 1);
      GreedyAtSame(lines, used + Members(cs[0]) + UsedBy(rest, k - 1), rest[k - 1], used + UsedBy(cs, k), cs[k]);
    }
  }

  /** Greediness of a chain depends only on the chain and the set used before it. */
  lemma GreedyAtSame(lines: seq<PlotLine>, before: set<int>, c: seq<int>, before': set<int>, c': seq<int>)
    requires GreedyAt(lines, before, c) && before == before' && c == c'
    ensures GreedyAt(lines, before', c')
  {
  }

  /**
   * From index `i` on, with every index below `i` already used, the chains
   * are greedy and use up every remaining index.
   */
  lemma {:induction false} ChainsFromGreedy(lines: seq<PlotLine>, used: set<int>, i: int)
    requires 0 <= i <= |lines|
    requires forall x :: x in used ==> 0 <= x < |lines|
    requires forall x :: 0 <= x < i ==> x in used
    ensures var cs := ChainsFrom(lines, used, i);
      Greedy(lines, used, cs) && used + UsedBy(cs, |cs|) == Range(|lines|)
    decreases |lines| - i, 1
  {
    if i == |lines| {
    } else if i in used {
      ChainsFromGreedy(lines, used, i + 1);
    } else {
      ChainsFromGreedyHead(lines, used, i);
    }
  }

  /** The step of `ChainsFromGreedy` where index `i` starts a chain. */
  lemma {:induction false} ChainsFromGreedyHead(lines: seq<PlotLine>, used: set<int>, i: int)
    requires 0 <= i < |lines| && i !in used
    requires forall x :: x in used ==> 0 <= x < |lines|
    requires forall x :: 0 <= x < i ==> x in used
    ensures var cs := ChainsFrom(lines, used, i);
      Greedy(lines, used, cs) && used + UsedBy(cs, |cs|) == Range(|lines|)
    decreases |lines| - i, 0
  {
    var grown := HeadGreedy(lines, used, i);
    var rest := ChainsFrom(lines, grown.1, i + 1);
    ChainsFromGreedy(lines, grown.1, i + 1);
    var cs := ChainsFrom(lines, used, i);
    GreedyCons(lines, used, grown.0, rest, cs);
    CoverCons(used, grown.0, rest, cs, grown.1, Range(|lines|));
  }

  /** The chain an unused index `i` starts, when every index below it is used, is greedy and leaves the next index used. */
  lemma HeadGreedy(lines: seq<PlotLine>, used: set<int>, i: int) returns (grown: (seq<int>, set<int>))
    requires 0 <= i < |lines| && i !in used
    requires forall x :: x in used ==> 0 <= x < |lines|
    requires forall x :: 0 <= x < i ==> x in used
    ensures grown == Extend(lines, used + {i}, [i])
    ensures ChainsFrom(lines, used, i) == [grown.0] + ChainsFrom(lines, grown.1, i + 1)
    ensures GreedyAt(lines, used, grown.0) && grown.1 == used + Members(grown.0)
    ensures forall x :: x in grown.1 ==> 0 <= x < |lines|
    ensures forall x :: 0 <= x < i + 1 ==> x in grown.1
  {
    grown := Extend(lines, used + {i}, [i]);
    assert used + {i} == used + Members([i]);
    ExtendGreedy(lines, used, [i]);
    assert grown.0[0] == i && i in Members(grown.0);
  }

  /**
   * The chains of a list of segments: each starts at the lowest index not
   * in an earlier chain, links first matches until no unused segment starts
   * close to its end, and together they use every index.
   */
  lemma ChainsAreGreedy(lines: seq<PlotLine>)
    ensures var cs := Chains(lines);
      Greedy(lines, {}, cs) && UsedBy(cs, |cs|) == Range(|lines|)
  {
    ChainsFromGreedy(lines, {}, 0);
    assert {} + UsedBy(Chains(lines), |Chains(lines)|) == UsedBy(Chains(lines), |Chains(lines)|);
  }

  /** The `k`-th chain is greedy with respect to the indices of the chains before it. */
  lemma ChainGreedy(lines: seq<PlotLine>, k: int)
    requires 0 <= k < |Chains(lines)|
    ensures var cs := Chains(lines); GreedyAt(lines, {} + UsedBy(cs, k), cs[k])
    ensures var cs := Chains(lines); {} + UsedBy(cs, k) == UsedBy(cs, k)
  {
    ChainsAreGreedy(lines);
    GreedyIndex(lines, {}, Chains(lines), k);
  }

  /** The head of the `k`-th chain is the lowest index not in an earlier chain. */
  lemma HeadIsLowest(lines: seq<PlotLine>, k: int)
    requires 0 <= k < |Chains(lines)|
    ensures var cs := Chains(lines);
      cs[k][0] !in UsedBy(cs, k) && forall x :: 0 <= x < cs[k][0] ==> x in UsedBy(cs, k)
  {
    ChainGreedy(lines, k);
  }

  /** An index in the first `k` chains sits at some place of one of them. */
  lemma {:induction false} UsedByWitness(cs: seq<seq<int>>, k: int, x: int) returns (k': int, m: int)
    requires 0 <= k <= |cs| && x in UsedBy(cs, k)
    ensures 0 <= k' < k && 0 <= m < |cs[k']| && cs[k'][m] == x
  {
    if x in Members(cs[k - 1]) {
      k' := k - 1;
      m :| 0 <= m < |cs[k']| && cs[k'][m] == x;
    } else {
      k', m := UsedByWitness(cs, k - 1, x);
    }
  }

  /** The elements of an earlier chain are among those used before a later one. */
  lemma {:induction false} UsedByHas(cs: seq<seq<int>>, k1: int, m: int, k2: int)
    requires 0 <= k1 < k2 <= |cs| && 0 <= m < |cs[k1]|
    ensures cs[k1][m] in UsedBy(cs, k2)
  {
    if k2 - 1 > k1 {
      UsedByHas(cs, k1, m, k2 - 1);
    } else {
      assert cs[k1][m] in Members(cs[k1]);
    }
  }

  /** Every segment index appears in some chain. */
  lemma ChainsCover(lines: seq<PlotLine>, x: int) returns (k: int, m: int)
    requires 0 <= x < |lines|
    ensures var cs := Chains(lines); 0 <= k < |cs| && 0 <= m < |cs[k]| && cs[k][m] == x
  {
    var cs := Chains(lines);
    ChainsAreGreedy(lines);
    k, m := UsedByWitness(cs, |cs|, x);
  }

  /** No segment index appears twice, within a chain or across two chains. */
  lemma ChainsDisjoint(lines: seq<PlotLine>, k1: int, m1: int, k2: int, m2: int)
    requires var cs := Chains(lines);
      0 <= k1 < |cs| && 0 <= m1 < |cs[k1]| && 0 <= k2 < |cs| && 0 <= m2 < |cs[k2]| && cs[k1][m1] == cs[k2][m2]
    ensures k1 == k2 && m1 == m2
  {
    var cs := Chains(lines);
    if k1 < k2 {
      ChainGreedy(lines, k2);
      UsedByHas(cs, k1, m1, k2);
    } else if k2 < k1 {
      ChainGreedy(lines, k1);
      UsedByHas(cs, k2, m2, k1);
    } else {
      ChainGreedy(lines, k1);
    }
  }

  /** Within a polyline, each segment starts close to where the segment before it ends. */
  lemma PolylinesAreConnected(lines: seq<PlotLine>, k: int, m: int)
    requires var ps := Polylines(lines); 0 <= k < |ps| && 1 <= m < |ps[k]|
    ensures var ps := Polylines(lines); PointsAreClose(ps[k][m - 1].end, ps[k][m].start)
  {
    var cs := Chains(lines);
    ChainGreedy(lines, k);
    var c := cs[k];
    assert FirstMatches(lines, {} + UsedBy(cs, k), c);
    FirstCloseMeaning(lines, {} + UsedBy(cs, k) + Members(c[..m]), lines[c[m - 1]].end, 0);
  }

  /**
   * Each link is the lowest-index segment not yet used that starts close to
   * where the link before it ends: every unused segment below it starts too
   * far away.
   */
  lemma LinksAreFirstMatches(lines: seq<PlotLine>, k: int, m: int, x: int)
    requires var cs := Chains(lines); 0 <= k < |cs| && 1 <= m < |cs[k]|
    requires var cs := Chains(lines); 0 <= x < cs[k][m] && x !in UsedBy(cs, k) && x !in cs[k][..m]
    ensures var cs := Chains(lines); !PointsAreClose(lines[cs[k][m - 1]].end, lines[x].start)
  {
    var cs := Chains(lines);
    ChainGreedy(lines, k);
    var c := cs[k];
    assert FirstMatches(lines, {} + UsedBy(cs, k), c);
    FirstCloseMeaning(lines, {} + UsedBy(cs, k) + Members(c[..m]), lines[c[m - 1]].end, 0);
  }

  /** A polyline ends only when no segment still unused starts close to where it ends. */
  lemma PolylinesEndWhenNothingFits(lines: seq<PlotLine>, k: int, x: int)
    requires var cs := Chains(lines); 0 <= k < |cs| && 0 <= x < |lines| && x !in UsedBy(cs, k + 1)
    ensures var cs := Chains(lines); !PointsAreClose(lines[cs[k][|cs[k]| - 1]].end, lines[x].start)
  {
    var cs := Chains(lines);
    ChainGreedy(lines, k);
    var c := cs[k];
    assert Closed(lines, {} + UsedBy(cs, k), c);
    assert {} + UsedBy(cs, k) + Members(c) == UsedBy(cs, k + 1);
    FirstCloseMeaning(lines, UsedBy(cs, k + 1), lines[c[|c| - 1]].end, 0);
  }

  /** Each polyline starts at the lowest index not in an earlier one, so the starting indices increase. */
  lemma HeadsIncrease(lines: seq<PlotLine>, k1: int, k2: int)
    requires var cs := Chains(lines); 0 <= k1 < k2 < |cs|
    ensures var cs := Chains(lines); cs[k1][0] < cs[k2][0]
  {
    var cs := Chains(lines);
    HeadIsLowest(lines, k1);
    HeadIsLowest(lines, k2);
    UsedByHas(cs, k1, 0, k2);
    UsedBySubset(cs, k1, k2);
  }

  /** The indices used before a chain include those used before any earlier chain. */
  lemma {:induction false} UsedBySubset(cs: seq<seq<int>>, k1: int, k2: int)
    requires 0 <= k1 <= k2 <= |cs|
    ensures UsedBy(cs, k1) <= UsedBy(cs, k2)
    decreases k2
  {
    if k1 < k2 {
      UsedBySubset(cs, k1, k2 - 1);
    }
  }

  // ---------------------------------------------------------------------------
  // Segments already in drawing order

  /** The indices `0, 1, ..., n - 1` in order. */
  function Iota(n: nat): (r: seq<int>)
    ensures |r| == n && forall m :: 0 <= m < n ==> r[m] == m
  {
    if n == 0 then [] else Iota(n - 1) + [n - 1]
  }

  /** Every segment starts close to where the one before it ends. */
  ghost predicate InDrawingOrder(lines: seq<PlotLine>) {
    forall i :: 0 <= i < |lines| - 1 ==> PointsAreClose(lines[i].end, lines[i + 1].start)
  }

  lemma {:induction false} OrderedExtend(lines: seq<PlotLine>, m: int)
    requires 1 <= m <= |lines| && InDrawingOrder(lines)
    ensures Extend(lines, Range(m), Iota(m)) == (Iota(|lines|), Range(|lines|))
    decreases |lines| - m
  {
    var p := lines[m - 1].end;
    FirstCloseMeaning(lines, Range(m), p, 0);
    var j := FirstClose(lines, Range(m), p, 0);
    if m < |lines| {
      assert PointsAreClose(lines[m - 1].end, lines[m].start);
      assert j == m;
      assert Range(m) + {m} == Range(m + 1);
      OrderedExtend(lines, m + 1);
    } else {
      assert j == |lines|;
    }
  }

  lemma {:induction false} AllUsedNoChains(lines: seq<PlotLine>, used: set<int>, i: int)
    requires 0 <= i <= |lines| && forall x :: i <= x < |lines| ==> x in used
    ensures ChainsFrom(lines, used, i) == []
    decreases |lines| - i
  {
    if i < |lines| {
      AllUsedNoChains(lines, used, i + 1);
    }
  }

  /** Segments that each start where the one before ends make one polyline, in their own order. */
  lemma OrderedInputOnePolyline(lines: seq<PlotLine>)
    requires |lines| > 0 && InDrawingOrder(lines)
    ensures Polylines(lines) == [lines]
  {
    assert {} + {0} == Range(1) && [0] == Iota(1);
    OrderedExtend(lines, 1);
    AllUsedNoChains(lines, Range(|lines|), 1);
    assert Chains(lines) == [Iota(|lines|)];
    assert LinesOf(lines, Iota(|lines|)) == lines;
  }

  // ---------------------------------------------------------------------------
  // The polyline file

  /** The end points of the segments, one row each. */
  function EndPoints(poly: seq<PlotLine>): (r: seq<Row>)
    ensures |r| == |poly|
  {
    if |poly| == 0 then [] else EndPoints(poly[..|poly| - 1]) + [PathPoint(poly[|poly| - 1].end.x, poly[|poly| - 1].end.y)]
  }

  /** One polyline's rows: the start of its first segment, the end of each segment, then a blank row; an empty polyline writes nothing. */
  function PolylineRows(poly: seq<PlotLine>): seq<Row> {
    if |poly| == 0 then [] else [PathPoint(poly[0].start.x, poly[0].start.y)] + EndPoints(poly) + [Blank]
  }

  /** The rows of the polylines, one after the other. */
  function PolylinesRows(polys: seq<seq<PlotLine>>): seq<Row> {
    if |polys| == 0 then [] else PolylinesRows(polys[..|polys| - 1]) + PolylineRows(polys[|polys| - 1])
  }

  lemma RowsRegroup(done: seq<Row>, head: seq<Row>, middle: seq<Row>, tail: seq<Row>)
    ensures done + head + middle + tail == done + (head + middle + tail)
  {
  }

  /** The polyline file: each polyline's points, one row each, then a blank row. */
  method ExportToPolylines(lines: seq<PlotLine>) returns (rows: seq<Row>)
    ensures rows == PolylinesRows(Polylines(lines))
  {
    var polylines := ExtractPolylines(lines);
    rows := WritePolylines(polylines);
  }

  /** Writes the polylines' rows, skipping an empty polyline. */
  method WritePolylines(polylines: seq<seq<PlotLine>>) returns (rows: seq<Row>)
    ensures rows == PolylinesRows(polylines)
  {
    rows := [];
    var k := 0;
    while k < |polylines|
      invariant 0 <= k <= |polylines| && rows == PolylinesRows(polylines[..k])
    {
      assert polylines[..k + 1][..k] == polylines[..k];
      ghost var done := rows;
      var polyline := polylines[k];
      if |polyline| > 0 {
        var first := polyline[0];
        rows := rows + [PathPoint(first.start.x, first.start.y)];
        ghost var started := rows;
        var m := 0;
        while m < |polyline|
          invariant 0 <= m <= |polyline| && rows == started + EndPoints(polyline[..m])
        {
          assert polyline[..m + 1][..m] == polyline[..m];
          rows := rows + [PathPoint(polyline[m].end.x, polyline[m].end.y)];
          m := m + 1;
        }
        assert polyline[..m] == polyline;
        rows := rows + [Blank];
        RowsRegroup(done, [PathPoint(first.start.x, first.start.y)], EndPoints(polyline), [Blank]);
      }
      assert rows == done + PolylineRows(polyline);
      k := k + 1;
    }
    assert polylines[..k] == polylines;
  }

  /** The number of elements of all the lists together. */
  function TotalSize<T>(ss: seq<seq<T>>): nat {
    if |ss| == 0 then 0 else TotalSize(ss[..|ss| - 1]) + |ss[|ss| - 1]|
  }

  /** Lists of lists whose members have the same lengths have the same total size. */
  lemma {:induction false} TotalSizeSame<S, T>(a: seq<seq<S>>, b: seq<seq<T>>)
    requires |a| == |b| && forall k :: 0 <= k < |a| ==> |a[k]| == |b[k]|
    ensures TotalSize(a) == TotalSize(b)
  {
    if |a| > 0 {
      TotalSizeSame(a[..|a| - 1], b[..|b| - 1]);
    }
  }

  /** An index list without repeats has as many distinct elements as it is long. */
  lemma {:induction false} MembersSize(c: seq<int>)
    requires forall m1, m2 :: 0 <= m1 < m2 < |c| ==> c[m1] != c[m2]
    ensures |Members(c)| == |c|
  {
    if |c| > 0 {
      var front := c[..|c| - 1];
      MembersSize(front);
      assert Members(c) == Members(front) + {c[|c| - 1]};
      assert c[|c| - 1] !in Members(front);
    }
  }

  lemma {:induction false} RangeSize(n: nat)
    ensures |Range(n)| == n
  {
    if n > 0 {
      var below := Range(n - 1);
      RangeSize(n - 1);
      assert n - 1 !in below;
      assert |below + {n - 1}| == n;
    }
  }

  /** The chains before the `k`-th hold as many distinct indices as they have elements. */
  lemma {:induction false} UsedBySize(lines: seq<PlotLine>, k: int)
    requires 0 <= k <= |Chains(lines)|
    ensures var cs := Chains(lines); |UsedBy(cs, k)| == TotalSize(cs[..k])
  {
    var cs := Chains(lines);
    if k > 0 {
      UsedBySize(lines, k - 1);
      ChainGreedy(lines, k - 1);
      var c := cs[k - 1];
      MembersSize(c);
      assert UsedBy(cs, k - 1) * Members(c) == {};
      assert cs[..k][..k - 1] == cs[..k - 1];
    }
  }

  /** The chains hold every index exactly once, so their lengths add up to the number of segments. */
  lemma ChainsSize(lines: seq<PlotLine>)
    ensures TotalSize(Chains(lines)) == |lines|
  {
    var cs := Chains(lines);
    ChainsUseAll(lines);
    UsedBySize(lines, |cs|);
    RangeSize(|lines|);
    assert cs[..|cs|] == cs;
  }

  lemma ChainsUseAll(lines: seq<PlotLine>)
    ensures UsedBy(Chains(lines), |Chains(lines)|) == Range(|lines|)
  {
    ChainsAreGreedy(lines);
  }

  /** Non-empty polylines take their segment count plus two rows each: the first point, one point per segment, a blank row. */
  lemma {:induction false} PolylinesRowsSize(polys: seq<seq<PlotLine>>)
    requires forall k :: 0 <= k < |polys| ==> |polys[k]| > 0
    ensures |PolylinesRows(polys)| == TotalSize(polys) + 2 * |polys|
  {
    if |polys| > 0 {
      PolylinesRowsSize(polys[..|polys| - 1]);
    }
  }

  /** The polyline file has one row per segment, plus a first point and a blank row per polyline. */
  lemma PolylineFileSize(lines: seq<PlotLine>)
    ensures |PolylinesRows(Polylines(lines))| == |lines| + 2 * |Polylines(lines)|
  {
    ChainsSize(lines);
    TotalSizeSame(Polylines(lines), Chains(lines));
    PolylinesRowsSize(Polylines(lines));
  }
}
