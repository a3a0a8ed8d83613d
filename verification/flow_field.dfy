/**
 * The flow-field renderer. A Sobel operator turns the image's darkness into a
 * gradient at every interior pixel; seeds on a square grid start traces that
 * step, one unit direction at a time, either along the gradient or across it
 * (along the contours of equal darkness), and stop when the gradient fades,
 * the next point leaves the canvas or is light, or the trace is long enough.
 *
 * Square roots come from the platform's maths library, which the model does
 * not compute: the renderer takes a function `sqrt`, and everything that
 * depends on its meaning requires `IsSquareRoot(sqrt)`.
 */
module FlowField {
  import opened LineRenderHelper
  import opened Plot
  import opened RenderSettings
  import opened Stepping
  import opened Sequences
  import opened Wrappers

  // ---------------------------------------------------------------------------
  // Vectors

  datatype Vector2 = Vector2(x: real, y: real) {
    /** The argument of the square root in `Length`. */
    function SquaredNorm(): (r: real)
      ensures r >= 0.0
    {
      SquareNonneg(x);
      SquareNonneg(y);
      x * x + y * y
    }

    function Length(sqrt: real -> real): real {
      sqrt(x * x + y * y)
    }

    /** The unit vector in the same direction, or the zero vector for a vector shorter than 0.001. */
    function Normalize(sqrt: real -> real): Vector2 {
      var len := Length(sqrt);
      if len < 0.001 then Zero else Vector2(x / len, y / len)
    }
  }

  const Zero: Vector2 := Vector2(0.0, 0.0)

  /** Comparing the length with a positive bound is comparing the squared norm with the bound's square. */
  lemma LengthBelow(v: Vector2, sqrt: real -> real, bound: real)
    requires IsSquareRoot(sqrt) && bound > 0.0
    ensures v.Length(sqrt) < bound <==> v.SquaredNorm() < bound * bound
  {
    var s := v.SquaredNorm();
    var r := sqrt(s);
    assert r >= 0.0 && r * r == s;
    if r < bound {
      Plot.MulPos(bound - r, bound + r, (bound - r) * (bound + r));
      assert (bound - r) * (bound + r) == bound * bound - r * r;
    } else {
      MulNonneg(r - bound, r + bound);
      assert (r - bound) * (r + bound) == r * r - bound * bound;
    }
  }

  /** The trace stops for a gradient shorter than 0.01, that is, whose squared norm is below 0.0001. */
  lemma WeakGradient(v: Vector2, sqrt: real -> real)
    requires IsSquareRoot(sqrt)
    ensures v.Length(sqrt) < 0.01 <==> v.SquaredNorm() < 0.0001
  {
    LengthBelow(v, sqrt, 0.01);
  }

  /** A number that a positive factor leaves unchanged is one. */
  lemma CancelPositive(t: real, u: real)
    requires u > 0.0 && t * u == u
    ensures t == 1.0
  {
    if t > 1.0 {
      Plot.MulPos(t - 1.0, u, (t - 1.0) * u);
    } else if t < 1.0 {
      Plot.MulPos(1.0 - t, u, (1.0 - t) * u);
    }
  }

  /** A vector at least 0.001 long normalises to a unit vector. */
  lemma NormalizeUnit(v: Vector2, sqrt: real -> real)
    requires IsSquareRoot(sqrt) && v.Length(sqrt) >= 0.001
    ensures v.Normalize(sqrt).SquaredNorm() == 1.0
  {
    var len := v.Length(sqrt);
    var s := v.SquaredNorm();
    assert len >= 0.0 && len * len == s;
    var a := v.x / len;
    var b := v.y / len;
    assert a * len == v.x && b * len == v.y;
    var ll := len * len;
    Plot.MulPos(len, len, ll);
    calc {
      (a * a + b * b) * ll;
    ==
      (a * len) * (a * len) + (b * len) * (b * len);
    ==
      ll;
    }
    CancelPositive(a * a + b * b, ll);
    assert v.Normalize(sqrt) == Vector2(a, b);
  }

  /**
   * The direction a trace follows: the gradient itself, or the gradient turned
   * a quarter turn, which runs along the contour and is orthogonal to the
   * gradient. Either way it is as long as the gradient.
   */
  function Direction(g: Vector2, followGradient: bool): (d: Vector2)
    ensures followGradient ==> d == g
    ensures !followGradient ==> d.x * g.x + d.y * g.y == 0.0
    ensures d.SquaredNorm() == g.SquaredNorm()
  {
    if followGradient then g else Vector2(-g.y, g.x)
  }

  // ---------------------------------------------------------------------------
  // The gradient field

  /** C#'s conversion of a float to an int, which truncates toward zero. */
  function Trunc(v: real): (i: int)
    ensures 0.0 <= v ==> 0 <= i && i as real <= v < i as real + 1.0
    ensures v < 0.0 ==> i <= 0 && i as real - 1.0 < v <= i as real
  {
    if v >= 0.0 then v.Floor else -((-v).Floor)
  }

  /** Pixels with a neighbour on every side. */
  predicate Interior(img: Raster, x: int, y: int) {
    1 <= x < img.width - 1 && 1 <= y < img.height - 1
  }

  /** The Sobel operator on the darkness around (x, y): column weights -1, -2, -1 / 1, 2, 1 for x, row weights for y. */
  function Sobel(img: Raster, x: int, y: int): Vector2
    requires img.Valid()
  {
    var gx :=
      -1.0 * GetDarknessAt(img, x - 1, y - 1) +
      -2.0 * GetDarknessAt(img, x - 1, y) +
      -1.0 * GetDarknessAt(img, x - 1, y + 1) +
       1.0 * GetDarknessAt(img, x + 1, y - 1) +
       2.0 * GetDarknessAt(img, x + 1, y) +
       1.0 * GetDarknessAt(img, x + 1, y + 1);
    var gy :=
      -1.0 * GetDarknessAt(img, x - 1, y - 1) +
      -2.0 * GetDarknessAt(img, x, y - 1) +
      -1.0 * GetDarknessAt(img, x + 1, y - 1) +
       1.0 * GetDarknessAt(img, x - 1, y + 1) +
       2.0 * GetDarknessAt(img, x, y + 1) +
       1.0 * GetDarknessAt(img, x + 1, y + 1);
    Vector2(gx, gy)
  }

  /** The gradient field: the Sobel sums inside, the zero vector on the border. */
  function Field(img: Raster, x: int, y: int): Vector2
    requires img.Valid()
  {
    if Interior(img, x, y) then Sobel(img, x, y) else Zero
  }

  /** A neighbourhood of uniform darkness has no gradient. */
  lemma SobelUniform(img: Raster, x: int, y: int, d: real)
    requires img.Valid()
    requires forall i, j :: x - 1 <= i <= x + 1 && y - 1 <= j <= y + 1 ==> GetDarknessAt(img, i, j) == d
    ensures Sobel(img, x, y) == Zero
  {
    assert GetDarknessAt(img, x - 1, y - 1) == d && GetDarknessAt(img, x - 1, y) == d && GetDarknessAt(img, x - 1, y + 1) == d;
    assert GetDarknessAt(img, x, y - 1) == d && GetDarknessAt(img, x, y + 1) == d;
    assert GetDarknessAt(img, x + 1, y - 1) == d && GetDarknessAt(img, x + 1, y) == d && GetDarknessAt(img, x + 1, y + 1) == d;
  }

  /** Darkness lies in [0, 1], so each Sobel component lies in [-4, 4]. */
  lemma SobelBounded(img: Raster, x: int, y: int)
    requires img.Valid()
    ensures -4.0 <= Sobel(img, x, y).x <= 4.0 && -4.0 <= Sobel(img, x, y).y <= 4.0
  {
    var _ := GetDarknessAt(img, x - 1, y - 1);
    var _ := GetDarknessAt(img, x - 1, y);
    var _ := GetDarknessAt(img, x - 1, y + 1);
    var _ := GetDarknessAt(img, x, y - 1);
    var _ := GetDarknessAt(img, x, y + 1);
    var _ := GetDarknessAt(img, x + 1, y - 1);
    var _ := GetDarknessAt(img, x + 1, y);
    var _ := GetDarknessAt(img, x + 1, y + 1);
  }

  /**
   * Everything a trace depends on: the canvas size, the gradient field and the
   * darkness it reads, the threshold and length limit from the settings, and
   * the renderer's step options.
   */
  datatype Flow = Flow(width: int, height: int, field: (int, int) -> Vector2, darkness: (real, real) -> real,
                       threshold: real, maxLength: real, stepSize: real, followGradient: bool, sqrt: real -> real) {
    /** The positions a trace may step to: from the top left corner up to, not including, the last column and row. */
    predicate OnField(q: Point) {
      0.0 <= q.x < (width - 1) as real && 0.0 <= q.y < (height - 1) as real
    }
  }

  /** The field and darkness of an image, with the settings and options the renderer reads. */
  function ImageFlow(img: Raster, settings: LineRenderSettings, stepSize: real, followGradient: bool, sqrt: real -> real): Flow
    requires img.Valid()
  {
    Flow(img.width, img.height, (i, j) => Field(img, i, j), (x, y) => GetDarknessAtFloat(img, x, y),
         settings.darknessThreshold, settings.maxLineLength, stepSize, followGradient, sqrt)
  }

  /**
   * The gradient the trace reads at a fractional position: the entry of the
   * pixel the position truncates to, or the zero vector when that pixel is in
   * the last column or row or outside the field.
   */
  function GradientAt(f: Flow, x: real, y: real): Vector2 {
    var ix := Trunc(x);
    var iy := Trunc(y);
    if ix < 0 || ix >= f.width - 1 || iy < 0 || iy >= f.height - 1 then Zero else f.field(ix, iy)
  }

  /** For an image, the gradient read at a position is the Sobel sum of the pixel it truncates to when that pixel is interior, and zero otherwise. */
  lemma GradientAtInterior(img: Raster, settings: LineRenderSettings, stepSize: real, followGradient: bool, sqrt: real -> real,
                           x: real, y: real)
    requires img.Valid()
    ensures var g := GradientAt(ImageFlow(img, settings, stepSize, followGradient, sqrt), x, y);
      && (Interior(img, Trunc(x), Trunc(y)) ==> g == Sobel(img, Trunc(x), Trunc(y)))
      && (!Interior(img, Trunc(x), Trunc(y)) ==> g == Zero)
  {
  }

  /** The point one step of the step size from `p` along the normalised direction. */
  function Candidate(f: Flow, p: Point): Point {
    Advance(p, Direction(GradientAt(f, p.x, p.y), f.followGradient).Normalize(f.sqrt), f.stepSize)
  }

  /** The point `s` times `d` away from `p`. */
  function Advance(p: Point, d: Vector2, s: real): Point {
    Point(p.x + d.x * s, p.y + d.y * s)
  }

  /**
   * Where one step of a trace from `p` leads, or `None` where the trace stops
   * short of the length limit: the gradient is weaker than 0.01, or the next
   * point is off the field or lighter than the threshold.
   */
  function StepFrom(f: Flow, p: Point): (r: Option<Point>)
    ensures r.Some? ==> f.OnField(r.value) && f.darkness(r.value.x, r.value.y) >= f.threshold
    ensures r.Some? ==> GradientAt(f, p.x, p.y).Length(f.sqrt) >= 0.01
  {
    if GradientAt(f, p.x, p.y).Length(f.sqrt) < 0.01 then None
    else
      var q := Candidate(f, p);
      if q.x < 0.0 || q.x >= (f.width - 1) as real || q.y < 0.0 || q.y >= (f.height - 1) as real then None
      else if f.darkness(q.x, q.y) < f.threshold then None
      else Some(q)
  }

  /** How one step ends, in terms of the gradient read at `p` and the candidate point `q`. */
  lemma StepOutcome(f: Flow, p: Point, g: Vector2, q: Point)
    requires g == GradientAt(f, p.x, p.y)
    requires g.Length(f.sqrt) >= 0.01 ==> q == Advance(p, Direction(g, f.followGradient).Normalize(f.sqrt), f.stepSize)
    ensures StepFrom(f, p) == if g.Length(f.sqrt) < 0.01 || !f.OnField(q) || f.darkness(q.x, q.y) < f.threshold then None else Some(q)
  {
  }

  /** Where the gradient is weaker than the threshold of 0.01, squared, the trace stops. */
  lemma WeakGradientStops(f: Flow, p: Point)
    requires IsSquareRoot(f.sqrt) && GradientAt(f, p.x, p.y).SquaredNorm() < 0.0001
    ensures StepFrom(f, p) == None
  {
    WeakGradient(GradientAt(f, p.x, p.y), f.sqrt);
  }

  /** A step of a unit vector times `s` is |s| long. */
  lemma UnitStepLength(p: Point, q: Point, d: Vector2, s: real, sqrt: real -> real)
    requires IsSquareRoot(sqrt) && d.SquaredNorm() == 1.0 && q == Advance(p, d, s)
    ensures Length(PlotLine(p, q), sqrt) == Abs(s)
  {
    assert q.x - p.x == d.x * s && q.y - p.y == d.y * s;
    var sq := SquaredLength(PlotLine(p, q));
    assert sq == (d.x * s) * (d.x * s) + (d.y * s) * (d.y * s);
    assert sq == (d.x * d.x + d.y * d.y) * (s * s);
    var r := sqrt(sq);
    assert r >= 0.0 && r * r == sq;
    assert Abs(s) * Abs(s) == s * s;
    RootUnique(r, Abs(s));
  }

  /** Every step is exactly as long as the step size. */
  lemma StepLength(f: Flow, p: Point, q: Point)
    requires IsSquareRoot(f.sqrt) && StepFrom(f, p) == Some(q)
    ensures Length(PlotLine(p, q), f.sqrt) == Abs(f.stepSize)
  {
    var g := GradientAt(f, p.x, p.y);
    var dir := Direction(g, f.followGradient);
    var d := dir.Normalize(f.sqrt);
    assert dir.Length(f.sqrt) == g.Length(f.sqrt);
    NormalizeUnit(dir, f.sqrt);
    UnitStepLength(p, q, d, f.stepSize, f.sqrt);
  }

  /**
   * A step runs along the contour when the renderer does not follow the
   * gradient (it is orthogonal to the gradient), and parallel to the gradient
   * when it does.
   */
  lemma StepDirection(f: Flow, p: Point, q: Point)
    requires StepFrom(f, p) == Some(q)
    ensures Aligned(p, q, GradientAt(f, p.x, p.y), f.followGradient)
  {
    StepIsCandidate(f, p, q);
    AdvanceDirection(p, q, GradientAt(f, p.x, p.y), f.followGradient, f.sqrt, f.stepSize);
  }

  /** A step that is taken leads to the candidate point, from a gradient at least 0.01 long. */
  lemma StepIsCandidate(f: Flow, p: Point, q: Point)
    requires StepFrom(f, p) == Some(q)
    ensures q == Advance(p, Direction(GradientAt(f, p.x, p.y), f.followGradient).Normalize(f.sqrt), f.stepSize)
    ensures GradientAt(f, p.x, p.y).Length(f.sqrt) >= 0.01
  {
    assert q == Candidate(f, p);
  }

  /**
   * The move from `p` to `q` is orthogonal to the gradient `g` (along its
   * contour) when not following the gradient, and parallel to it when following.
   */
  ghost predicate Aligned(p: Point, q: Point, g: Vector2, followGradient: bool) {
    && (!followGradient ==> (q.x - p.x) * g.x + (q.y - p.y) * g.y == 0.0)
    && (followGradient ==> (q.x - p.x) * g.y == (q.y - p.y) * g.x)
  }

  /** A step along the normalised direction of a gradient at least 0.001 long is parallel, or orthogonal, to the gradient. */
  lemma AdvanceDirection(p: Point, q: Point, g: Vector2, followGradient: bool, sqrt: real -> real, s: real)
    requires g.Length(sqrt) >= 0.001 && q == Advance(p, Direction(g, followGradient).Normalize(sqrt), s)
    ensures Aligned(p, q, g, followGradient)
  {
    var dir := Direction(g, followGradient);
    var len := dir.Length(sqrt);
    assert len == g.Length(sqrt);
    var k := s / len;
    assert q.x - p.x == dir.x / len * s && q.y - p.y == dir.y / len * s;
    assert dir.x / len * s == dir.x * k && dir.y / len * s == dir.y * k;
  }

  // ---------------------------------------------------------------------------
  // Walks: the shape of a trace, whatever rule picks each step

  /** Steps of length `u` still to go from running length `total` before it reaches `limit`. */
  function Remaining(u: real, limit: real, total: real): nat
    requires u > 0.0
  {
    if total < limit then
      var r := (limit - total) / u;
      assert r > 0.0;
      r.Floor + 1
    else
      0
  }

  /** A step of length `u` uses up one of the remaining steps. */
  lemma RemainingDecreases(u: real, limit: real, total: real)
    requires u > 0.0 && total < limit
    ensures Remaining(u, limit, total + u) < Remaining(u, limit, total)
  {
    var r := (limit - total) / u;
    var r1 := (limit - (total + u)) / u;
    assert r1 == r - u / u;
    assert u / u == 1.0;
    assert r1 == r - 1.0;
    assert r1.Floor == r.Floor - 1;
  }

  /**
   * The segments of a walk from `p` that goes where `next` leads, each step `u`
   * long, for as long as the running length, `total` so far, is below `limit`
   * and `next` leads somewhere.
   */
  function Walk(next: Point -> Option<Point>, u: real, limit: real, p: Point, total: real): seq<PlotLine>
    requires u > 0.0
    decreases Remaining(u, limit, total)
  {
    if total >= limit then []
    else
      match next(p)
      case None => []
      case Some(q) =>
        RemainingDecreases(u, limit, total);
        [PlotLine(p, q)] + Walk(next, u, limit, q, total + u)
  }

  /** Where a walk from `p` has got to: the end of its last segment, or `p` itself. */
  function Last(p: Point, tr: seq<PlotLine>): Point {
    if tr == [] then p else tr[|tr| - 1].end
  }

  /**
   * A walk, step by step: the first segment starts at `p`, every other one
   * where the one before ends, and each ends where `next` leads from its
   * start; the running length before the last segment was still below the
   * limit; and the walk ends where the running length reaches the limit or
   * `next` leads nowhere.
   */
  ghost predicate IsWalk(next: Point -> Option<Point>, u: real, limit: real, p: Point, total: real, tr: seq<PlotLine>) {
    && (|tr| > 0 ==> tr[0].start == p)
    && (forall i, j {:trigger tr[i], tr[j]} :: 0 <= i && j == i + 1 && j < |tr| ==> tr[j].start == tr[i].end)
    && (forall k :: 0 <= k < |tr| ==> next(tr[k].start) == Some(tr[k].end))
    && (|tr| > 0 ==> total + (|tr| - 1) as real * u < limit)
    && (total + |tr| as real * u >= limit || next(Last(p, tr)) == None)
  }

  /** A walk satisfies the step-by-step account. */
  lemma {:induction false} WalkSteps(next: Point -> Option<Point>, u: real, limit: real, p: Point, total: real)
    requires u > 0.0
    ensures IsWalk(next, u, limit, p, total, Walk(next, u, limit, p, total))
    decreases Remaining(u, limit, total)
  {
    if total < limit && next(p).Some? {
      var q := next(p).value;
      WalkStep(next, u, limit, p, q, total);
      WalkSteps(next, u, limit, q, total + u);
      IsWalkCons(next, u, limit, p, q, total, Walk(next, u, limit, q, total + u));
    }
  }

  /** A first step from `p` to `q`, taken below the limit, followed by a walk from `q`, is a walk from `p`. */
  lemma IsWalkCons(next: Point -> Option<Point>, u: real, limit: real, p: Point, q: Point, total: real, rest: seq<PlotLine>)
    requires u > 0.0 && total < limit && next(p) == Some(q) && IsWalk(next, u, limit, q, total + u, rest)
    ensures IsWalk(next, u, limit, p, total, [PlotLine(p, q)] + rest)
  {
    var tr := [PlotLine(p, q)] + rest;
    forall i, j | 0 <= i && j == i + 1 && j < |tr|
      ensures tr[j].start == tr[i].end
    {
      if i > 0 {
        assert tr[i] == rest[i - 1] && tr[j] == rest[j - 1];
      }
    }
    forall k | 0 <= k < |tr|
      ensures next(tr[k].start) == Some(tr[k].end)
    {
      if k > 0 {
        assert tr[k] == rest[k - 1];
      }
    }
    assert Last(p, tr) == Last(q, rest);
    assert |tr| as real * u == |rest| as real * u + u;
    if |rest| > 0 {
      assert (|tr| - 1) as real * u == (|rest| - 1) as real * u + u;
    }
  }

  /** The step-by-step account determines the walk: no other sequence of segments satisfies it. */
  lemma {:induction false} WalkUnique(next: Point -> Option<Point>, u: real, limit: real, p: Point, total: real, tr: seq<PlotLine>)
    requires u > 0.0 && IsWalk(next, u, limit, p, total, tr)
    ensures tr == Walk(next, u, limit, p, total)
    decreases |tr|
  {
    if |tr| > 0 {
      var q := tr[0].end;
      assert next(p) == Some(q);
      assert total < limit by {
        MulNonneg((|tr| - 1) as real, u);
      }
      var rest := tr[1..];
      assert IsWalk(next, u, limit, q, total + u, rest) by {
        if |rest| > 0 {
          assert rest[0] == tr[1];
          assert (|tr| - 1) as real * u == (|rest| - 1) as real * u + u;
        }
        forall i, j | 0 <= i && j == i + 1 && j < |rest|
          ensures rest[j].start == rest[i].end
        {
          assert rest[i] == tr[i + 1] && rest[j] == tr[j + 1];
        }
        forall k | 0 <= k < |rest|
          ensures next(rest[k].start) == Some(rest[k].end)
        {
          assert rest[k] == tr[k + 1];
        }
        assert Last(q, rest) == Last(p, tr);
        assert |tr| as real * u == |rest| as real * u + u;
      }
      WalkUnique(next, u, limit, q, total + u, rest);
      assert tr == [tr[0]] + rest;
    }
  }

  /** A walk from `p`, while the running length is below the limit, begins with the step `next` takes. */
  lemma WalkStep(next: Point -> Option<Point>, u: real, limit: real, p: Point, q: Point, total: real)
    requires u > 0.0 && total < limit && next(p) == Some(q)
    ensures Remaining(u, limit, total + u) < Remaining(u, limit, total)
    ensures Walk(next, u, limit, p, total) == [PlotLine(p, q)] + Walk(next, u, limit, q, total + u)
  {
    RemainingDecreases(u, limit, total);
  }

  /** A walk from a point where `next` leads nowhere is empty. */
  lemma WalkStop(next: Point -> Option<Point>, u: real, limit: real, p: Point, total: real)
    requires u > 0.0 && next(p) == None
    ensures Walk(next, u, limit, p, total) == []
  {
  }

  // ---------------------------------------------------------------------------
  // Traces

  /** The stepping rule of a flow. */
  function Next(f: Flow): Point -> Option<Point> {
    p => StepFrom(f, p)
  }

  /**
   * The segments of a trace from `p`, with `total` length drawn so far, in the
   * order the renderer adds them. The running length grows by the step size
   * at every step, which `StepLength` shows is the length the renderer measures.
   */
  function Trace(f: Flow, p: Point, total: real): seq<PlotLine>
    requires f.stepSize != 0.0
  {
    Walk(Next(f), Abs(f.stepSize), f.maxLength, p, total)
  }

  /** Every point a trace reaches lies on the field and is at least as dark as the threshold. */
  lemma TraceStaysDark(f: Flow, p: Point, total: real)
    requires f.stepSize != 0.0
    ensures var tr := Trace(f, p, total);
      forall k :: 0 <= k < |tr| ==> f.OnField(tr[k].end) && f.darkness(tr[k].end.x, tr[k].end.y) >= f.threshold
  {
    var tr := Trace(f, p, total);
    WalkSteps(Next(f), Abs(f.stepSize), f.maxLength, p, total);
    forall k | 0 <= k < |tr|
      ensures f.OnField(tr[k].end) && f.darkness(tr[k].end.x, tr[k].end.y) >= f.threshold
    {
      assert Next(f)(tr[k].start) == StepFrom(f, tr[k].start);
    }
  }

  /** The seed grid: rows and columns of seed positions. */
  datatype Seeds = Seeds(ys: seq<real>, xs: seq<real>)

  /**
   * The parts of the drawing above a single trace: the trace of one seed, if
   * the seed is dark; the seeds of a row, left to right, up to column `n`;
   * and the first `n` rows.
   */
  datatype Part =
    | Seed(p: Point)
    | Row(y: real, n: nat)
    | Grid(n: nat)
  {
    predicate Valid(seeds: Seeds) {
      match this
      case Seed(_) => true
      case Row(_, n) => n <= |seeds.xs|
      case Grid(n) => n <= |seeds.ys|
    }

    function Level(): nat {
      match this
      case Seed(_) => 0
      case Row(_, _) => 1
      case Grid(_) => 2
    }
  }

  /**
   * The lines of a part, in the order the renderer draws them, where every
   * trace takes the steps `next` leads to. The renderer's own stepping rule
   * is `Next(f)`; the loops that draw the parts are proved for any rule.
   */
  function Lines(f: Flow, next: Point -> Option<Point>, seeds: Seeds, part: Part): seq<PlotLine>
    requires f.stepSize != 0.0 && part.Valid(seeds)
    decreases part.Level(), match part case Seed(_) => 0 case Row(_, n) => n case Grid(n) => n
  {
    match part
    case Seed(p) =>
      if f.darkness(p.x, p.y) >= f.threshold then Walk(next, Abs(f.stepSize), f.maxLength, p, 0.0) else []
    case Row(y, n) =>
      if n == 0 then [] else Lines(f, next, seeds, Row(y, n - 1)) + Lines(f, next, seeds, Seed(Point(seeds.xs[n - 1], y)))
    case Grid(n) =>
      if n == 0 then [] else Lines(f, next, seeds, Grid(n - 1)) + Lines(f, next, seeds, Row(seeds.ys[n - 1], |seeds.xs|))
  }

  /** Tracing from the seed at `x`, the next one of the row, extends the row's lines by one seed. */
  lemma RowStep(f: Flow, next: Point -> Option<Point>, seeds: Seeds, y: real, start: real, step: real, limit: real,
                n: nat, x: real, lines: seq<PlotLine>, before: seq<PlotLine>, out: seq<PlotLine>)
    requires f.stepSize != 0.0 && Spaced(seeds.xs, start, step, limit)
    requires x < limit && Counting(seeds.xs, n, x, x < limit)
    requires before == lines + Lines(f, next, seeds, Row(y, n))
    requires out == before + Lines(f, next, seeds, Seed(Point(x, y)))
    ensures Counting(seeds.xs, n + 1, x + step, x + step < limit)
    ensures out == lines + Lines(f, next, seeds, Row(y, n + 1))
  {
    CountSpaced(seeds.xs, start, step, limit, n, x);
    AppendAssoc(lines, Lines(f, next, seeds, Row(y, n)), Lines(f, next, seeds, Seed(Point(x, y))),
                before, out, Lines(f, next, seeds, Row(y, n + 1)));
  }

  /** Tracing the row at `y`, the next one of the grid, extends the grid's lines by one row. */
  lemma GridStep(f: Flow, next: Point -> Option<Point>, seeds: Seeds, start: real, step: real, limit: real,
                 n: nat, y: real, lines: seq<PlotLine>, before: seq<PlotLine>, out: seq<PlotLine>)
    requires f.stepSize != 0.0 && Spaced(seeds.ys, start, step, limit)
    requires y < limit && Counting(seeds.ys, n, y, y < limit)
    requires before == lines + Lines(f, next, seeds, Grid(n))
    requires out == before + Lines(f, next, seeds, Row(y, |seeds.xs|))
    ensures Counting(seeds.ys, n + 1, y + step, y + step < limit)
    ensures out == lines + Lines(f, next, seeds, Grid(n + 1))
  {
    CountSpaced(seeds.ys, start, step, limit, n, y);
    AppendAssoc(lines, Lines(f, next, seeds, Grid(n)), Lines(f, next, seeds, Row(y, |seeds.xs|)),
                before, out, Lines(f, next, seeds, Grid(n + 1)));
  }

  /** `l` is a segment of the walk by `next` from seed `p`, which is dark enough to start one. */
  ghost predicate Traced(f: Flow, next: Point -> Option<Point>, p: Point, l: PlotLine)
    requires f.stepSize != 0.0
  {
    f.darkness(p.x, p.y) >= f.threshold && l in Walk(next, Abs(f.stepSize), f.maxLength, p, 0.0)
  }

  /** A line of a row belongs to the walk from one of the row's dark seeds, and every such line is in the row. */
  lemma {:induction false} RowLines(f: Flow, next: Point -> Option<Point>, seeds: Seeds, y: real, n: nat, l: PlotLine)
    requires f.stepSize != 0.0 && n <= |seeds.xs|
    ensures l in Lines(f, next, seeds, Row(y, n)) <==> exists j :: 0 <= j < n && Traced(f, next, Point(seeds.xs[j], y), l)
  {
    if n > 0 {
      RowLines(f, next, seeds, y, n - 1, l);
      if Traced(f, next, Point(seeds.xs[n - 1], y), l) {
        assert l in Lines(f, next, seeds, Seed(Point(seeds.xs[n - 1], y)));
      }
    }
  }

  /** A line of the grid belongs to the walk from one of its dark seeds, and every such line is in the grid. */
  lemma {:induction false} GridLines(f: Flow, next: Point -> Option<Point>, seeds: Seeds, n: nat, l: PlotLine)
    requires f.stepSize != 0.0 && n <= |seeds.ys|
    ensures l in Lines(f, next, seeds, Grid(n)) <==>
      exists i, j :: 0 <= i < n && 0 <= j < |seeds.xs| && Traced(f, next, Point(seeds.xs[j], seeds.ys[i]), l)
  {
    if n > 0 {
      GridLines(f, next, seeds, n - 1, l);
      RowLines(f, next, seeds, seeds.ys[n - 1], |seeds.xs|, l);
      if exists j :: 0 <= j < |seeds.xs| && Traced(f, next, Point(seeds.xs[j], seeds.ys[n - 1]), l) {
        var j :| 0 <= j < |seeds.xs| && Traced(f, next, Point(seeds.xs[j], seeds.ys[n - 1]), l);
        assert 0 <= n - 1 < n && Traced(f, next, Point(seeds.xs[j], seeds.ys[n - 1]), l);
      }
    }
  }

  /** Seeds two line spacings apart, half a spacing in from the top left corner. */
  function SeedGrid(img: Raster, settings: LineRenderSettings): (seeds: Seeds)
    requires settings.lineSpacing > 0.0
    ensures forall k :: 0 <= k < |seeds.xs| ==> 0.0 < seeds.xs[k] < img.width as real
    ensures forall k :: 0 <= k < |seeds.ys| ==> 0.0 < seeds.ys[k] < img.height as real
    ensures Spaced(seeds.xs, settings.lineSpacing, settings.lineSpacing * 2.0, img.width as real)
    ensures Spaced(seeds.ys, settings.lineSpacing, settings.lineSpacing * 2.0, img.height as real)
  {
    var g := settings.lineSpacing * 2.0;
    ProgressionValues(g / 2.0, g, img.width as real);
    ProgressionValues(g / 2.0, g, img.height as real);
    Seeds(Progression(g / 2.0, g, img.height as real), Progression(g / 2.0, g, img.width as real))
  }

  /** Everything the renderer draws. */
  function FlowFieldLines(img: Raster, settings: LineRenderSettings, stepSize: real, followGradient: bool, sqrt: real -> real): seq<PlotLine>
    requires img.Valid() && settings.lineSpacing > 0.0 && stepSize != 0.0
  {
    var seeds := SeedGrid(img, settings);
    var f := ImageFlow(img, settings, stepSize, followGradient, sqrt);
    Lines(f, Next(f), seeds, Grid(|seeds.ys|))
  }

  /**
   * Every line drawn is a segment of the trace from a dark seed of the grid,
   * and every segment of such a trace is drawn (a trace is the walk by the
   * flow's stepping rule `Next`).
   */
  lemma DrawnLineIsTraced(img: Raster, settings: LineRenderSettings, stepSize: real, followGradient: bool, sqrt: real -> real, l: PlotLine)
    requires img.Valid() && settings.lineSpacing > 0.0 && stepSize != 0.0
    ensures var seeds := SeedGrid(img, settings);
      l in FlowFieldLines(img, settings, stepSize, followGradient, sqrt) <==>
      exists i, j :: 0 <= i < |seeds.ys| && 0 <= j < |seeds.xs| &&
        var f := ImageFlow(img, settings, stepSize, followGradient, sqrt);
        Traced(f, Next(f), Point(seeds.xs[j], seeds.ys[i]), l)
  {
    var seeds := SeedGrid(img, settings);
    var f := ImageFlow(img, settings, stepSize, followGradient, sqrt);
    GridLines(f, Next(f), seeds, |seeds.ys|, l);
  }

  /** An image lighter everywhere than a positive threshold gets no lines. */
  lemma LightImageNoFlowLines(img: Raster, settings: LineRenderSettings, stepSize: real, followGradient: bool, sqrt: real -> real)
    requires img.Valid() && settings.lineSpacing > 0.0 && stepSize != 0.0
    requires settings.darknessThreshold > 0.0 && AllBelow(img, settings.darknessThreshold)
    ensures FlowFieldLines(img, settings, stepSize, followGradient, sqrt) == []
  {
    var f := ImageFlow(img, settings, stepSize, followGradient, sqrt);
    var seeds := SeedGrid(img, settings);
    var lines := FlowFieldLines(img, settings, stepSize, followGradient, sqrt);
    if lines != [] {
      DrawnLineIsTraced(img, settings, stepSize, followGradient, sqrt, lines[0]);
      assert false;
    }
  }

  // ---------------------------------------------------------------------------
  // The renderer

  /** The gradient array holds the field of `img`. */
  ghost predicate FieldOf(gradients: array2<Vector2>, img: Raster)
    requires img.Valid()
    reads gradients
  {
    && gradients.Length0 == img.width && gradients.Length1 == img.height
    && forall i, j :: 0 <= i < img.width && 0 <= j < img.height ==> gradients[i, j] == Field(img, i, j)
  }

  /**
   * What the renderer's loops rely on about the flow they trace: it has the
   * canvas of `img`, the field that `gradients` holds, the darkness of `img`,
   * and the settings and options the loops read.
   */
  ghost predicate Describes(f: Flow, img: Raster, gradients: array2<Vector2>, settings: LineRenderSettings,
                            stepSize: real, followGradient: bool, sqrt: real -> real)
    requires img.Valid()
    reads gradients
  {
    && f.width == img.width && f.height == img.height
    && f.threshold == settings.darknessThreshold && f.maxLength == settings.maxLineLength
    && f.stepSize == stepSize && f.followGradient == followGradient && f.sqrt == sqrt
    && gradients.Length0 == img.width && gradients.Length1 == img.height
    && (forall i, j :: 0 <= i < img.width && 0 <= j < img.height ==> gradients[i, j] == f.field(i, j))
    && (forall x, y {:trigger GetDarknessAtFloat(img, x, y)} :: f.darkness(x, y) == GetDarknessAtFloat(img, x, y))
  }

  /** The flow of an image is described by an array holding the image's field. */
  lemma ImageDescribed(img: Raster, gradients: array2<Vector2>, settings: LineRenderSettings,
                       stepSize: real, followGradient: bool, sqrt: real -> real)
    requires img.Valid() && FieldOf(gradients, img)
    ensures Describes(ImageFlow(img, settings, stepSize, followGradient, sqrt), img, gradients, settings, stepSize, followGradient, sqrt)
  {
  }

  /** The first `y` rows of the array, and row `y` up to column `x`, hold the field; the rest holds the zero vector. */
  ghost predicate FilledUpTo(gradients: array2<Vector2>, img: Raster, y: int, x: int)
    requires img.Valid()
    reads gradients
  {
    && gradients.Length0 == img.width && gradients.Length1 == img.height
    && forall i, j :: 0 <= i < img.width && 0 <= j < img.height ==>
         gradients[i, j] == (if j < y || (j == y && i < x) then Field(img, i, j) else Zero)
  }

  class FlowFieldRenderer {
    var stepSize: real
    var followGradient: bool

    constructor()
      ensures stepSize == 1.0 && !followGradient
    {
      stepSize := 1.0;
      followGradient := false;
    }

    /**
     * What the tracing methods rely on: a usable image and square root, a
     * step that moves, the flow `f` described by the image, its gradient
     * array and this renderer's options, and `next` its stepping rule.
     */
    ghost predicate Tracing(img: Raster, gradients: array2<Vector2>, settings: LineRenderSettings, sqrt: real -> real,
                            f: Flow, next: Point -> Option<Point>)
      reads this, gradients
    {
      && img.Valid() && IsSquareRoot(sqrt) && stepSize != 0.0
      && Describes(f, img, gradients, settings, stepSize, followGradient, sqrt)
      && forall p {:trigger StepFrom(f, p)} :: next(p) == StepFrom(f, p)
    }

    /** Traces from every dark seed of the grid, row by row, and collects their segments. */
    method GenerateLines(img: Raster, settings: LineRenderSettings, sqrt: real -> real) returns (lines: seq<PlotLine>)
      requires img.Valid() && settings.lineSpacing > 0.0 && stepSize != 0.0 && IsSquareRoot(sqrt)
      ensures lines == FlowFieldLines(img, settings, stepSize, followGradient, sqrt)
    {
      lines := [];
      var gradients := CalculateGradientField(img);
      var gridSpacing := settings.lineSpacing * 2.0;
      ghost var f := ImageFlow(img, settings, stepSize, followGradient, sqrt);
      ImageDescribed(img, gradients, settings, stepSize, followGradient, sqrt);
      lines := TraceGrid(img, gradients, gridSpacing, settings, sqrt, f, Next(f), SeedGrid(img, settings), lines);
    }

    /**
     * The traces from the dark seeds of the grid, row by row, appended to
     * `lines`. The ghost `f` names the image's field and darkness with this
     * renderer's options, `next` its stepping rule, and `seeds` the grid.
     */
    method TraceGrid(img: Raster, gradients: array2<Vector2>, gridSpacing: real, settings: LineRenderSettings,
                     sqrt: real -> real, ghost f: Flow, ghost next: Point -> Option<Point>, ghost seeds: Seeds, lines: seq<PlotLine>)
      returns (out: seq<PlotLine>)
      requires Tracing(img, gradients, settings, sqrt, f, next)
      requires gridSpacing > 0.0 && Spaced(seeds.ys, gridSpacing / 2.0, gridSpacing, img.height as real)
      requires Spaced(seeds.xs, gridSpacing / 2.0, gridSpacing, img.width as real)
      ensures out == lines + Lines(f, next, seeds, Grid(|seeds.ys|))
    {
      ghost var ny := 0;
      out := lines;
      var y := gridSpacing / 2.0;
      CountSpacedStarts(seeds.ys, gridSpacing / 2.0, gridSpacing, img.height as real);
      while y < img.height as real
        invariant Counting(seeds.ys, ny, y, y < img.height as real)
        invariant out == lines + Lines(f, next, seeds, Grid(ny))
        decreases |seeds.ys| - ny
      {
        ghost var before := out;
        out := TraceRow(img, gradients, y, gridSpacing, settings, sqrt, f, next, seeds, out);
        GridStep(f, next, seeds, gridSpacing / 2.0, gridSpacing, img.height as real, ny, y, lines, before, out);
        ny := ny + 1;
        y := y + gridSpacing;
      }
    }

    /**
     * The traces from the dark seeds of the row at height `y`, left to right,
     * appended to `lines`. The ghost `f` names the image's field and darkness
     * with this renderer's options, `next` its stepping rule, and `seeds` the
     * grid the caller walks through.
     */
    method TraceRow(img: Raster, gradients: array2<Vector2>, y: real, gridSpacing: real, settings: LineRenderSettings,
                    sqrt: real -> real, ghost f: Flow, ghost next: Point -> Option<Point>, ghost seeds: Seeds, lines: seq<PlotLine>)
      returns (out: seq<PlotLine>)
      requires Tracing(img, gradients, settings, sqrt, f, next)
      requires gridSpacing > 0.0 && Spaced(seeds.xs, gridSpacing / 2.0, gridSpacing, img.width as real)
      ensures out == lines + Lines(f, next, seeds, Row(y, |seeds.xs|))
    {
      ghost var nx := 0;
      out := lines;
      var x := gridSpacing / 2.0;
      CountSpacedStarts(seeds.xs, gridSpacing / 2.0, gridSpacing, img.width as real);
      while x < img.width as real
        invariant Counting(seeds.xs, nx, x, x < img.width as real)
        invariant out == lines + Lines(f, next, seeds, Row(y, nx))
        decreases |seeds.xs| - nx
      {
        ghost var before := out;
        out := TraceSeed(img, gradients, x, y, settings, sqrt, f, next, seeds, out);
        RowStep(f, next, seeds, y, gridSpacing / 2.0, gridSpacing, img.width as real, nx, x, lines, before, out);
        nx := nx + 1;
        x := x + gridSpacing;
      }
    }

    /** The trace from the seed (x, y), appended to `lines` when the seed is dark enough to start one. */
    method TraceSeed(img: Raster, gradients: array2<Vector2>, x: real, y: real, settings: LineRenderSettings,
                     sqrt: real -> real, ghost f: Flow, ghost next: Point -> Option<Point>, ghost seeds: Seeds, lines: seq<PlotLine>)
      returns (out: seq<PlotLine>)
      requires Tracing(img, gradients, settings, sqrt, f, next)
      ensures out == lines + Lines(f, next, seeds, Seed(Point(x, y)))
    {
      var darkness := GetDarknessAtFloat(img, x, y);
      out := lines;
      if darkness >= settings.darknessThreshold {
        out := TraceFlowLine(img, gradients, x, y, settings, sqrt, f, next, out);
      }
    }

    /**
     * The trace from (startX, startY), appended to `lines`. The ghost `f`
     * names the image's field and darkness with this renderer's options.
     */
    method TraceFlowLine(img: Raster, gradients: array2<Vector2>, startX: real, startY: real, settings: LineRenderSettings,
                         sqrt: real -> real, ghost f: Flow, ghost next: Point -> Option<Point>, lines: seq<PlotLine>)
      returns (out: seq<PlotLine>)
      requires Tracing(img, gradients, settings, sqrt, f, next)
      ensures out == lines + Walk(next, Abs(stepSize), settings.maxLineLength, Point(startX, startY), 0.0)
    {
      var x := startX;
      var y := startY;
      var maxLength := settings.maxLineLength;
      var totalLength := 0.0;
      var prevPoint := Point(x, y);
      out := lines;
      while totalLength < maxLength
        invariant prevPoint == Point(x, y)
        invariant out + Walk(next, Abs(stepSize), maxLength, prevPoint, totalLength)
               == lines + Walk(next, Abs(stepSize), maxLength, Point(startX, startY), 0.0)
        decreases Remaining(Abs(stepSize), maxLength, totalLength)
      {
        var step := NextPoint(img, gradients, x, y, settings, sqrt, f);
        if step.None? {
          WalkStop(next, Abs(stepSize), maxLength, prevPoint, totalLength);
          break;
        }
        var newPoint := step.value;
        var newX := newPoint.x;
        var newY := newPoint.y;
        ghost var before := out;
        out := out + [PlotLine(prevPoint, newPoint)];
        var segmentLength := Length(PlotLine(prevPoint, newPoint), sqrt);
        StepLength(f, prevPoint, newPoint);
        WalkStep(next, Abs(stepSize), maxLength, prevPoint, newPoint, totalLength);
        AppendShift(before, [PlotLine(prevPoint, newPoint)], Walk(next, Abs(stepSize), maxLength, newPoint, totalLength + segmentLength),
                    Walk(next, Abs(stepSize), maxLength, prevPoint, totalLength),
                    lines + Walk(next, Abs(stepSize), maxLength, Point(startX, startY), 0.0), out);
        totalLength := totalLength + segmentLength;
        x := newX;
        y := newY;
        prevPoint := newPoint;
      }
    }

    /** One step of the trace from (x, y): the next point, or `None` where the trace stops. */
    method NextPoint(img: Raster, gradients: array2<Vector2>, x: real, y: real, settings: LineRenderSettings,
                     sqrt: real -> real, ghost f: Flow) returns (step: Option<Point>)
      requires img.Valid()
      requires Describes(f, img, gradients, settings, stepSize, followGradient, sqrt)
      ensures step == StepFrom(f, Point(x, y))
    {
      var gradient := GetGradientAt(gradients, x, y, img.width, img.height);
      GradientLookup(gradients, f, x, y);
      if gradient.Length(sqrt) < 0.01 {
        StepOutcome(f, Point(x, y), gradient, Point(x, y));
        return None;
      }
      var direction := Direction(gradient, followGradient);
      direction := direction.Normalize(sqrt);
      var q := Advance(Point(x, y), direction, stepSize);
      var newX := q.x;
      var newY := q.y;
      StepOutcome(f, Point(x, y), gradient, Point(newX, newY));
      if newX < 0.0 || newX >= (img.width - 1) as real || newY < 0.0 || newY >= (img.height - 1) as real {
        return None;
      }
      var darkness := GetDarknessAtFloat(img, newX, newY);
      if darkness < settings.darknessThreshold {
        return None;
      }
      return Some(Point(newX, newY));
    }

    /** A fresh array holding the Sobel gradient at every interior pixel and the zero vector on the border. */
    static method CalculateGradientField(img: Raster) returns (gradients: array2<Vector2>)
      requires img.Valid()
      ensures fresh(gradients) && FieldOf(gradients, img)
    {
      gradients := new Vector2[img.width, img.height]((i, j) => Zero);
      var y := 1;
      while y < img.height - 1
        invariant 1 <= y && (img.height >= 2 ==> y <= img.height - 1)
        invariant FilledUpTo(gradients, img, y, 0)
      {
        var x := 1;
        while x < img.width - 1
          invariant 1 <= x && (img.width >= 2 ==> x <= img.width - 1)
          invariant FilledUpTo(gradients, img, y, x)
        {
          gradients[x, y] := Sobel(img, x, y);
          x := x + 1;
        }
        y := y + 1;
      }
    }

    /** The entry of the pixel a position truncates to, or the zero vector outside the interior columns and rows. */
    static function GetGradientAt(gradients: array2<Vector2>, x: real, y: real, width: int, height: int): Vector2
      requires width <= gradients.Length0 && height <= gradients.Length1
      reads gradients
    {
      var ix := Trunc(x);
      var iy := Trunc(y);
      if ix < 0 || ix >= width - 1 || iy < 0 || iy >= height - 1 then Zero else gradients[ix, iy]
    }

    /** Looking up an array that holds the field of a flow reads the flow's gradient. */
    static lemma GradientLookup(gradients: array2<Vector2>, f: Flow, x: real, y: real)
      requires f.width <= gradients.Length0 && f.height <= gradients.Length1
      requires forall i, j :: 0 <= i < f.width && 0 <= j < f.height ==> gradients[i, j] == f.field(i, j)
      ensures GetGradientAt(gradients, x, y, f.width, f.height) == GradientAt(f, x, y)
    {
    }
  }
}
