/** The output primitive of every renderer: a straight segment for the pen. */
module Plot {

  datatype Point = Point(x: real, y: real)

  datatype PlotLine = PlotLine(start: Point, end: Point)

  /** The coordinate constructor: the same segment as the one built from two points. */
  function FromCoords(x1: real, y1: real, x2: real, y2: real): (l: PlotLine)
    ensures l.start == Point(x1, y1) && l.end == Point(x2, y2)
  {
    PlotLine(Point(x1, y1), Point(x2, y2))
  }

  /**
   * The square-root routine of the platform's maths library. The model takes
   * it as a parameter; lemmas that need its meaning require this predicate.
   */
  ghost predicate IsSquareRoot(sqrt: real -> real) {
    forall v :: 0.0 <= v ==> 0.0 <= sqrt(v) && sqrt(v) * sqrt(v) == v
  }

  /** dx*dx + dy*dy, the argument of the square root in Length. */
  function SquaredLength(l: PlotLine): (r: real)
    ensures r >= 0.0
  {
    var dx := l.end.x - l.start.x;
    var dy := l.end.y - l.start.y;
    SquareNonneg(dx);
    SquareNonneg(dy);
    dx * dx + dy * dy
  }

  /** Only a degenerate segment has squared length zero. */
  lemma SquaredLengthZero(l: PlotLine)
    ensures l.start == l.end ==> SquaredLength(l) == 0.0
    ensures l.start != l.end ==> SquaredLength(l) > 0.0
  {
    var dx := l.end.x - l.start.x;
    var dy := l.end.y - l.start.y;
    if l.start != l.end {
      SumOfSquaresPos(dx, dy, SquaredLength(l));
    }
  }

  lemma SquareNonneg(a: real)
    ensures a * a >= 0.0
  {
  }

  /** A product of two positive numbers, named s, is positive. */
  lemma MulPos(a: real, b: real, s: real)
    requires a > 0.0 && b > 0.0 && s == a * b
    ensures s > 0.0
  {
  }

  /** The square of a non-zero number, named s, is positive. */
  lemma SquarePos(a: real, s: real)
    requires a != 0.0 && s == a * a
    ensures s > 0.0
  {
    if a > 0.0 {
      MulPos(a, a, s);
    } else {
      assert s == (-a) * (-a);
      MulPos(-a, -a, s);
    }
  }

  /** a*a + b*b is positive unless both are zero. */
  lemma SumOfSquaresPos(a: real, b: real, s: real)
    requires a != 0.0 || b != 0.0
    requires s == a * a + b * b
    ensures s > 0.0
  {
    var p := a * a;
    var q := b * b;
    SquareNonneg(a);
    SquareNonneg(b);
    if a != 0.0 {
      SquarePos(a, p);
    } else {
      SquarePos(b, q);
    }
  }

  /** Euclidean length of the segment. */
  function Length(l: PlotLine, sqrt: real -> real): real {
    sqrt(SquaredLength(l))
  }

  /** Two non-negative numbers with equal squares are equal. */
  lemma RootUnique(r: real, a: real)
    requires r >= 0.0 && a >= 0.0 && r * r == a * a
    ensures r == a
  {
    var z := (r - a) * (r + a);
    assert z == 0.0;
    if r > a {
      MulPos(r - a, r + a, z);
    } else if r < a {
      assert z == (a - r) * (-(r + a));
      assert (a - r) * (r + a) == -z;
      MulPos(a - r, r + a, -z);
    }
  }

  lemma LengthNonNegative(l: PlotLine, sqrt: real -> real)
    requires IsSquareRoot(sqrt)
    ensures Length(l, sqrt) >= 0.0
  {
    var _ := SquaredLength(l);
  }

  /** A degenerate segment, and only a degenerate segment, has length zero. */
  lemma LengthZeroIffDegenerate(l: PlotLine, sqrt: real -> real)
    requires IsSquareRoot(sqrt)
    ensures l.start == l.end ==> Length(l, sqrt) == 0.0
    ensures l.start != l.end ==> Length(l, sqrt) > 0.0
  {
    var s := SquaredLength(l);
    var r := sqrt(s);
    assert r >= 0.0 && r * r == s;
    SquaredLengthZero(l);
    if l.start == l.end {
      if r != 0.0 {
        SquarePos(r, s);
      }
    } else {
      assert r != 0.0;
    }
  }

  /** Reversing a segment keeps its length. */
  lemma LengthSymmetric(l: PlotLine, sqrt: real -> real)
    ensures Length(PlotLine(l.end, l.start), sqrt) == Length(l, sqrt)
  {
    var dx := l.end.x - l.start.x;
    var dy := l.end.y - l.start.y;
    assert (-dx) * (-dx) == dx * dx;
    assert (-dy) * (-dy) == dy * dy;
    assert SquaredLength(PlotLine(l.end, l.start)) == SquaredLength(l);
  }

  /** A horizontal segment is as long as its x-extent. */
  lemma HorizontalLength(l: PlotLine, sqrt: real -> real)
    requires IsSquareRoot(sqrt) && l.start.y == l.end.y
    ensures Length(l, sqrt) == Abs(l.end.x - l.start.x)
  {
    var dx := l.end.x - l.start.x;
    var r := sqrt(SquaredLength(l));
    assert SquaredLength(l) == dx * dx;
    assert Abs(dx) * Abs(dx) == dx * dx;
    RootUnique(r, Abs(dx));
  }

  /** A vertical segment is as long as its y-extent. */
  lemma VerticalLength(l: PlotLine, sqrt: real -> real)
    requires IsSquareRoot(sqrt) && l.start.x == l.end.x
    ensures Length(l, sqrt) == Abs(l.end.y - l.start.y)
  {
    var dy := l.end.y - l.start.y;
    var r := sqrt(SquaredLength(l));
    assert SquaredLength(l) == dy * dy;
    assert Abs(dy) * Abs(dy) == dy * dy;
    RootUnique(r, Abs(dy));
  }

  function Abs(v: real): real {
    if v < 0.0 then -v else v
  }

  /** The 3-4-5 triangle: (0,0) -> (3,4) has length 5. */
  lemma LengthExample(sqrt: real -> real)
    requires IsSquareRoot(sqrt)
    ensures Length(FromCoords(0.0, 0.0, 3.0, 4.0), sqrt) == 5.0
  {
    var r := sqrt(25.0);
    assert SquaredLength(FromCoords(0.0, 0.0, 3.0, 4.0)) == 25.0;
    RootUnique(r, 5.0);
  }
}
