/**
 * Pixel sampling shared by every line renderer: perceived brightness and
 * darkness of a colour, bounds-safe lookup in a row-major pixel buffer,
 * bilinear darkness sampling at fractional coordinates, and clamping.
 */
module LineRenderHelper {

  /** An 8-bit colour channel. */
  type byte = b: int | 0 <= b < 256

  datatype ArgbColor = ArgbColor(a: byte, r: byte, g: byte, b: byte)

  /** Opaque white, the colour of every pixel outside the buffer. */
  const White: ArgbColor := ArgbColor(255, 255, 255, 255)

  /** Opaque black. */
  const Black: ArgbColor := ArgbColor(255, 0, 0, 0)

  /**
   * A row-major pixel buffer together with its size. The buffer is read-only
   * for the whole of a render call.
   */
  datatype Raster = Raster(data: seq<ArgbColor>, width: int, height: int) {

    predicate Valid() {
      0 <= width && 0 <= height && |data| == width * height
    }

    predicate InBounds(x: int, y: int) {
      0 <= x < width && 0 <= y < height
    }
  }

  /** Perceived brightness: the weighted luma of the colour, 0 for black and 1 for white. */
  function GetBrightness(color: ArgbColor): (r: real)
    ensures 0.0 <= r <= 1.0
  {
    (0.299 * color.r as real + 0.587 * color.g as real + 0.114 * color.b as real) / 255.0
  }

  /** Darkness: 0 for white and 1 for black. */
  function GetDarkness(color: ArgbColor): (r: real)
    ensures 0.0 <= r <= 1.0
  {
    1.0 - GetBrightness(color)
  }

  /** Darkness is zero exactly for colours whose three colour channels are saturated. */
  lemma DarknessZeroIffWhite(color: ArgbColor)
    ensures GetDarkness(color) == 0.0 <==> color.r == 255 && color.g == 255 && color.b == 255
  {
  }

  /** Darkness is one exactly for colours whose three colour channels are zero. */
  lemma DarknessOneIffBlack(color: ArgbColor)
    ensures GetDarkness(color) == 1.0 <==> color.r == 0 && color.g == 0 && color.b == 0
  {
  }

  /** The buffer address of an in-bounds pixel lies in the buffer and decodes back to the pixel. */
  lemma PixelAddress(img: Raster, x: int, y: int)
    requires img.Valid() && img.InBounds(x, y)
    ensures 0 <= y * img.width + x < |img.data|
    ensures (y * img.width + x) / img.width == y && (y * img.width + x) % img.width == x
  {
    var w := img.width;
    assert y * w + x < (y + 1) * w;
    assert (y + 1) * w <= img.height * w by {
      assert y + 1 <= img.height;
    }
    assert 0 <= y * w;
    DivModUnique(y * w + x, w, y, x);
  }

  /** Euclidean division has a unique quotient and remainder. */
  lemma DivModUnique(n: int, w: int, q: int, r: int)
    requires 0 < w && 0 <= r < w && n == q * w + r
    ensures n / w == q && n % w == r
  {
    var q', r' := n / w, n % w;
    assert n == q' * w + r' && 0 <= r' < w;
    assert (q - q') * w == r' - r;
    if q > q' {
      AtLeastOnce(q - q', w);
    } else if q < q' {
      AtLeastOnce(q' - q, w);
    }
  }

  lemma AtLeastOnce(k: int, w: int)
    requires k >= 1 && w > 0
    ensures k * w >= w
  {
    assert k * w == (k - 1) * w + w;
    MulNonnegInt(k - 1, w);
  }

  lemma MulNonnegInt(a: int, b: int)
    requires a >= 0 && b >= 0
    ensures a * b >= 0
  {
  }

  lemma MulNonneg(a: real, b: real)
    requires a >= 0.0 && b >= 0.0
    ensures a * b >= 0.0
  {
  }

  lemma MulPos(a: real, b: real)
    requires a > 0.0 && b > 0.0
    ensures a * b > 0.0
  {
  }

  /** Two distinct in-bounds pixels never share a buffer address. */
  lemma PixelAddressInjective(img: Raster, x1: int, y1: int, x2: int, y2: int)
    requires img.Valid() && img.InBounds(x1, y1) && img.InBounds(x2, y2)
    requires y1 * img.width + x1 == y2 * img.width + x2
    ensures x1 == x2 && y1 == y2
  {
    PixelAddress(img, x1, y1);
    PixelAddress(img, x2, y2);
  }

  /** The pixel at (x, y), or opaque white outside the buffer. */
  function GetPixelSafe(img: Raster, x: int, y: int): (c: ArgbColor)
    requires img.Valid()
    ensures !img.InBounds(x, y) ==> c == White
  {
    if x < 0 || x >= img.width || y < 0 || y >= img.height then
      White
    else
      PixelAddress(img, x, y);
      img.data[y * img.width + x]
  }

  /** Darkness of the pixel at (x, y); pixels outside the buffer count as white. */
  function GetDarknessAt(img: Raster, x: int, y: int): (d: real)
    requires img.Valid()
    ensures 0.0 <= d <= 1.0
    ensures !img.InBounds(x, y) ==> d == 0.0
  {
    GetDarkness(GetPixelSafe(img, x, y))
  }

  /** Linear interpolation from `a` (weight 0) to `b` (weight 1). */
  function Lerp(a: real, b: real, t: real): real {
    a * (1.0 - t) + b * t
  }

  /** Weight zero gives the first value. */
  lemma LerpAtZero(a: real, b: real)
    ensures Lerp(a, b, 0.0) == a
  {
  }

  /** The distance from a bound to an interpolated value, as the weighted distances of the two ends. */
  lemma LerpDistance(a: real, b: real, t: real, bound: real)
    ensures bound - Lerp(a, b, t) == (bound - a) * (1.0 - t) + (bound - b) * t
    ensures Lerp(a, b, t) - bound == (a - bound) * (1.0 - t) + (b - bound) * t
  {
  }

  /** Interpolating between two values with a weight in [0, 1] stays between them. */
  lemma LerpBetween(a: real, b: real, t: real, lo: real, hi: real)
    requires 0.0 <= t <= 1.0
    requires lo <= a <= hi && lo <= b <= hi
    ensures lo <= Lerp(a, b, t) <= hi
  {
    LerpDistance(a, b, t, lo);
    LerpDistance(a, b, t, hi);
    MulNonneg(a - lo, 1.0 - t);
    MulNonneg(b - lo, t);
    MulNonneg(hi - a, 1.0 - t);
    MulNonneg(hi - b, t);
  }

  /** Interpolating between two values below a bound stays below it. */
  lemma LerpBelow(a: real, b: real, t: real, bound: real)
    requires 0.0 <= t <= 1.0
    requires a < bound && b < bound
    ensures Lerp(a, b, t) < bound
  {
    LerpDistance(a, b, t, bound);
    if t < 1.0 {
      WeightedSumPos(bound - a, 1.0 - t, bound - b, t);
    } else {
      WeightedSumPos(bound - b, t, bound - a, 1.0 - t);
    }
  }

  /** A sum of two non-negative products, one of them of two positive factors, is positive. */
  lemma WeightedSumPos(x: real, u: real, y: real, v: real)
    requires x > 0.0 && u > 0.0 && y >= 0.0 && v >= 0.0
    ensures x * u + y * v > 0.0 && y * v + x * u > 0.0
  {
    MulPos(x, u);
    MulNonneg(y, v);
  }

  /**
   * Darkness at a fractional coordinate, by bilinear interpolation between the
   * four pixels around it. The result lies between the least and the greatest
   * of the four.
   */
  function GetDarknessAtFloat(img: Raster, x: real, y: real): (d: real)
    requires img.Valid()
    ensures 0.0 <= d <= 1.0
    ensures MinOf4(GetDarknessAt(img, x.Floor, y.Floor), GetDarknessAt(img, x.Floor + 1, y.Floor),
                   GetDarknessAt(img, x.Floor, y.Floor + 1), GetDarknessAt(img, x.Floor + 1, y.Floor + 1))
            <= d <=
            MaxOf4(GetDarknessAt(img, x.Floor, y.Floor), GetDarknessAt(img, x.Floor + 1, y.Floor),
                   GetDarknessAt(img, x.Floor, y.Floor + 1), GetDarknessAt(img, x.Floor + 1, y.Floor + 1))
  {
    var x0 := x.Floor;
    var y0 := y.Floor;
    var x1 := x0 + 1;
    var y1 := y0 + 1;
    var fx := x - x0 as real;
    var fy := y - y0 as real;
    var d00 := GetDarknessAt(img, x0, y0);
    var d10 := GetDarknessAt(img, x1, y0);
    var d01 := GetDarknessAt(img, x0, y1);
    var d11 := GetDarknessAt(img, x1, y1);
    var lo := MinOf4(d00, d10, d01, d11);
    var hi := MaxOf4(d00, d10, d01, d11);
    var d0 := Lerp(d00, d10, fx);
    var d1 := Lerp(d01, d11, fx);
    LerpBetween(d00, d10, fx, lo, hi);
    LerpBetween(d01, d11, fx, lo, hi);
    LerpBetween(d0, d1, fy, lo, hi);
    Lerp(d0, d1, fy)
  }

  function MinOf4(a: real, b: real, c: real, d: real): real {
    var ab := if a <= b then a else b;
    var cd := if c <= d then c else d;
    if ab <= cd then ab else cd
  }

  function MaxOf4(a: real, b: real, c: real, d: real): real {
    var ab := if a >= b then a else b;
    var cd := if c >= d then c else d;
    if ab >= cd then ab else cd
  }

  /** On the pixel grid, interpolation reduces to exact sampling. */
  lemma DarknessAtFloatOnGrid(img: Raster, x: int, y: int)
    requires img.Valid()
    ensures GetDarknessAtFloat(img, x as real, y as real) == GetDarknessAt(img, x, y)
  {
    var d00 := GetDarknessAt(img, x, y);
    var d10 := GetDarknessAt(img, x + 1, y);
    var d01 := GetDarknessAt(img, x, y + 1);
    var d11 := GetDarknessAt(img, x + 1, y + 1);
    assert (x as real).Floor == x && (y as real).Floor == y;
    LerpAtZero(d00, d10);
    LerpAtZero(Lerp(d00, d10, 0.0), Lerp(d01, d11, 0.0));
  }

  /** Every pixel of the buffer is below the threshold. */
  ghost predicate AllBelow(img: Raster, threshold: real)
    requires img.Valid()
  {
    forall x, y :: img.InBounds(x, y) ==> GetDarknessAt(img, x, y) < threshold
  }

  /** Every pixel of the buffer is at or above the threshold. */
  ghost predicate AllAtLeast(img: Raster, threshold: real)
    requires img.Valid()
  {
    forall x, y :: img.InBounds(x, y) ==> GetDarknessAt(img, x, y) >= threshold
  }

  /**
   * When every pixel is below a positive threshold, so is the darkness at
   * every fractional coordinate: the pixels outside the buffer are white.
   */
  lemma DarknessAtFloatBelow(img: Raster, threshold: real, x: real, y: real)
    requires img.Valid() && threshold > 0.0 && AllBelow(img, threshold)
    ensures GetDarknessAtFloat(img, x, y) < threshold
  {
    var x0 := x.Floor;
    var y0 := y.Floor;
    var fx := x - x0 as real;
    var fy := y - y0 as real;
    var d00 := GetDarknessAt(img, x0, y0);
    var d10 := GetDarknessAt(img, x0 + 1, y0);
    var d01 := GetDarknessAt(img, x0, y0 + 1);
    var d11 := GetDarknessAt(img, x0 + 1, y0 + 1);
    assert d00 < threshold && d10 < threshold && d01 < threshold && d11 < threshold;
    var d0 := Lerp(d00, d10, fx);
    var d1 := Lerp(d01, d11, fx);
    LerpBelow(d00, d10, fx, threshold);
    LerpBelow(d01, d11, fx, threshold);
    LerpBelow(d0, d1, fy, threshold);
  }

  /** A white buffer is below every positive threshold. */
  lemma WhiteIsBelow(img: Raster, threshold: real)
    requires img.Valid() && threshold > 0.0
    requires forall i :: 0 <= i < |img.data| ==> img.data[i] == White
    ensures AllBelow(img, threshold)
  {
    forall x, y | img.InBounds(x, y)
      ensures GetDarknessAt(img, x, y) < threshold
    {
      PixelAddress(img, x, y);
    }
  }

  /** A black buffer is at or above every threshold up to 1. */
  lemma BlackIsAtLeast(img: Raster, threshold: real)
    requires img.Valid() && threshold <= 1.0
    requires forall i :: 0 <= i < |img.data| ==> img.data[i] == Black
    ensures AllAtLeast(img, threshold)
  {
    forall x, y | img.InBounds(x, y)
      ensures GetDarknessAt(img, x, y) >= threshold
    {
      PixelAddress(img, x, y);
    }
  }

  /** Clamp a value into [min, max]. */
  function Clamp(value: real, min: real, max: real): (r: real)
    ensures min <= max ==> min <= r <= max
    ensures min <= value <= max ==> r == value
    ensures r == value || r == min || r == max
  {
    if value < min then min
    else if value > max then max
    else value
  }

  /** Clamp an integer into [min, max]. */
  function ClampInt(value: int, min: int, max: int): (r: int)
    ensures min <= max ==> min <= r <= max
    ensures min <= value <= max ==> r == value
    ensures r == value || r == min || r == max
  {
    if value < min then min
    else if value > max then max
    else value
  }
}
