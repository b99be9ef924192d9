/** Integer helpers shared by the pipeline (utils.py): the column mean of a
    list of points and the reduction of a resolution to its aspect ratio. */
module Utils {
  import opened Wrappers

  /** A pixel coordinate (`PointCoords`, a 2-tuple of ints). */
  datatype Point = Point(x: int, y: int)

  /** An image buffer (`Frame`, a numpy array); the model never looks at its pixels. */
  datatype Frame = Frame(width: nat, height: nat, pixels: seq<int>)

  datatype Axis = X | Y

  function Coord(p: Point, a: Axis): int {
    match a
    case X => p.x
    case Y => p.y
  }

  /** `sum(column)` of one coordinate over the list. */
  function ColumnSum(pts: seq<Point>, a: Axis): int {
    if pts == [] then 0 else ColumnSum(pts[..|pts| - 1], a) + Coord(pts[|pts| - 1], a)
  }

  /** Every point of `pts` has its `a` coordinate within `lo..hi`. */
  predicate ColumnWithin(pts: seq<Point>, a: Axis, lo: int, hi: int) {
    forall i :: 0 <= i < |pts| ==> lo <= Coord(pts[i], a) <= hi
  }

  /** `meanByColumn`: per coordinate, the column sum floor-divided (`//`) by
      the number of points. `zip(*[])` is empty, so the empty list yields the
      empty tuple; that case is `None` here. */
  function MeanByColumn(pts: seq<Point>): (r: Option<Point>)
    ensures r.None? <==> pts == []
    ensures r.Some? ==> forall a: Axis ::
      |pts| * Coord(r.value, a) <= ColumnSum(pts, a) < |pts| * (Coord(r.value, a) + 1)
  {
    if pts == [] then None
    else
      var n := |pts|;
      var m := Point(ColumnSum(pts, X) / n, ColumnSum(pts, Y) / n);
      assert forall a: Axis :: Coord(m, a) == ColumnSum(pts, a) / n;
      Some(m)
  }

  lemma {:induction false} ColumnSumBounds(pts: seq<Point>, a: Axis, lo: int, hi: int)
    requires ColumnWithin(pts, a, lo, hi)
    ensures |pts| * lo <= ColumnSum(pts, a) <= |pts| * hi
  {
    if pts != [] {
      var init := pts[..|pts| - 1];
      assert ColumnWithin(init, a, lo, hi) by {
        forall i | 0 <= i < |init| ensures lo <= Coord(init[i], a) <= hi {
          assert init[i] == pts[i];
        }
      }
      ColumnSumBounds(init, a, lo, hi);
      var last := Coord(pts[|pts| - 1], a);
      assert lo <= last <= hi;
      assert ColumnSum(pts, a) == ColumnSum(init, a) + last;
      assert |pts| * lo == |init| * lo + lo && |pts| * hi == |init| * hi + hi;
    }
  }

  /** Each output coordinate of `meanByColumn` lies between the column minimum
      and maximum of the input. */
  lemma MeanWithinColumnBounds(pts: seq<Point>, a: Axis, lo: int, hi: int)
    requires pts != []
    requires ColumnWithin(pts, a, lo, hi)
    ensures MeanByColumn(pts).Some?
    ensures lo <= Coord(MeanByColumn(pts).value, a) <= hi
  {
    ColumnSumBounds(pts, a, lo, hi);
    var n := |pts|;
    var c := Coord(MeanByColumn(pts).value, a);
    MulStrict(n, lo, c + 1);
    MulStrict(n, c, hi + 1);
  }

  lemma MulMonotone(n: nat, a: int, b: int)
    requires a <= b
    ensures n * a <= n * b
  {
  }

  lemma MulStrict(n: nat, a: int, b: int)
    requires n * a < n * b
    ensures a < b
  {
    if a >= b {
      MulMonotone(n, b, a);
    }
  }

  /** The mean of a non-empty list of identical points is that point. */
  lemma MeanOfConstant(pts: seq<Point>, p: Point)
    requires pts != []
    requires forall i :: 0 <= i < |pts| ==> pts[i] == p
    ensures MeanByColumn(pts) == Some(p)
  {
    forall a: Axis ensures Coord(MeanByColumn(pts).value, a) == Coord(p, a) {
      MeanWithinColumnBounds(pts, a, Coord(p, a), Coord(p, a));
    }
    var m := MeanByColumn(pts).value;
    assert Coord(m, X) == p.x && Coord(m, Y) == p.y;
  }

  // ---------------------------------------------------------------------------
  // Aspect ratio

  /** `math.gcd` on non-negative arguments (Euclid's algorithm). */
  function Gcd(a: nat, b: nat): nat
    decreases b
  {
    if b == 0 then a else Gcd(b, a % b)
  }

  /** `d` is a positive divisor of `n`. */
  predicate Divides(d: nat, n: nat) {
    d > 0 && n % d == 0
  }

  lemma {:induction false} GcdIsZero(a: nat, b: nat)
    ensures Gcd(a, b) == 0 <==> a == 0 && b == 0
    decreases b
  {
    if b != 0 {
      GcdIsZero(b, a % b);
    }
  }

  lemma MulDivides(d: nat, m: nat)
    requires d > 0
    ensures (d * m) % d == 0 && (d * m) / d == m
  {
    DivUnique(d * m, d, m, 0);
  }

  /** Division is determined by its defining equation. */
  lemma DivUnique(n: int, d: int, q: int, r: int)
    requires d > 0 && 0 <= r < d && n == q * d + r
    ensures n / d == q && n % d == r
  {
    var q', r' := n / d, n % d;
    assert n == q' * d + r';
    if q' < q {
      assert (q - q') * d == r' - r;
      MulMonotone(d, 1, q - q');
    } else if q' > q {
      assert (q' - q) * d == r - r';
      MulMonotone(d, 1, q' - q);
    }
  }

  /** A common divisor of `x` and `y` divides `k * x + y`. */
  lemma DividesCombination(d: nat, x: nat, y: nat, k: nat)
    requires Divides(d, x) && Divides(d, y)
    ensures Divides(d, k * x + y)
  {
    var p, q := x / d, y / d;
    assert x == d * p && y == d * q;
    assert k * x + y == d * (k * p + q);
    MulDivides(d, k * p + q);
  }

  /** A common divisor of `b` and `k * b + r` divides `r`. */
  lemma DividesRemainder(d: nat, b: nat, r: nat, k: nat)
    requires Divides(d, b) && Divides(d, k * b + r)
    ensures Divides(d, r)
  {
    var p, q := b / d, (k * b + r) / d;
    assert b == d * p && k * b + r == d * q;
    assert r == d * (q - k * p);
    assert q - k * p >= 0 by {
      if q - k * p < 0 { MulMonotone(d, q - k * p, -1); }
    }
    MulDivides(d, q - k * p);
  }

  /** `Gcd(a, b)` divides both arguments. */
  lemma {:induction false} GcdDivides(a: nat, b: nat)
    requires a != 0 || b != 0
    ensures Divides(Gcd(a, b), a) && Divides(Gcd(a, b), b)
    decreases b
  {
    if b == 0 {
      MulDivides(a, 1);
    } else {
      GcdDivides(b, a % b);
      DividesCombination(Gcd(a, b), b, a % b, a / b);
      assert a == (a / b) * b + a % b;
    }
  }

  /** Every common divisor of `a` and `b` divides `Gcd(a, b)`. */
  lemma {:induction false} GcdGreatest(a: nat, b: nat, d: nat)
    requires Divides(d, a) && Divides(d, b)
    ensures Gcd(a, b) % d == 0
    decreases b
  {
    if b != 0 {
      assert a == (a / b) * b + a % b;
      DividesRemainder(d, b, a % b, a / b);
      GcdGreatest(b, a % b, d);
    }
  }

  predicate Coprime(a: nat, b: nat) {
    Gcd(a, b) == 1
  }

  /** `get_aspect_ratio_from_resolution`: both sides divided by their gcd;
      `math.gcd(0, 0)` is 0 and the division raises. */
  function AspectRatio(width: nat, height: nat): (r: Result<(nat, nat)>)
    ensures r.Fail? <==> width == 0 && height == 0
    ensures r.Fail? ==> r.error == ZeroDivisionError
    ensures r.Ok? ==> width * r.value.1 == height * r.value.0
    ensures r.Ok? ==> Coprime(r.value.0, r.value.1)
  {
    var g := Gcd(width, height);
    GcdIsZero(width, height);
    if g == 0 then Fail(ZeroDivisionError)
    else
      var rw, rh := width / g, height / g;
      ReducedByGcd(width, height);
      Ok((rw, rh))
  }

  /** The facts behind `AspectRatio`: dividing by the gcd keeps the
      proportion and leaves no common factor. */
  lemma ReducedByGcd(w: nat, h: nat)
    requires w != 0 || h != 0
    ensures Gcd(w, h) > 0
    ensures w * (h / Gcd(w, h)) == h * (w / Gcd(w, h))
    ensures Coprime(w / Gcd(w, h), h / Gcd(w, h))
  {
    GcdIsZero(w, h);
    GcdDivides(w, h);
    var g := Gcd(w, h);
    DivExact(w, g);
    DivExact(h, g);
    var rw, rh := w / g, h / g;
    CrossProducts(g, rw, rh);
    assert rw != 0 || rh != 0;
    ReducedHasNoCommonFactor(w, h, g, rw, rh);
  }

  lemma DivExact(n: nat, d: nat)
    requires Divides(d, n)
    ensures n == d * (n / d)
  {
  }

  lemma CrossProducts(g: int, a: int, b: int)
    ensures (g * a) * b == (g * b) * a
  {
  }

  lemma ReducedHasNoCommonFactor(w: nat, h: nat, g: nat, rw: nat, rh: nat)
    requires g == Gcd(w, h) && g > 0
    requires w == g * rw && h == g * rh
    requires rw != 0 || rh != 0
    ensures Gcd(rw, rh) == 1
  {
    GcdIsZero(rw, rh);
    GcdDivides(rw, rh);
    var g' := Gcd(rw, rh);
    CommonFactorDivides(g, g', rw, w);
    CommonFactorDivides(g, g', rh, h);
    GcdGreatest(w, h, g * g');
    NoLargerDivisor(g, g');
  }

  /** A divisor `g'` of `r` scales to the divisor `g * g'` of `n == g * r`. */
  lemma CommonFactorDivides(g: nat, g': nat, r: nat, n: nat)
    requires g > 0 && Divides(g', r) && n == g * r
    ensures Divides(g * g', n)
  {
    DivExact(r, g');
    ScaledDivides(g, g', r / g', n);
  }

  lemma ScaledDivides(g: nat, g': nat, p: nat, n: nat)
    requires g > 0 && g' > 0 && n == g * (g' * p)
    ensures Divides(g * g', n)
  {
    assert n == (g * g') * p;
    MulDivides(g * g', p);
  }

  /** If `g * g'` divides `g > 0` then `g' == 1`. */
  lemma NoLargerDivisor(g: nat, g': nat)
    requires g > 0 && g' > 0 && g % (g * g') == 0
    ensures g' == 1
  {
    var d := g * g';
    var k := g / d;
    assert g == d * k;
    if g' > 1 {
      MulMonotone(g, 2, g');
      MulMonotone(d, 1, k);
    }
  }

  /** Reducing an already reduced ratio changes nothing. */
  lemma AspectRatioIdempotent(width: nat, height: nat)
    requires AspectRatio(width, height).Ok?
    ensures AspectRatio(AspectRatio(width, height).value.0, AspectRatio(width, height).value.1)
            == AspectRatio(width, height)
  {
    var (rw, rh) := AspectRatio(width, height).value;
    assert Gcd(rw, rh) == 1;
    MulDivides(1, rw);
    MulDivides(1, rh);
  }

  /** Integer division is unchanged by a common positive factor. */
  lemma DivCancel(a: nat, b: nat, g: nat)
    requires b > 0 && g > 0
    ensures (a * g) / (b * g) == a / b
  {
    var q, r := a / b, a % b;
    assert a * g == q * (b * g) + r * g by {
      assert a == q * b + r;
    }
    assert r * g < b * g by { MulMonotone(g, r + 1, b); }
    DivUnique(a * g, b * g, q, r * g);
  }

  /** Scaling a width by a reduced aspect ratio gives the same integer height
      as scaling by the unreduced resolution. */
  lemma ScaleByAspectRatio(width: nat, height: nat, target: nat)
    requires width > 0
    ensures AspectRatio(width, height).Ok?
    ensures AspectRatio(width, height).value.0 > 0
    ensures target * AspectRatio(width, height).value.1 / AspectRatio(width, height).value.0
            == target * height / width
  {
    GcdIsZero(width, height);
    GcdDivides(width, height);
    var g := Gcd(width, height);
    var (rw, rh) := AspectRatio(width, height).value;
    assert width == rw * g && height == rh * g;
    assert rw > 0;
    DivCancel(target * rh, rw, g);
    assert target * height == (target * rh) * g;
  }
}
