/** Three-vector arithmetic shared by every part of the simulator, and the
    elementary functions (`Math.sqrt`, `Math.sin`, `Math.cos`) that the
    physics code calls. The elementary functions are not defined here: every
    operation that needs them receives a `MathLib` value, and a property that
    depends on `sqrt` being the square root assumes `SqrtLaw` about it. */
module Vectors {

  datatype Vec3 = Vec3(x: real, y: real, z: real)

  const Zero: Vec3 := Vec3(0 as real, 0 as real, 0 as real)

  /** `Math.PI` as the double it is. */
  const PI: real := 3.141592653589793

  /** The elementary functions the source takes from `Math`. */
  datatype MathLib = MathLib(sqrt: real -> real, sin: real -> real, cos: real -> real)

  /** The only fact about `sqrt` any proof here needs: on non-negative
      arguments it returns the non-negative square root. */
  ghost predicate SqrtLaw(math: MathLib) {
    forall q :: 0 as real <= q ==> 0 as real <= math.sqrt(q) && math.sqrt(q) * math.sqrt(q) == q
  }

  function Add(a: Vec3, b: Vec3): Vec3 {
    Vec3(a.x + b.x, a.y + b.y, a.z + b.z)
  }

  function Sub(a: Vec3, b: Vec3): Vec3 {
    Vec3(a.x - b.x, a.y - b.y, a.z - b.z)
  }

  function Scale(a: Vec3, k: real): Vec3 {
    Vec3(a.x * k, a.y * k, a.z * k)
  }

  function Dot(a: Vec3, b: Vec3): real {
    a.x * b.x + a.y * b.y + a.z * b.z
  }

  function Cross(a: Vec3, b: Vec3): Vec3 {
    Vec3(a.y * b.z - a.z * b.y, a.z * b.x - a.x * b.z, a.x * b.y - a.y * b.x)
  }

  /** `lengthSq()`: the squared Euclidean length. */
  function NormSq(a: Vec3): real {
    a.x * a.x + a.y * a.y + a.z * a.z
  }

  /** `length()`. */
  function Length(math: MathLib, a: Vec3): real {
    math.sqrt(NormSq(a))
  }

  /** `distanceTo()`. */
  function Distance(math: MathLib, a: Vec3, b: Vec3): real {
    Length(math, Sub(a, b))
  }

  /** three.js `normalize()`: divide by the length, or by 1 when the length is 0. */
  function Normalize(math: MathLib, a: Vec3): Vec3 {
    var l := Length(math, a);
    if l == 0 as real then a else Scale(a, 1.0 / l)
  }

  /** `Math.abs`. */
  function Abs(r: real): (a: real)
    ensures 0 as real <= a && (a == r || a == -r)
  {
    if r < 0 as real then -r else r
  }

  /** `Math.min`. */
  function Min(a: real, b: real): (m: real)
    ensures m <= a && m <= b && (m == a || m == b)
  {
    if a <= b then a else b
  }

  // ---------------------------------------------------------------------
  // Facts about real products. Each is proved in a context that holds only
  // the products it is about; callers then combine them linearly.

  lemma MulNonneg(a: real, b: real)
    requires 0 as real <= a && 0 as real <= b
    ensures 0 as real <= a * b
  {
  }

  lemma MulPos(a: real, b: real)
    requires 0 as real < a && 0 as real < b
    ensures 0 as real < a * b
  {
  }

  lemma DivNonneg(a: real, b: real)
    requires 0 as real <= a && 0 as real < b
    ensures 0 as real <= a / b
  {
  }

  lemma DivPos(a: real, b: real)
    requires 0 as real < a && 0 as real < b
    ensures 0 as real < a / b
  {
  }

  lemma SquareNonneg(r: real)
    ensures 0 as real <= r * r
  {
    if r < 0 as real {
      MulPos(-r, -r);
      assert r * r == (-r) * (-r);
    }
  }

  lemma SquarePos(r: real)
    requires r != 0 as real
    ensures 0 as real < r * r
  {
    if r < 0 as real {
      MulPos(-r, -r);
      assert r * r == (-r) * (-r);
    } else {
      MulPos(r, r);
    }
  }

  lemma OrderedDifferences(ss: real, sc: real, cc: real, sd: real, dc: real)
    requires sd == sc - ss && dc == cc - sc && 0 as real <= sd && 0 as real < dc
    ensures ss < cc
  {
  }

  lemma OrderedDifferencesWeak(ss: real, sc: real, cc: real, sd: real, dc: real)
    requires sd == sc - ss && dc == cc - sc && 0 as real <= sd && 0 as real <= dc
    ensures ss <= cc
  {
  }

  /** Squaring is strictly increasing on the non-negative reals. */
  lemma SquareLess(s: real, c: real)
    requires 0 as real <= s < c
    ensures s * s < c * c
  {
    var d := c - s;
    MulNonneg(s, d);
    MulPos(d, c);
    assert s * d == s * c - s * s;
    assert d * c == c * c - s * c;
    OrderedDifferences(s * s, s * c, c * c, s * d, d * c);
  }

  lemma SquareAtMost(s: real, c: real)
    requires 0 as real <= s <= c
    ensures s * s <= c * c
  {
    var d := c - s;
    MulNonneg(s, d);
    MulNonneg(d, c);
    assert s * d == s * c - s * s;
    assert d * c == c * c - s * c;
    OrderedDifferencesWeak(s * s, s * c, c * c, s * d, d * c);
  }

  lemma SumOfNonneg(a: real, b: real, c: real)
    requires 0 as real <= a && 0 as real <= b && 0 as real <= c
    ensures 0 as real <= a + b + c
    ensures a + b + c == 0 as real ==> a == 0 as real && b == 0 as real && c == 0 as real
  {
  }

  lemma ProductNonzero(a: real, b: real)
    requires a != 0 as real && b != 0 as real
    ensures a * b != 0 as real
  {
    if a < 0 as real && b < 0 as real {
      MulPos(-a, -b);
      assert a * b == (-a) * (-b);
    } else if a < 0 as real {
      MulPos(-a, b);
      assert a * b == -((-a) * b);
    } else if b < 0 as real {
      MulPos(a, -b);
      assert a * b == -(a * (-b));
    } else {
      MulPos(a, b);
    }
  }

  /** A product with a non-zero factor vanishes only when the other factor does. */
  lemma ProductZero(a: real, b: real)
    requires a != 0 as real
    ensures a * b == 0 as real <==> b == 0 as real
  {
    if b != 0 as real {
      ProductNonzero(a, b);
    }
  }

  /** A quotient by a non-zero divisor vanishes only when the dividend does. */
  lemma QuotientZero(a: real, b: real)
    requires b != 0 as real
    ensures a / b == 0 as real <==> a == 0 as real
  {
    assert (a / b) * b == a;
    ProductZero(b, a / b);
  }

  lemma PositiveNotZero(p: real, q: real)
    requires 0 as real < p && p == q
    ensures q != 0 as real
  {
  }

  // ---------------------------------------------------------------------
  // Lengths and square roots.

  /** The squared length is non-negative, and zero exactly for the zero vector. */
  lemma NormSqZero(a: Vec3)
    ensures 0 as real <= NormSq(a)
    ensures NormSq(a) == 0 as real <==> a == Zero
  {
    SquareNonneg(a.x);
    SquareNonneg(a.y);
    SquareNonneg(a.z);
    SumOfNonneg(a.x * a.x, a.y * a.y, a.z * a.z);
    if a.x != 0 as real {
      SquarePos(a.x);
    } else if a.y != 0 as real {
      SquarePos(a.y);
    } else if a.z != 0 as real {
      SquarePos(a.z);
    }
  }

  /** The square root of zero is zero. */
  lemma SqrtZero(math: MathLib)
    requires SqrtLaw(math)
    ensures math.sqrt(0 as real) == 0 as real
  {
    var s := math.sqrt(0 as real);
    if s != 0 as real {
      SquarePos(s);
      PositiveNotZero(s * s, s * s);
    }
  }

  /** The square root of one is one. */
  lemma SqrtOne(math: MathLib)
    requires SqrtLaw(math)
    ensures math.sqrt(1.0) == 1.0
  {
    var s := math.sqrt(1.0);
    if s < 1.0 {
      SquareLess(s, 1.0);
    } else if s > 1.0 {
      SquareLess(1.0, s);
    }
  }

  /** Comparing a square root with a non-negative bound is comparing the
      radicand with the bound's square. */
  lemma SqrtBelow(math: MathLib, q: real, c: real)
    requires SqrtLaw(math) && 0 as real <= q && 0 as real <= c
    ensures math.sqrt(q) < c <==> q < c * c
    ensures math.sqrt(q) <= c <==> q <= c * c
  {
    var s := math.sqrt(q);
    if s < c {
      SquareLess(s, c);
    } else if s == c {
    } else {
      SquareLess(c, s);
    }
  }

  /** The square root of a square is the absolute value. */
  lemma SqrtOfSquare(math: MathLib, m: real)
    requires SqrtLaw(math)
    ensures math.sqrt(m * m) == Abs(m)
  {
    var a := Abs(m);
    assert m * m == a * a;
    SquareNonneg(a);
    var s := math.sqrt(a * a);
    if s < a {
      SquareLess(s, a);
    } else if s > a {
      SquareLess(a, s);
    }
  }

  /** The length is zero exactly for the zero vector. */
  lemma LengthZero(math: MathLib, a: Vec3)
    requires SqrtLaw(math)
    ensures 0 as real <= Length(math, a)
    ensures Length(math, a) == 0 as real <==> a == Zero
  {
    NormSqZero(a);
    SqrtZero(math);
    var s := Length(math, a);
    if s != 0 as real {
      SquarePos(s);
    }
  }

  /** `normalize()` returns a unit vector for every non-zero input and leaves
      the zero vector as it is. */
  lemma NormalizeUnit(math: MathLib, a: Vec3)
    requires SqrtLaw(math)
    ensures a == Zero ==> Normalize(math, a) == Zero
    ensures a != Zero ==> NormSq(Normalize(math, a)) == 1.0
  {
    LengthZero(math, a);
    NormSqZero(a);
    if a != Zero {
      var l := Length(math, a);
      var k := 1.0 / l;
      assert l * l == NormSq(a);
      assert k * l == 1.0;
      calc {
        NormSq(Scale(a, k));
        (a.x * k) * (a.x * k) + (a.y * k) * (a.y * k) + (a.z * k) * (a.z * k);
        NormSq(a) * (k * k);
        (l * l) * (k * k);
        (k * l) * (k * l);
      }
    }
  }

  /** `normalize()` keeps the direction: the unit vector, scaled back by the
      length, is the input. */
  lemma NormalizeRestores(math: MathLib, a: Vec3)
    requires SqrtLaw(math)
    ensures Scale(Normalize(math, a), Length(math, a)) == a
  {
    LengthZero(math, a);
    var l := Length(math, a);
    if l != 0 as real {
      var k := 1.0 / l;
      assert k * l == 1.0;
      assert (a.x * k) * l == a.x * (k * l);
      assert (a.y * k) * l == a.y * (k * l);
      assert (a.z * k) * l == a.z * (k * l);
    }
  }

  /** A normalised vector has length one unless it is the zero vector. */
  lemma NormalizedLength(math: MathLib, a: Vec3)
    requires SqrtLaw(math) && a != Zero
    ensures Length(math, Normalize(math, a)) == 1.0
  {
    NormalizeUnit(math, a);
    SqrtOne(math);
  }

  /** The cross product is orthogonal to both of its factors. */
  lemma CrossOrthogonal(a: Vec3, b: Vec3)
    ensures Dot(Cross(a, b), a) == 0 as real && Dot(Cross(a, b), b) == 0 as real
  {
  }

  /** Scaling by `1/k` and then by `k` gives the vector back. */
  lemma ScaleInverse(a: Vec3, k: real)
    requires k != 0 as real
    ensures Scale(Scale(a, 1.0 / k), k) == a
  {
    var f := 1.0 / k;
    assert f * k == 1.0;
    assert (a.x * f) * k == a.x * (f * k);
    assert (a.y * f) * k == a.y * (f * k);
    assert (a.z * f) * k == a.z * (f * k);
  }

  /** Scaling one factor scales the dot product. */
  lemma DotScale(a: Vec3, k: real, b: Vec3)
    ensures Dot(Scale(a, k), b) == k * Dot(a, b)
    ensures Dot(a, a) == NormSq(a)
  {
  }

  /** Scaling by `k` scales the squared length by `k²`. */
  lemma NormSqScale(a: Vec3, k: real)
    ensures NormSq(Scale(a, k)) == (k * k) * NormSq(a)
  {
  }

  /** A scaled vector is orthogonal to whatever the original is orthogonal to. */
  lemma ScaleKeepsOrthogonal(a: Vec3, k: real, b: Vec3)
    requires Dot(a, b) == 0 as real
    ensures Dot(Scale(a, k), b) == 0 as real
  {
    assert Dot(Scale(a, k), b) == k * Dot(a, b);
  }
}
