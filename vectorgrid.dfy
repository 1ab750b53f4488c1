/** The vector-field view: the simplified field (`k = 1`, sources closer
    than 0.5 skipped) is sampled on the lattice `{-10, -8, ..., 10}³`, in the
    order x, then y, then z, and an arrow is drawn at every lattice point
    where the field is stronger than 0.1. The arrow points along the field;
    its length was meant to be the field's magnitude capped at 2, but the
    field is normalised before its length is read, so every arrow drawn is
    1 long. `GridArrows` is the intended drawing, `DrawnArrows` the one the
    view makes, and `DrawnGrid` relates the two. */
module VectorGrid {
  import opened Vectors
  import Store
  import ViewFields

  const GRID_SIZE: int := 10
  const SPACING: int := 2
  /** Lattice values per axis: -10, -8, ..., 10. */
  const AXIS_POINTS: nat := 2 * GRID_SIZE / SPACING + 1
  const FIELD_K: real := 1.0
  const FIELD_CUTOFF: real := 0.5
  /** Arrows are drawn only where the field is stronger than this. */
  const MIN_FIELD: real := 0.1
  /** The longest arrow drawn. */
  const MAX_MAGNITUDE: real := 2.0

  datatype Arrow = Arrow(position: Vec3, direction: Vec3, magnitude: real)

  /** `calculateFieldAtPoint`. */
  function FieldAtPoint(math: MathLib, position: Vec3, sources: seq<Store.Source>): Vec3 {
    ViewFields.ViewField(math, position, sources, FIELD_K, FIELD_CUTOFF)
  }

  /** The `i`-th lattice value along an axis. */
  function Coord(i: int): int {
    -GRID_SIZE + SPACING * i
  }

  function GridPoint(i: int, j: int, l: int): Vec3 {
    Vec3(Coord(i) as real, Coord(j) as real, Coord(l) as real)
  }

  /** The arrow at `p`, if the field there is strong enough: along the
      field, as long as the field's magnitude capped at 2. */
  function ArrowAt(math: MathLib, sources: seq<Store.Source>, p: Vec3): seq<Arrow> {
    var field := FieldAtPoint(math, p, sources);
    if Length(math, field) > MIN_FIELD then
      [Arrow(p, Normalize(math, field), Min(Length(math, field), MAX_MAGNITUDE))]
    else
      []
  }

  /** The arrow as the source builds it: `field.normalize()` normalises the
      field in place before `field.length()` is read for the magnitude. */
  function ArrowAtAsWritten(math: MathLib, sources: seq<Store.Source>, p: Vec3): seq<Arrow> {
    var field := FieldAtPoint(math, p, sources);
    if Length(math, field) > MIN_FIELD then
      var normalized := Normalize(math, field);
      [Arrow(p, normalized, Min(Length(math, normalized), MAX_MAGNITUDE))]
    else
      []
  }

  /** `g(0) + g(1) + ... + g(n - 1)`: what a loop over `0 .. n - 1`
      collects when step `k` contributes `g(k)`. */
  function Concat<T>(g: int -> seq<T>, n: nat): seq<T>
    decreases n
  {
    if n == 0 then [] else Concat(g, n - 1) + g(n - 1)
  }

  lemma ConcatStep<T>(g: int -> seq<T>, n: nat)
    ensures Concat(g, n + 1) == Concat(g, n) + g(n)
  {
  }

  /** Appending `h(0) ... h(n - 1)` continues `g` up to `end` when `h` is
      `g` shifted by `base`. */
  lemma {:induction false} ConcatShift<T>(g: int -> seq<T>, h: int -> seq<T>, base: nat, n: nat, end: nat)
    requires base + n == end
    requires forall l :: 0 <= l < n ==> h(l) == g(base + l)
    ensures Concat(g, base) + Concat(h, n) == Concat(g, end)
    decreases n
  {
    if n > 0 {
      ConcatShift(g, h, base, n - 1, end - 1);
      assert h(n - 1) == g(end - 1);
      assert Concat(g, base) + Concat(h, n) == Concat(g, base) + Concat(h, n - 1) + h(n - 1);
    }
  }

  lemma {:induction false} ConcatMembers<T>(g: int -> seq<T>, n: nat, a: T)
    ensures a in Concat(g, n) <==> exists k :: 0 <= k < n && a in g(k)
    decreases n
  {
    if n > 0 {
      ConcatMembers(g, n - 1, a);
      if exists k :: 0 <= k < n && a in g(k) {
        var k :| 0 <= k < n && a in g(k);
        if k < n - 1 {
          assert a in Concat(g, n - 1);
        }
      }
    }
  }

  lemma {:induction false} ConcatBound<T>(g: int -> seq<T>, n: nat, m: nat)
    requires forall k :: 0 <= k < n ==> |g(k)| <= m
    ensures |Concat(g, n)| <= m * n
    decreases n
  {
    if n > 0 {
      ConcatBound(g, n - 1, m);
      assert |g(n - 1)| <= m;
      assert m * n == m * (n - 1) + m;
    }
  }

  /** The number of lattice points, `11³`. */
  const LATTICE_POINTS: nat := AXIS_POINTS * AXIS_POINTS * AXIS_POINTS

  /** `(i, j, l)` indexes a lattice point. */
  predicate InLattice(i: int, j: int, l: int) {
    0 <= i < AXIS_POINTS && 0 <= j < AXIS_POINTS && 0 <= l < AXIS_POINTS
  }

  /** The position of lattice point `(i, j, l)` in drawing order: x
      outermost, z innermost. */
  function Flat(i: int, j: int, l: int): int {
    (i * 11 + j) * 11 + l
  }

  /** The `k`-th lattice point in drawing order. */
  function PointOf(k: int): Vec3 {
    GridPoint(k / 121, k / 11 % 11, k % 11)
  }

  /** The intended arrow, if any, at each point. */
  function ArrowFn(math: MathLib, sources: seq<Store.Source>): Vec3 -> seq<Arrow> {
    p => ArrowAt(math, sources, p)
  }

  /** The arrow, if any, at each point as the innermost loop body appends
      it. */
  function DrawnFn(math: MathLib, sources: seq<Store.Source>): Vec3 -> seq<Arrow> {
    p => ArrowAtAsWritten(math, sources, p)
  }

  /** `at` agrees with `ArrowAtAsWritten` everywhere. The grid loops are
      stated for any such `at`, which keeps the field itself out of their
      reasoning. */
  ghost predicate Samples(math: MathLib, sources: seq<Store.Source>, at: Vec3 -> seq<Arrow>) {
    forall p {:trigger ArrowAtAsWritten(math, sources, p)} :: at(p) == ArrowAtAsWritten(math, sources, p)
  }

  /** What `at` gives at the `k`-th lattice point. */
  function PointArrows(at: Vec3 -> seq<Arrow>): int -> seq<Arrow> {
    k => at(PointOf(k))
  }

  /** What `at` gives along the column above `(i, j)`, z ascending. */
  function ColumnCell(at: Vec3 -> seq<Arrow>, i: int, j: int): int -> seq<Arrow> {
    l => at(GridPoint(i, j, l))
  }

  /** Every arrow the vector-field view is meant to draw, in drawing
      order. */
  function GridArrows(math: MathLib, sources: seq<Store.Source>): seq<Arrow> {
    Concat(PointArrows(ArrowFn(math, sources)), LATTICE_POINTS)
  }

  /** Every arrow the vector-field view draws, in drawing order. */
  function DrawnArrows(math: MathLib, sources: seq<Store.Source>): seq<Arrow> {
    Concat(PointArrows(DrawnFn(math, sources)), LATTICE_POINTS)
  }

  /** One lattice step along an axis; the loop over an axis stops exactly
      after its `AXIS_POINTS` values. */
  lemma AxisStep(n: int)
    ensures Coord(n) + SPACING == Coord(n + 1)
    ensures 0 <= n && Coord(n) <= GRID_SIZE ==> n < AXIS_POINTS
    ensures 0 <= n <= AXIS_POINTS && Coord(n) > GRID_SIZE ==> n == AXIS_POINTS
  {
    assert AXIS_POINTS == 11;
  }

  /** Drawing order numbers the lattice points `0 .. 1330`, one after
      another, and `PointOf` recovers each point from its number. */
  lemma FlatOrder(i: int, j: int, l: int)
    requires InLattice(i, j, l)
    ensures 0 <= Flat(i, j, l) < LATTICE_POINTS
    ensures PointOf(Flat(i, j, l)) == GridPoint(i, j, l)
    ensures Flat(i, j, l) + 1 == Flat(i, j, l + 1)
    ensures Flat(i, j, AXIS_POINTS) == Flat(i, j + 1, 0)
    ensures Flat(i, AXIS_POINTS, 0) == Flat(i + 1, 0, 0)
    ensures Flat(AXIS_POINTS, 0, 0) == LATTICE_POINTS
  {
    assert AXIS_POINTS == 11 && LATTICE_POINTS == 1331;
    var k := Flat(i, j, l);
    assert k == 121 * i + (11 * j + l) && 0 <= 11 * j + l < 121;
    assert k / 121 == i;
    assert k / 11 == 11 * i + j;
    assert k / 11 % 11 == j;
  }

  /** Every number below `1331` is the drawing position of a lattice point. */
  lemma FlatOnto(k: int) returns (i: int, j: int, l: int)
    requires 0 <= k < LATTICE_POINTS
    ensures InLattice(i, j, l)
    ensures PointOf(k) == GridPoint(i, j, l)
  {
    assert AXIS_POINTS == 11 && LATTICE_POINTS == 1331;
    i, j, l := k / 121, k / 11 % 11, k % 11;
  }

  /** One pass of the innermost loop body: the field at `position`, and
      its arrow if the field is stronger than 0.1. The field is normalised
      first, and the magnitude is read from the normalised field. */
  method SamplePoint(math: MathLib, sources: seq<Store.Source>, position: Vec3) returns (arrows: seq<Arrow>)
    ensures arrows == ArrowAtAsWritten(math, sources, position)
  {
    var field := ViewFields.CalculateViewField(math, position, sources, FIELD_K, FIELD_CUTOFF);
    arrows := [];
    if Length(math, field) > MIN_FIELD {
      var normalized := Normalize(math, field);
      arrows := [Arrow(position, normalized, Min(Length(math, normalized), MAX_MAGNITUDE))];
    }
  }

  /** The `vectors` memo: a triple loop over the lattice, x outermost,
      appending the arrow of every point where the field is stronger than
      0.1. The y and z loops are `SampleSlice` and `SampleColumn`. */
  method SampleGrid(math: MathLib, sources: seq<Store.Source>) returns (vectors: seq<Arrow>)
    ensures vectors == DrawnArrows(math, sources)
  {
    ghost var at := DrawnFn(math, sources);
    vectors := [];
    var x := -GRID_SIZE;
    ghost var i := 0;
    FlatOrder(0, 0, 0);
    while x <= GRID_SIZE
      invariant 0 <= i <= AXIS_POINTS && x == Coord(i)
      invariant vectors == Concat(PointArrows(at), Flat(i, 0, 0))
      decreases GRID_SIZE - x
    {
      AxisStep(i);
      vectors := SampleSlice(math, sources, x, at, i, vectors);
      x := x + SPACING;
      i := i + 1;
    }
    AxisStep(i);
  }

  /** The y loop at `x == Coord(i)`: appends slice `i` to `vectors`. */
  method SampleSlice(
    math: MathLib, sources: seq<Store.Source>, x: int, ghost at: Vec3 -> seq<Arrow>, ghost i: int, vectors: seq<Arrow>)
    returns (vectors': seq<Arrow>)
    requires Samples(math, sources, at)
    requires 0 <= i < AXIS_POINTS && x == Coord(i)
    requires vectors == Concat(PointArrows(at), Flat(i, 0, 0))
    ensures vectors' == Concat(PointArrows(at), Flat(i + 1, 0, 0))
  {
    vectors' := vectors;
    var y := -GRID_SIZE;
    ghost var j := 0;
    while y <= GRID_SIZE
      invariant 0 <= j <= AXIS_POINTS && y == Coord(j)
      invariant vectors' == Concat(PointArrows(at), Flat(i, j, 0))
      decreases GRID_SIZE - y
    {
      AxisStep(j);
      var column := SampleColumn(math, sources, x, y, at, i, j);
      ColumnInOrder(at, i, j);
      vectors' := vectors' + column;
      y := y + SPACING;
      j := j + 1;
    }
    AxisStep(j);
    FlatOrder(i, 0, 0);
  }

  /** In drawing order, column `(i, j)` follows everything before it. */
  lemma ColumnInOrder(at: Vec3 -> seq<Arrow>, i: int, j: int)
    requires InLattice(i, j, 0)
    ensures Concat(PointArrows(at), Flat(i, j, 0)) + Concat(ColumnCell(at, i, j), AXIS_POINTS)
         == Concat(PointArrows(at), Flat(i, j + 1, 0))
  {
    var base := Flat(i, j, 0);
    forall l | 0 <= l < AXIS_POINTS
      ensures ColumnCell(at, i, j)(l) == PointArrows(at)(base + l)
    {
      FlatOrder(i, j, l);
    }
    FlatOrder(i, j, 0);
    ConcatShift(PointArrows(at), ColumnCell(at, i, j), base, AXIS_POINTS, Flat(i, j + 1, 0));
  }

  /** The z loop at `x == Coord(i)`, `y == Coord(j)`. */
  method SampleColumn(
    math: MathLib, sources: seq<Store.Source>, x: int, y: int, ghost at: Vec3 -> seq<Arrow>, ghost i: int, ghost j: int)
    returns (column: seq<Arrow>)
    requires Samples(math, sources, at)
    requires x == Coord(i) && y == Coord(j)
    ensures column == Concat(ColumnCell(at, i, j), AXIS_POINTS)
  {
    column := [];
    var z := -GRID_SIZE;
    ghost var l := 0;
    while z <= GRID_SIZE
      invariant 0 <= l <= AXIS_POINTS && z == Coord(l)
      invariant column == Concat(ColumnCell(at, i, j), l)
      decreases GRID_SIZE - z
    {
      AxisStep(l);
      var position := Vec3(x as real, y as real, z as real);
      assert position == GridPoint(i, j, l);
      var arrows := SamplePoint(math, sources, position);
      assert arrows == ColumnCell(at, i, j)(l);
      ConcatStep(ColumnCell(at, i, j), l);
      column := column + arrows;
      z := z + SPACING;
      l := l + 1;
    }
    AxisStep(l);
  }

  // ---------------------------------------------------------------------
  // How many arrows, and which.

  /** The view samples `11³ = 1331` lattice points and draws at most one
      arrow at each. */
  lemma AtMostOneArrowPerPoint(math: MathLib, sources: seq<Store.Source>)
    ensures |GridArrows(math, sources)| <= 1331
  {
    var cell := PointArrows(ArrowFn(math, sources));
    forall k | 0 <= k < LATTICE_POINTS
      ensures |cell(k)| <= 1
    {
      assert cell(k) == ArrowAt(math, sources, PointOf(k));
    }
    ConcatBound(cell, LATTICE_POINTS, 1);
    assert AXIS_POINTS == 11;
  }

  /** `a` is the arrow drawn at lattice point `(i, j, l)`. */
  predicate IsArrowAt(math: MathLib, sources: seq<Store.Source>, a: Arrow, i: int, j: int, l: int) {
    a in ArrowAt(math, sources, GridPoint(i, j, l))
  }

  /** Every drawn arrow is the arrow of some lattice point. */
  lemma GridMemberIsArrowAt(math: MathLib, sources: seq<Store.Source>, a: Arrow)
      returns (i: int, j: int, l: int)
    requires a in GridArrows(math, sources)
    ensures InLattice(i, j, l)
    ensures IsArrowAt(math, sources, a, i, j, l)
  {
    var cell := PointArrows(ArrowFn(math, sources));
    ConcatMembers(cell, LATTICE_POINTS, a);
    var k :| 0 <= k < LATTICE_POINTS && a in cell(k);
    i, j, l := FlatOnto(k);
  }

  /** The arrow of every lattice point is drawn. */
  lemma ArrowAtIsGridMember(math: MathLib, sources: seq<Store.Source>, a: Arrow, i: int, j: int, l: int)
    requires InLattice(i, j, l)
    requires IsArrowAt(math, sources, a, i, j, l)
    ensures a in GridArrows(math, sources)
  {
    var cell := PointArrows(ArrowFn(math, sources));
    FlatOrder(i, j, l);
    assert a in cell(Flat(i, j, l));
    ConcatMembers(cell, LATTICE_POINTS, a);
  }

  /** An arrow is drawn exactly when it is the arrow of a lattice point. */
  lemma GridMembers(math: MathLib, sources: seq<Store.Source>, a: Arrow)
    ensures a in GridArrows(math, sources)
      <==> exists i, j, l :: InLattice(i, j, l) && IsArrowAt(math, sources, a, i, j, l)
  {
    if a in GridArrows(math, sources) {
      var i, j, l := GridMemberIsArrowAt(math, sources, a);
    }
    if exists i, j, l :: InLattice(i, j, l) && IsArrowAt(math, sources, a, i, j, l) {
      var i, j, l :| InLattice(i, j, l) && IsArrowAt(math, sources, a, i, j, l);
      ArrowAtIsGridMember(math, sources, a, i, j, l);
    }
  }

  /** An arrow is drawn exactly at the lattice points where the field is
      stronger than 0.1; it sits at the point, points along the field with
      unit length, and its magnitude is the field's, capped at 2. */
  lemma ArrowsAreFieldSamples(math: MathLib, sources: seq<Store.Source>, a: Arrow)
    requires SqrtLaw(math)
    ensures a in GridArrows(math, sources)
      <==> exists i, j, l :: InLattice(i, j, l) && IsArrowAt(math, sources, a, i, j, l)
    ensures a in GridArrows(math, sources) ==>
      var field := FieldAtPoint(math, a.position, sources);
      && MIN_FIELD < Length(math, field)
      && a.direction == Normalize(math, field) && NormSq(a.direction) == 1.0
      && a.magnitude == Min(Length(math, field), MAX_MAGNITUDE)
      && MIN_FIELD < a.magnitude <= MAX_MAGNITUDE
  {
    GridMembers(math, sources, a);
    if a in GridArrows(math, sources) {
      var i, j, l :| InLattice(i, j, l) && IsArrowAt(math, sources, a, i, j, l);
      ArrowAtLaws(math, sources, GridPoint(i, j, l), a);
    }
  }

  /** The arrow at one point, if any, sits at the point, points along the
      field with unit length, and is the field's magnitude capped at 2. */
  lemma ArrowAtLaws(math: MathLib, sources: seq<Store.Source>, p: Vec3, a: Arrow)
    requires SqrtLaw(math) && a in ArrowAt(math, sources, p)
    ensures var field := FieldAtPoint(math, p, sources);
      && a.position == p
      && MIN_FIELD < Length(math, field)
      && a.direction == Normalize(math, field) && NormSq(a.direction) == 1.0
      && a.magnitude == Min(Length(math, field), MAX_MAGNITUDE)
      && MIN_FIELD < a.magnitude <= MAX_MAGNITUDE
  {
    var field := FieldAtPoint(math, p, sources);
    LengthZero(math, field);
    NormalizeUnit(math, field);
  }

  /** Every lattice point with a field stronger than 0.1 gets its arrow. */
  lemma StrongPointsSampled(math: MathLib, sources: seq<Store.Source>, i: int, j: int, l: int)
    requires InLattice(i, j, l)
    requires Length(math, FieldAtPoint(math, GridPoint(i, j, l), sources)) > MIN_FIELD
    ensures var p := GridPoint(i, j, l);
      var field := FieldAtPoint(math, p, sources);
      Arrow(p, Normalize(math, field), Min(Length(math, field), MAX_MAGNITUDE)) in GridArrows(math, sources)
  {
    var p := GridPoint(i, j, l);
    var field := FieldAtPoint(math, p, sources);
    var a := Arrow(p, Normalize(math, field), Min(Length(math, field), MAX_MAGNITUDE));
    ArrowAtIsGridMember(math, sources, a, i, j, l);
  }

  // ---------------------------------------------------------------------
  // The arrow magnitude as written.

  /** As written, every drawn arrow has magnitude 1: the field has already
      been normalised when its length is read. So wherever the field is
      stronger than 1 the arrow differs from the intended one. */
  lemma AsWrittenMagnitudeIsOne(math: MathLib, sources: seq<Store.Source>, p: Vec3)
    requires SqrtLaw(math)
    ensures ArrowAtAsWritten(math, sources, p) == UnitMagnitudes(ArrowAt(math, sources, p))
    ensures |ArrowAtAsWritten(math, sources, p)| == |ArrowAt(math, sources, p)|
    ensures forall a :: a in ArrowAtAsWritten(math, sources, p) ==> a.magnitude == 1.0
    ensures Length(math, FieldAtPoint(math, p, sources)) > 1.0
      ==> ArrowAtAsWritten(math, sources, p) != ArrowAt(math, sources, p)
  {
    var field := FieldAtPoint(math, p, sources);
    LengthZero(math, field);
    if Length(math, field) > MIN_FIELD {
      NormalizedLength(math, field);
    }
  }

  /** `arrows` with every magnitude set to 1. */
  function UnitMagnitudes(arrows: seq<Arrow>): seq<Arrow> {
    seq(|arrows|, k requires 0 <= k < |arrows| => arrows[k].(magnitude := 1.0))
  }

  lemma UnitMagnitudesAppend(a: seq<Arrow>, b: seq<Arrow>)
    ensures UnitMagnitudes(a + b) == UnitMagnitudes(a) + UnitMagnitudes(b)
  {
  }

  lemma {:induction false} ConcatUnitMagnitudes(g: int -> seq<Arrow>, h: int -> seq<Arrow>, n: nat)
    requires forall k :: 0 <= k < n ==> h(k) == UnitMagnitudes(g(k))
    ensures Concat(h, n) == UnitMagnitudes(Concat(g, n))
    decreases n
  {
    if n > 0 {
      ConcatUnitMagnitudes(g, h, n - 1);
      UnitMagnitudesAppend(Concat(g, n - 1), g(n - 1));
    }
  }

  /** The view draws exactly the intended arrows, in the same order, except
      that every one of them is 1 long. */
  lemma DrawnGrid(math: MathLib, sources: seq<Store.Source>)
    requires SqrtLaw(math)
    ensures DrawnArrows(math, sources) == UnitMagnitudes(GridArrows(math, sources))
  {
    var g := PointArrows(ArrowFn(math, sources));
    var h := PointArrows(DrawnFn(math, sources));
    forall k | 0 <= k < LATTICE_POINTS
      ensures h(k) == UnitMagnitudes(g(k))
    {
      AsWrittenMagnitudeIsOne(math, sources, PointOf(k));
    }
    ConcatUnitMagnitudes(g, h, LATTICE_POINTS);
  }

  /** The drawn arrows are exactly those of the lattice points where the
      field is stronger than 0.1; each sits at its point, points along the
      field with unit length, and is 1 long. */
  lemma DrawnArrowsAreFieldSamples(math: MathLib, sources: seq<Store.Source>, a: Arrow)
    requires SqrtLaw(math)
    ensures a in DrawnArrows(math, sources)
      <==> exists i, j, l :: InLattice(i, j, l) && a in ArrowAtAsWritten(math, sources, GridPoint(i, j, l))
    ensures a in DrawnArrows(math, sources) ==>
      var field := FieldAtPoint(math, a.position, sources);
      && MIN_FIELD < Length(math, field)
      && a.direction == Normalize(math, field) && NormSq(a.direction) == 1.0
      && a.magnitude == 1.0
  {
    var cell := PointArrows(DrawnFn(math, sources));
    ConcatMembers(cell, LATTICE_POINTS, a);
    if a in DrawnArrows(math, sources) {
      var k :| 0 <= k < LATTICE_POINTS && a in cell(k);
      var i, j, l := FlatOnto(k);
      var p := GridPoint(i, j, l);
      assert a in ArrowAtAsWritten(math, sources, p);
      var field := FieldAtPoint(math, p, sources);
      LengthZero(math, field);
      NormalizeUnit(math, field);
      NormalizedLength(math, field);
    }
    if exists i, j, l :: InLattice(i, j, l) && a in ArrowAtAsWritten(math, sources, GridPoint(i, j, l)) {
      var i, j, l :| InLattice(i, j, l) && a in ArrowAtAsWritten(math, sources, GridPoint(i, j, l));
      FlatOrder(i, j, l);
      assert a in cell(Flat(i, j, l));
    }
  }

  /** Concretely: a charge of 8 at the origin makes a field of magnitude 2 at
      the lattice point `(2, 0, 0)`; the arrow should be 2 long, the source
      draws it 1 long. */
  lemma AsWrittenExample(math: MathLib)
    requires SqrtLaw(math)
    ensures var sources := [Store.Source("q", Zero, 8.0, Store.Charge)];
      var p := GridPoint(6, 5, 5);
      && p == Vec3(2.0, 0 as real, 0 as real)
      && Length(math, FieldAtPoint(math, p, sources)) == 2.0
      && ArrowAt(math, sources, p)[0].magnitude == 2.0
      && ArrowAtAsWritten(math, sources, p)[0].magnitude == 1.0
  {
    var s := Store.Source("q", Zero, 8.0, Store.Charge);
    var p := Vec3(2.0, 0 as real, 0 as real);
    var r := Sub(p, s.position);
    assert r == p;
    assert NormSq(r) == 2.0 * 2.0;
    SqrtOfSquare(math, 2.0);
    assert Length(math, r) == 2.0;
    ViewFields.ViewFieldOfOne(math, p, s, FIELD_K, FIELD_CUTOFF);
    assert Normalize(math, r) == Vec3(1.0, 0 as real, 0 as real);
    var field := FieldAtPoint(math, p, [s]);
    assert field == Vec3(2.0, 0 as real, 0 as real);
    assert NormSq(field) == 2.0 * 2.0;
    AsWrittenMagnitudeIsOne(math, [s], p);
  }
}
