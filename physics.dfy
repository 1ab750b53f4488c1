/** The vacuum field engine behind the probe and the field-line tracers:
    Coulomb fields of (possibly oscillating) charges, magnetic fields of
    wires, current loops and solenoids, the electric potential, the vacuum
    Poynting vector, the force on a test charge, a finite-difference field
    gradient, and the two field-line tracers. Every field is a superposition:
    a loop over the sources that skips the ones of the wrong kind and the
    ones closer than 0.01 to the point. */
module Physics {
  import opened Vectors
  import opened Options
  import opened Superposition
  import Maxwell

  datatype FieldKind = Charge | Dipole | Current | Wire | Loop | Solenoid

  /** A field source. The optional parameters are read with JavaScript's
      `||`, so a missing value and a zero both fall back to the default. */
  datatype FieldSource = FieldSource(
    position: Vec3,
    strength: real,
    kind: FieldKind,
    current: Option<real>,
    radius: Option<real>,
    length: Option<real>,
    turns: Option<real>,
    direction: Option<Vec3>,
    frequency: Option<real>,
    phase: Option<real>)

  const COULOMB_CONSTANT: real := 8.99e9
  const MU_0: real := 4.0 * PI * 1e-7

  /** Sources closer than this to the point are skipped. */
  const SINGULARITY_RADIUS: real := 0.01


  // ---------------------------------------------------------------------
  // Electric field.

  predicate IsElectricKind(kind: FieldKind) {
    kind == Charge || kind == Dipole
  }

  /** The charge of a source at `time`: its strength, modulated by
      `sin(2π·f·t + phase)` when it has a positive frequency. */
  function EffectiveStrength(math: MathLib, source: FieldSource, time: real): real {
    if PositiveNumber(source.frequency) then
      source.strength * math.sin(2.0 * PI * source.frequency.value * time + NumberOr(source.phase, 0 as real))
    else
      source.strength
  }

  /** The Coulomb field `k·q/d²` along `r/d`, computed component-wise. */
  function CoulombField(r: Vec3, distance: real, strength: real): Vec3
    requires distance != 0 as real
  {
    ProductNonzero(distance, distance);
    var fieldMagnitude := (COULOMB_CONSTANT * strength) / (distance * distance);
    Vec3(r.x / distance * fieldMagnitude, r.y / distance * fieldMagnitude, r.z / distance * fieldMagnitude)
  }

  /** What one source adds to the electric field at `position`. */
  function ElectricContribution(math: MathLib, position: Vec3, time: real, source: FieldSource): Vec3 {
    if !IsElectricKind(source.kind) then Zero
    else
      var r := Sub(position, source.position);
      var distance := Length(math, r);
      if distance < SINGULARITY_RADIUS then Zero
      else CoulombField(r, distance, EffectiveStrength(math, source, time))
  }

  function ElectricTerm(math: MathLib, position: Vec3, time: real): FieldSource -> Vec3 {
    source => ElectricContribution(math, position, time, source)
  }

  /** The electric field at `position`: the sum of the contributions. */
  function ElectricField(math: MathLib, position: Vec3, sources: seq<FieldSource>, time: real): Vec3 {
    SumOf(ElectricTerm(math, position, time), sources)
  }

  /** `calculateElectricField`. */
  method CalculateElectricField(math: MathLib, position: Vec3, sources: seq<FieldSource>, time: real)
    returns (totalField: Vec3)
    ensures totalField == ElectricField(math, position, sources, time)
  {
    totalField := Zero;
    for i := 0 to |sources|
      invariant totalField == SumOf(ElectricTerm(math, position, time), sources[..i])
    {
      var source := sources[i];
      assert sources[..i + 1][..i] == sources[..i];
      if !IsElectricKind(source.kind) {
        continue;
      }
      var r := Sub(position, source.position);
      var distance := Length(math, r);
      if distance < SINGULARITY_RADIUS {
        continue;
      }
      var effectiveStrength := EffectiveStrength(math, source, time);
      totalField := Add(totalField, CoulombField(r, distance, effectiveStrength));
    }
    assert sources[..|sources|] == sources;
  }

  /** Coulomb's law: the field of one charge at distance `d = |r|` is
      parallel to `r`, and its component along `r` is `k·q/d`; so it points
      away from a positive charge and towards a negative one. */
  lemma CoulombFieldLaws(math: MathLib, r: Vec3, strength: real)
    requires SqrtLaw(math) && r != Zero
    ensures Length(math, r) != 0 as real
    ensures Cross(CoulombField(r, Length(math, r), strength), r) == Zero
    ensures Dot(CoulombField(r, Length(math, r), strength), r) == (COULOMB_CONSTANT * strength) / Length(math, r)
  {
    LengthZero(math, r);
    var d := Length(math, r);
    NormSqZero(r);
    assert d * d == NormSq(r);
    ProductNonzero(d, d);
    var m := (COULOMB_CONSTANT * strength) / (d * d);
    var f := CoulombField(r, d, strength);
    var k := m / d;
    DivideThenScale(r.x, d, m);
    DivideThenScale(r.y, d, m);
    DivideThenScale(r.z, d, m);
    assert f == Scale(r, k);
    ScaledCross(r, k);
    DotScale(r, k, r);
    AlongLength(k, d, m, COULOMB_CONSTANT * strength);
  }

  /** `a/d·m = a·(m/d)`: each component of the Coulomb field is the
      separation scaled by one factor. */
  lemma DivideThenScale(a: real, d: real, m: real)
    requires d != 0 as real
    ensures a / d * m == a * (m / d)
  {
  }

  lemma ScaledCross(r: Vec3, k: real)
    ensures Cross(Scale(r, k), r) == Zero
  {
  }

  /** `(m/d)·d² = m·d²/d` for `m = q/d²`: the step from the squared length
      to `q/d`. */
  lemma AlongLength(k: real, d: real, m: real, q: real)
    requires d != 0 as real && d * d != 0 as real && m == q / (d * d) && k == m / d
    ensures k * (d * d) == q / d
  {
    assert k * d == m;
    assert k * (d * d) == m * d;
    assert m * (d * d) == q;
    assert (m * d) * d == q;
  }

  /** A source of another kind, or one too close to the point, contributes nothing. */
  lemma ElectricFieldSkips(math: MathLib, position: Vec3, a: seq<FieldSource>, s: FieldSource, b: seq<FieldSource>, time: real)
    requires !IsElectricKind(s.kind) || Length(math, Sub(position, s.position)) < SINGULARITY_RADIUS
    ensures ElectricField(math, position, a + [s] + b, time) == ElectricField(math, position, a + b, time)
  {
    var f := ElectricTerm(math, position, time);
    SumOfConcat(f, a + [s], b);
    SumOfConcat(f, a, [s]);
    SumOfSingleton(f, s);
    SumOfConcat(f, a, b);
    AddZero(SumOf(f, a));
  }

  /** Reordering the sources does not change the field. */
  lemma ElectricFieldOrderFree(math: MathLib, position: Vec3, a: seq<FieldSource>, b: seq<FieldSource>, time: real)
    requires multiset(a) == multiset(b)
    ensures ElectricField(math, position, a, time) == ElectricField(math, position, b, time)
  {
    SumOfPermutation(ElectricTerm(math, position, time), a, b);
  }

  /** Without electric sources the electric field is zero. */
  lemma NoElectricSources(math: MathLib, position: Vec3, sources: seq<FieldSource>, time: real)
    requires forall i :: 0 <= i < |sources| ==> !IsElectricKind(sources[i].kind)
    ensures ElectricField(math, position, sources, time) == Zero
  {
    SumOfAllZero(ElectricTerm(math, position, time), sources);
  }

  /** When no source oscillates the field does not depend on the time. */
  lemma StaticFieldTimeless(math: MathLib, position: Vec3, sources: seq<FieldSource>, t1: real, t2: real)
    requires forall i :: 0 <= i < |sources| ==> !PositiveNumber(sources[i].frequency)
    ensures ElectricField(math, position, sources, t1) == ElectricField(math, position, sources, t2)
  {
    SumOfPointwise(ElectricTerm(math, position, t1), ElectricTerm(math, position, t2), sources);
  }

  // ---------------------------------------------------------------------
  // Magnetic field.

  predicate IsMagneticKind(kind: FieldKind) {
    kind == Wire || kind == Loop || kind == Solenoid
  }

  /** The default axis of a wire. */
  const WIRE_AXIS: Vec3 := Vec3(0 as real, 1.0, 0 as real)

  /** The vector of length `magnitude` along `v`, when `length` is `|v|`. */
  function AlongUnit(v: Vec3, magnitude: real, length: real): Vec3
    requires length != 0 as real
  {
    Vec3(magnitude * v.x / length, magnitude * v.y / length, magnitude * v.z / length)
  }

  /** `μ0·|I| / (2π·d)`. */
  function WireMagnitude(current: real, distance: real): real
    requires distance != 0 as real
  {
    ProductNonzero(2.0 * PI, distance);
    (MU_0 * Abs(current)) / (2.0 * PI * distance)
  }

  function CurrentSign(current: real): real {
    if current > 0 as real then 1.0 else -1.0
  }

  /** The field of an infinite straight wire along `wireDirection`: magnitude
      `μ0·|I|/(2πd)`, direction `±(wireDirection × r)`; nothing when `r` is
      parallel to the wire. */
  function WireField(math: MathLib, r: Vec3, distance: real, current: real, wireDirection: Vec3): Vec3
    requires distance != 0 as real
  {
    var crossProduct := Cross(wireDirection, r);
    var crossMagnitude := Length(math, crossProduct);
    if crossMagnitude > 0 as real then
      AlongUnit(crossProduct, CurrentSign(current) * WireMagnitude(current, distance), crossMagnitude)
    else
      Zero
  }

  /** `μ0·m / (4π·d³)` for a magnetic moment `m`. */
  function DipoleMagnitude(moment: real, distance: real): real
    requires distance != 0 as real
  {
    ProductNonzero(distance, distance);
    ProductNonzero(distance * distance, distance);
    ProductNonzero(4.0 * PI, distance * distance * distance);
    moment / (4.0 * PI * (distance * distance * distance))
  }

  /** The simplified dipole field outside a solenoid. */
  function DipoleOutside(r: Vec3, distance: real, moment: real): Vec3
    requires distance != 0 as real
  {
    ProductNonzero(distance, distance);
    var fieldMagnitude := DipoleMagnitude(moment, distance);
    Vec3(
      3.0 * fieldMagnitude * r.x * r.y / (distance * distance),
      fieldMagnitude * (3.0 * r.y * r.y / (distance * distance) - 1.0),
      3.0 * fieldMagnitude * r.z * r.y / (distance * distance))
  }

  /** `r.x² + r.z²`: the squared distance from the solenoid's axis. */
  function AxialDistanceSq(r: Vec3): real {
    r.x * r.x + r.z * r.z
  }

  predicate InsideSolenoid(math: MathLib, r: Vec3, radius: real, length: real) {
    math.sqrt(AxialDistanceSq(r)) < radius && Abs(r.y) < length / 2.0
  }

  /** `μ0·(n/L)·I`: the uniform field inside a solenoid. */
  function SolenoidInterior(current: real, length: real, turns: real): real
    requires length != 0 as real
  {
    MU_0 * (turns / length) * current
  }

  /** A solenoid along the y axis: a uniform field inside, a dipole field
      outside. */
  function SolenoidField(
    math: MathLib, r: Vec3, distance: real, current: real, radius: real, length: real, turns: real
  ): Vec3
    requires distance != 0 as real && length != 0 as real
  {
    if InsideSolenoid(math, r, radius, length) then
      Vec3(0 as real, SolenoidInterior(current, length, turns), 0 as real)
    else
      DipoleOutside(r, distance, MU_0 * turns * PI * radius * radius * current)
  }

  /** `|r.y|³`. */
  function AxialCube(r: Vec3): real {
    Abs(r.y) * Abs(r.y) * Abs(r.y)
  }

  /** The window around a loop's axis where the on-axis field applies. */
  predicate NearLoopAxis(r: Vec3) {
    Abs(r.x) < 0.1 && Abs(r.z) < 0.1
  }

  /** The current loop exactly as the source computes it: inside the window
      `μ0·m / (2|r.y|³)` with the signed moment `m = π·R²·I`, negated once
      more when the current is not positive. `None` stands for the division
      by zero the source performs when `r.y` is zero. */
  function LoopFieldAsWritten(r: Vec3, current: real, radius: real): Option<Vec3> {
    var magneticMoment := PI * radius * radius * current;
    if NearLoopAxis(r) then
      if r.y == 0 as real then None
      else
        ProductNonzero(2.0, AxialCube(r));
        var fieldMagnitude := (MU_0 * magneticMoment) / (2.0 * AxialCube(r));
        Some(Vec3(0 as real, if current > 0 as real then fieldMagnitude else -fieldMagnitude, 0 as real))
    else
      Some(Zero)
  }

  /** What a loop adds to the engine's field: the field as the source
      computes it, and nothing where the source divides by zero (there it
      adds an infinite or undefined value, which reals cannot hold). */
  function LoopContribution(r: Vec3, current: real, radius: real): Vec3 {
    LoopFieldAsWritten(r, current, radius).Or(Zero)
  }

  /** The current loop with the moment's sign applied once and the
      on-axis singularity skipped: the field the loop evidently should add. */
  function LoopField(r: Vec3, current: real, radius: real): Vec3 {
    if NearLoopAxis(r) && r.y != 0 as real then
      ProductNonzero(2.0, AxialCube(r));
      Vec3(0 as real, (MU_0 * (PI * radius * radius * current)) / (2.0 * AxialCube(r)), 0 as real)
    else
      Zero
  }

  lemma AxialCubePositive(r: Vec3)
    requires r.y != 0 as real
    ensures 0 as real < AxialCube(r)
  {
    MulPos(Abs(r.y), Abs(r.y));
    MulPos(Abs(r.y) * Abs(r.y), Abs(r.y));
  }

  /** What one source adds to the magnetic field at `position`. */
  function MagneticContribution(math: MathLib, position: Vec3, source: FieldSource): Vec3 {
    if !IsMagneticKind(source.kind) then Zero
    else
      var r := Sub(position, source.position);
      var distance := Length(math, r);
      if distance < SINGULARITY_RADIUS then Zero
      else
        var current := NumberOr(source.current, 0 as real);
        if source.kind == Wire then
          WireField(math, r, distance, current, source.direction.Or(WIRE_AXIS))
        else if source.kind == Loop then
          LoopContribution(r, current, NumberOr(source.radius, 1.0))
        else
          SolenoidField(math, r, distance, current,
            NumberOr(source.radius, 0.5), NumberOr(source.length, 2.0), NumberOr(source.turns, 50.0))
  }

  function MagneticTerm(math: MathLib, position: Vec3): FieldSource -> Vec3 {
    source => MagneticContribution(math, position, source)
  }

  /** The magnetic field at `position`: the sum of the contributions. */
  function MagneticField(math: MathLib, position: Vec3, sources: seq<FieldSource>): Vec3 {
    SumOf(MagneticTerm(math, position), sources)
  }

  /** `calculateMagneticField`. */
  method CalculateMagneticField(math: MathLib, position: Vec3, sources: seq<FieldSource>)
    returns (totalField: Vec3)
    ensures totalField == MagneticField(math, position, sources)
  {
    totalField := Zero;
    for i := 0 to |sources|
      invariant totalField == SumOf(MagneticTerm(math, position), sources[..i])
    {
      var source := sources[i];
      assert sources[..i + 1][..i] == sources[..i];
      if !IsMagneticKind(source.kind) {
        continue;
      }
      var r := Sub(position, source.position);
      var distance := Length(math, r);
      if distance < SINGULARITY_RADIUS {
        continue;
      }
      var current := NumberOr(source.current, 0 as real);
      if source.kind == Wire {
        var wireDirection := source.direction.Or(WIRE_AXIS);
        totalField := Add(totalField, WireField(math, r, distance, current, wireDirection));
      } else if source.kind == Loop {
        var radius := NumberOr(source.radius, 1.0);
        totalField := Add(totalField, LoopContribution(r, current, radius));
      } else {
        var radius := NumberOr(source.radius, 0.5);
        var length := NumberOr(source.length, 2.0);
        var turns := NumberOr(source.turns, 50.0);
        totalField := Add(totalField, SolenoidField(math, r, distance, current, radius, length, turns));
      }
    }
    assert sources[..|sources|] == sources;
  }

  /** `AlongUnit` keeps orthogonality, has the requested length, and its
      component along `v` is `magnitude·|v|`. */
  lemma AlongUnitLaws(math: MathLib, v: Vec3, magnitude: real, b: Vec3)
    requires SqrtLaw(math) && v != Zero
    ensures Length(math, v) != 0 as real
    ensures Dot(v, b) == 0 as real ==> Dot(AlongUnit(v, magnitude, Length(math, v)), b) == 0 as real
    ensures Length(math, AlongUnit(v, magnitude, Length(math, v))) == Abs(magnitude)
    ensures Dot(AlongUnit(v, magnitude, Length(math, v)), v) == magnitude * Length(math, v)
  {
    LengthZero(math, v);
    var l := Length(math, v);
    assert l * l == NormSq(v);
    var k := magnitude / l;
    AlongUnitIsScale(v, magnitude, l);
    var w := AlongUnit(v, magnitude, l);
    if Dot(v, b) == 0 as real {
      ScaleKeepsOrthogonal(v, k, b);
    }
    ScaledNorms(v, k, l, magnitude);
    assert NormSq(w) == magnitude * magnitude;
    SqrtOfSquare(math, magnitude);
  }

  /** For `k·l = m` and `|v|² = l²`: `|k·v|² = m²` and `(k·v)·v = m·l`. */
  lemma ScaledNorms(v: Vec3, k: real, l: real, m: real)
    requires k * l == m && l * l == NormSq(v)
    ensures NormSq(Scale(v, k)) == m * m
    ensures Dot(Scale(v, k), v) == m * l
  {
    NormSqScale(v, k);
    DotScale(v, k, v);
    ScaledSquare(k, l, m);
  }

  lemma AlongUnitIsScale(v: Vec3, magnitude: real, l: real)
    requires l != 0 as real
    ensures AlongUnit(v, magnitude, l) == Scale(v, magnitude / l)
    ensures (magnitude / l) * l == magnitude
  {
    var k := magnitude / l;
    assert magnitude * v.x / l == v.x * k;
    assert magnitude * v.y / l == v.y * k;
    assert magnitude * v.z / l == v.z * k;
  }

  lemma ScaledSquare(k: real, l: real, m: real)
    requires k * l == m
    ensures (k * k) * (l * l) == m * m
    ensures k * (l * l) == m * l
  {
    assert (k * k) * (l * l) == (k * l) * (k * l);
    assert k * (l * l) == (k * l) * l;
  }

  /** The field of a wire is perpendicular to the wire and to `r`, vanishes
      when `r` is parallel to the wire, has the magnitude `μ0·|I|/(2πd)`
      otherwise, and turns with the right-hand rule around the direction of
      the current. */
  lemma WireFieldLaws(math: MathLib, r: Vec3, distance: real, current: real, wireDirection: Vec3)
    requires SqrtLaw(math) && 0 as real < distance
    ensures var b := WireField(math, r, distance, current, wireDirection);
      && Dot(b, wireDirection) == 0 as real && Dot(b, r) == 0 as real
      && (Cross(wireDirection, r) == Zero ==> b == Zero)
      && (Cross(wireDirection, r) != Zero ==> Length(math, b) == WireMagnitude(current, distance))
      && (Cross(wireDirection, r) != Zero && current > 0 as real ==> Dot(b, Cross(wireDirection, r)) > 0 as real)
      && (Cross(wireDirection, r) != Zero && current < 0 as real ==> Dot(b, Cross(wireDirection, r)) < 0 as real)
  {
    var cp := Cross(wireDirection, r);
    LengthZero(math, cp);
    CrossOrthogonal(wireDirection, r);
    if cp != Zero {
      var m := CurrentSign(current) * WireMagnitude(current, distance);
      AlongUnitLaws(math, cp, m, wireDirection);
      AlongUnitLaws(math, cp, m, r);
      var wm := WireMagnitude(current, distance);
      MulPos(2.0 * PI, distance);
      DivNonneg(MU_0 * Abs(current), 2.0 * PI * distance);
      assert Abs(m) == wm;
      var l := Length(math, cp);
      if current != 0 as real {
        MulPos(MU_0, Abs(current));
        DivPos(MU_0 * Abs(current), 2.0 * PI * distance);
        if current > 0 as real {
          MulPos(m, l);
        } else {
          MulPos(-m, l);
          assert m * l == -((-m) * l);
        }
      }
    }
  }

  /** As written, the loop's field does not depend on the direction of the
      current: the moment already carries the sign of `I`, and the source
      negates it once more when `I` is not positive. */
  lemma LoopFieldIgnoresCurrentDirection(r: Vec3, current: real, radius: real)
    requires r.y != 0 as real
    ensures LoopFieldAsWritten(r, -current, radius) == LoopFieldAsWritten(r, current, radius)
  {
    AxialCubePositive(r);
    ProductNonzero(2.0, AxialCube(r));
    if NearLoopAxis(r) && current != 0 as real {
      var q := 2.0 * AxialCube(r);
      var mPos := MU_0 * (PI * radius * radius * current);
      var mNeg := MU_0 * (PI * radius * radius * -current);
      assert mNeg == -mPos;
      assert mNeg / q == -(mPos / q);
    }
  }

  /** Concretely: one unit of current up or down gives the same, positive,
      field on the axis. */
  lemma LoopFieldSameForOppositeCurrents()
    ensures LoopFieldAsWritten(Vec3(0 as real, 1.0, 0 as real), 1.0, 1.0)
      == LoopFieldAsWritten(Vec3(0 as real, 1.0, 0 as real), -1.0, 1.0)
    ensures LoopFieldAsWritten(Vec3(0 as real, 1.0, 0 as real), -1.0, 1.0).Some?
    ensures LoopFieldAsWritten(Vec3(0 as real, 1.0, 0 as real), -1.0, 1.0).value.y > 0 as real
  {
    LoopFieldIgnoresCurrentDirection(Vec3(0 as real, 1.0, 0 as real), 1.0, 1.0);
    var r := Vec3(0 as real, 1.0, 0 as real);
    assert AxialCube(r) == 1.0;
  }

  /** As written, a point 0.05 from the loop's centre in its plane passes the
      0.01 singularity guard and reaches the division by `|r.y|³ = 0`. */
  lemma LoopFieldDividesByZero(math: MathLib)
    requires SqrtLaw(math)
    ensures var r := Vec3(0.05, 0 as real, 0 as real);
      && Length(math, r) >= SINGULARITY_RADIUS
      && LoopFieldAsWritten(r, 1.0, 1.0).None?
  {
    var r := Vec3(0.05, 0 as real, 0 as real);
    assert NormSq(r) == 0.05 * 0.05;
    SqrtOfSquare(math, 0.05);
  }

  /** The corrected loop field reverses with the current, only has a
      component along the axis, and agrees with the source wherever the
      source divides by a non-zero number and the current is positive. */
  lemma LoopFieldLaws(r: Vec3, current: real, radius: real)
    ensures LoopField(r, -current, radius) == Scale(LoopField(r, current, radius), -1.0)
    ensures LoopField(r, current, radius).x == 0 as real && LoopField(r, current, radius).z == 0 as real
    ensures !NearLoopAxis(r) ==> LoopField(r, current, radius) == Zero
    ensures LoopFieldAsWritten(r, current, radius).None? <==> NearLoopAxis(r) && r.y == 0 as real
    ensures 0 as real <= current && LoopFieldAsWritten(r, current, radius).Some?
      ==> LoopFieldAsWritten(r, current, radius).value == LoopField(r, current, radius)
  {
    if NearLoopAxis(r) && r.y != 0 as real {
      AxialCubePositive(r);
      ProductNonzero(2.0, AxialCube(r));
      var q := 2.0 * AxialCube(r);
      var mPos := MU_0 * (PI * radius * radius * current);
      var mNeg := MU_0 * (PI * radius * radius * -current);
      assert mNeg == -mPos;
      assert mNeg / q == -(mPos / q);
      assert -(mPos / q) == (mPos / q) * -1.0;
      if current == 0 as real {
        assert mPos == 0 as real;
        assert mPos / q == 0 as real;
      }
    }
  }

  /** The engine adds, for a current `I`, the corrected field of the current
      `|I|`: it never reverses with the current. Where the source divides by
      zero it adds nothing, as does the corrected field. */
  lemma LoopContributionIgnoresSign(r: Vec3, current: real, radius: real)
    ensures LoopContribution(r, current, radius) == LoopField(r, Abs(current), radius)
    ensures current < 0 as real && NearLoopAxis(r) && r.y != 0 as real && radius != 0 as real
      ==> (&& LoopContribution(r, current, radius) == Scale(LoopField(r, current, radius), -1.0)
           && LoopContribution(r, current, radius) != LoopField(r, current, radius))
  {
    LoopFieldLaws(r, current, radius);
    LoopFieldLaws(r, -current, radius);
    if NearLoopAxis(r) && r.y != 0 as real {
      AxialCubePositive(r);
      ProductNonzero(2.0, AxialCube(r));
      var q := 2.0 * AxialCube(r);
      var m := MU_0 * (PI * radius * radius * current);
      var mNeg := MU_0 * (PI * radius * radius * -current);
      assert mNeg == -m;
      assert mNeg / q == -(m / q);
      if current < 0 as real && radius != 0 as real {
        SquarePos(radius);
        MulPos(PI, radius * radius);
        MulPos(PI * (radius * radius), -current);
        assert PI * radius * radius * -current == PI * (radius * radius) * -current;
        MulPos(MU_0, PI * radius * radius * -current);
        DivPos(mNeg, q);
      }
    }
  }

  /** Inside a solenoid the field is exactly `μ0·(n/L)·I` along the axis;
      with `sqrt` the square root, "inside" means `x² + z² < R²` and
      `|y| < L/2` for a positive radius. */
  lemma SolenoidInsideRule(math: MathLib, r: Vec3, distance: real, current: real, radius: real, length: real, turns: real)
    requires SqrtLaw(math) && distance != 0 as real && length != 0 as real
    requires 0 as real < radius && AxialDistanceSq(r) < radius * radius && Abs(r.y) < length / 2.0
    ensures SolenoidField(math, r, distance, current, radius, length, turns)
      == Vec3(0 as real, MU_0 * (turns / length) * current, 0 as real)
  {
    SquareNonneg(r.x);
    SquareNonneg(r.z);
    SqrtBelow(math, AxialDistanceSq(r), radius);
  }

  /** On the axis outside the solenoid the dipole field is `2·μ0·m/(4π·d³)`
      along the axis: the textbook on-axis dipole law. */
  lemma DipoleOnAxis(r: Vec3, distance: real, moment: real)
    requires distance != 0 as real && r.x == 0 as real && r.z == 0 as real && distance * distance == r.y * r.y
    ensures DipoleOutside(r, distance, moment) == Vec3(0 as real, 2.0 * DipoleMagnitude(moment, distance), 0 as real)
  {
    ProductNonzero(distance, distance);
    var d2 := distance * distance;
    assert 3.0 * r.y * r.y / d2 == 3.0;
  }

  /** A source of another kind, or one too close to the point, contributes
      nothing to the magnetic field. */
  lemma MagneticFieldSkips(math: MathLib, position: Vec3, a: seq<FieldSource>, s: FieldSource, b: seq<FieldSource>)
    requires !IsMagneticKind(s.kind) || Length(math, Sub(position, s.position)) < SINGULARITY_RADIUS
    ensures MagneticField(math, position, a + [s] + b) == MagneticField(math, position, a + b)
  {
    var f := MagneticTerm(math, position);
    SumOfConcat(f, a + [s], b);
    SumOfConcat(f, a, [s]);
    SumOfSingleton(f, s);
    SumOfConcat(f, a, b);
    AddZero(SumOf(f, a));
  }

  /** Reordering the sources does not change the magnetic field. */
  lemma MagneticFieldOrderFree(math: MathLib, position: Vec3, a: seq<FieldSource>, b: seq<FieldSource>)
    requires multiset(a) == multiset(b)
    ensures MagneticField(math, position, a) == MagneticField(math, position, b)
  {
    SumOfPermutation(MagneticTerm(math, position), a, b);
  }

  /** Charges and dipoles make no magnetic field, wires, loops and solenoids
      no electric one. */
  lemma FieldsSeparate(math: MathLib, position: Vec3, sources: seq<FieldSource>, time: real)
    ensures (forall i :: 0 <= i < |sources| ==> IsElectricKind(sources[i].kind))
      ==> MagneticField(math, position, sources) == Zero
    ensures (forall i :: 0 <= i < |sources| ==> IsMagneticKind(sources[i].kind))
      ==> ElectricField(math, position, sources, time) == Zero
  {
    if forall i :: 0 <= i < |sources| ==> IsElectricKind(sources[i].kind) {
      SumOfAllZero(MagneticTerm(math, position), sources);
    }
    if forall i :: 0 <= i < |sources| ==> IsMagneticKind(sources[i].kind) {
      SumOfAllZero(ElectricTerm(math, position, time), sources);
    }
  }

  // ---------------------------------------------------------------------
  // Potential, Poynting vector, force and gradient.

  /** What one source adds to the potential: `k·q/d` for a charge at least
      0.01 away, nothing otherwise. */
  function PotentialContribution(math: MathLib, position: Vec3, source: FieldSource): real {
    if source.kind != Charge then 0 as real
    else
      var distance := Distance(math, position, source.position);
      if distance < SINGULARITY_RADIUS then 0 as real
      else (COULOMB_CONSTANT * source.strength) / distance
  }

  function PotentialTerm(math: MathLib, position: Vec3): FieldSource -> real {
    source => PotentialContribution(math, position, source)
  }

  function ElectricPotential(math: MathLib, position: Vec3, sources: seq<FieldSource>): real {
    ScalarSumOf(PotentialTerm(math, position), sources)
  }

  /** `calculateElectricPotential`. */
  method CalculateElectricPotential(math: MathLib, position: Vec3, sources: seq<FieldSource>)
    returns (totalPotential: real)
    ensures totalPotential == ElectricPotential(math, position, sources)
  {
    totalPotential := 0 as real;
    for i := 0 to |sources|
      invariant totalPotential == ScalarSumOf(PotentialTerm(math, position), sources[..i])
    {
      var source := sources[i];
      assert sources[..i + 1][..i] == sources[..i];
      if source.kind != Charge {
        continue;
      }
      var distance := Distance(math, position, source.position);
      if distance < SINGULARITY_RADIUS {
        continue;
      }
      totalPotential := totalPotential + (COULOMB_CONSTANT * source.strength) / distance;
    }
    assert sources[..|sources|] == sources;
  }

  /** Positive charges never make a negative potential. */
  lemma {:induction false} PotentialOfPositiveCharges(math: MathLib, position: Vec3, sources: seq<FieldSource>)
    requires forall i :: 0 <= i < |sources| ==> 0 as real <= sources[i].strength
    ensures 0 as real <= ElectricPotential(math, position, sources)
    decreases |sources|
  {
    if |sources| > 0 {
      var last := sources[|sources| - 1];
      PotentialOfPositiveCharges(math, position, sources[..|sources| - 1]);
      var distance := Distance(math, position, last.position);
      if last.kind == Charge && distance >= SINGULARITY_RADIUS {
        MulNonneg(COULOMB_CONSTANT, last.strength);
        DivNonneg(COULOMB_CONSTANT * last.strength, distance);
      }
    }
  }

  /** Only charges have a potential; dipoles, which do make an electric
      field, do not. */
  lemma PotentialIgnoresDipoles(math: MathLib, position: Vec3, sources: seq<FieldSource>)
    requires forall i :: 0 <= i < |sources| ==> sources[i].kind != Charge
    ensures ElectricPotential(math, position, sources) == 0 as real
  {
    ScalarSumOfAllZero(PotentialTerm(math, position), sources);
  }

  /** For a static charge the field's component along `r` equals the
      potential: both are `k·q/d`. */
  lemma PotentialMatchesField(math: MathLib, position: Vec3, source: FieldSource, time: real)
    requires SqrtLaw(math) && source.kind == Charge && !PositiveNumber(source.frequency)
    ensures Dot(ElectricContribution(math, position, time, source), Sub(position, source.position))
      == PotentialContribution(math, position, source)
  {
    var r := Sub(position, source.position);
    LengthZero(math, r);
    if Length(math, r) >= SINGULARITY_RADIUS {
      CoulombFieldLaws(math, r, source.strength);
    }
  }

  /** `calculatePoyntingVector`: `(1/μ0)·(E × B)`. */
  function PoyntingVector(electricField: Vec3, magneticField: Vec3): Vec3 {
    var crossProduct := Cross(electricField, magneticField);
    var factor := 1.0 / MU_0;
    Vec3(factor * crossProduct.x, factor * crossProduct.y, factor * crossProduct.z)
  }

  /** The vacuum Poynting vector is the material-aware one wherever no
      material contains the point, so it inherits its laws: orthogonal to
      both fields, zero when either is, and `μ0·S = E × B`. */
  lemma PoyntingVectorInVacuum(
    math: MathLib, electricField: Vec3, magneticField: Vec3, materials: seq<Maxwell.Material>, position: Vec3)
    requires forall i :: 0 <= i < |materials| ==> !Maxwell.IsPositionInMaterial(math, position, materials[i])
    ensures Maxwell.GetMaterialAtPosition(math, position, materials).relativePermeability != 0 as real
    ensures PoyntingVector(electricField, magneticField)
      == Maxwell.PoyntingVector(math, electricField, magneticField, materials, position)
    ensures var s := PoyntingVector(electricField, magneticField);
      && Dot(s, electricField) == 0 as real && Dot(s, magneticField) == 0 as real
      && (electricField == Zero || magneticField == Zero ==> s == Zero)
      && Scale(s, MU_0) == Cross(electricField, magneticField)
  {
    assert Maxwell.Permeability(Maxwell.Vacuum) == MU_0;
    Maxwell.CrossOverPermeabilityLaws(electricField, magneticField, MU_0);
  }

  /** `calculateForce`: `F = q·E`. */
  method CalculateForce(math: MathLib, position: Vec3, testCharge: real, sources: seq<FieldSource>)
    returns (force: Vec3)
    ensures force == Scale(ElectricField(math, position, sources, 0 as real), testCharge)
  {
    var electricField := CalculateElectricField(math, position, sources, 0 as real);
    force := Scale(electricField, testCharge);
  }

  /** Coulomb's force: from one static charge at least 0.01 away, the force
      on a test charge is parallel to `r`, and its component along `r` is
      `q_t·k·q/d`; so like charges repel and unlike ones attract. */
  lemma ForceOfOneCharge(math: MathLib, position: Vec3, testCharge: real, source: FieldSource)
    requires SqrtLaw(math) && source.kind == Charge && !PositiveNumber(source.frequency)
    requires Length(math, Sub(position, source.position)) >= SINGULARITY_RADIUS
    ensures Cross(Scale(ElectricField(math, position, [source], 0 as real), testCharge), Sub(position, source.position)) == Zero
    ensures Dot(Scale(ElectricField(math, position, [source], 0 as real), testCharge), Sub(position, source.position))
      == testCharge * ((COULOMB_CONSTANT * source.strength) / Length(math, Sub(position, source.position)))
  {
    var r := Sub(position, source.position);
    LengthZero(math, r);
    SumOfSingleton(ElectricTerm(math, position, 0 as real), source);
    var f := CoulombField(r, Length(math, r), source.strength);
    assert ElectricField(math, position, [source], 0 as real) == f;
    CoulombFieldLaws(math, r, source.strength);
    DotScale(f, testCharge, r);
    assert Cross(Scale(f, testCharge), r) == Scale(Cross(f, r), testCharge);
  }

  /** `calculateFieldGradient`: the absolute forward difference of the
      field's magnitude along x. */
  method CalculateFieldGradient(math: MathLib, position: Vec3, sources: seq<FieldSource>, delta: real)
    returns (gradient: real)
    requires delta != 0 as real
    ensures var centre := Length(math, ElectricField(math, position, sources, 0 as real));
      var shifted := Length(math, ElectricField(math, Vec3(position.x + delta, position.y, position.z), sources, 0 as real));
      && 0 as real <= gradient
      && gradient * Abs(delta) == Abs(shifted - centre)
  {
    var centerField := CalculateElectricField(math, position, sources, 0 as real);
    var centerMagnitude := Length(math, centerField);
    var xField := CalculateElectricField(math, Vec3(position.x + delta, position.y, position.z), sources, 0 as real);
    var xMagnitude := Length(math, xField);
    var g := (xMagnitude - centerMagnitude) / delta;
    gradient := Abs(g);
    DifferenceQuotient(xMagnitude - centerMagnitude, delta);
  }

  lemma DifferenceQuotient(d: real, delta: real)
    requires delta != 0 as real
    ensures Abs(d / delta) * Abs(delta) == Abs(d)
  {
    assert (d / delta) * delta == d;
    if d / delta < 0 as real && delta < 0 as real {
      assert Abs(d / delta) * Abs(delta) == (d / delta) * delta;
    } else if d / delta < 0 as real {
      assert Abs(d / delta) * Abs(delta) == -((d / delta) * delta);
    } else if delta < 0 as real {
      assert Abs(d / delta) * Abs(delta) == -((d / delta) * delta);
    }
  }

  // ---------------------------------------------------------------------
  // Field-line tracers.

  /** One step of `generateFieldLine`: `stepSize` along the electric field
      at time 0. */
  function ElectricStep(math: MathLib, p: Vec3, sources: seq<FieldSource>, stepSize: real): Vec3 {
    Add(p, Scale(Normalize(math, ElectricField(math, p, sources, 0 as real)), stepSize))
  }

  predicate WeakElectric(math: MathLib, p: Vec3, sources: seq<FieldSource>) {
    Length(math, ElectricField(math, p, sources, 0 as real)) < 1e-6
  }

  /** Point `k + 1` is one step from point `k`, whose field was not too
      weak, and lies within 50 of the origin. */
  predicate ElectricStepAt(math: MathLib, points: seq<Vec3>, k: int, sources: seq<FieldSource>, stepSize: real)
    requires 0 <= k < |points| - 1
  {
    && !WeakElectric(math, points[k], sources)
    && points[k + 1] == ElectricStep(math, points[k], sources, stepSize)
    && Length(math, points[k + 1]) <= 50.0
  }

  predicate FollowsElectricField(math: MathLib, points: seq<Vec3>, sources: seq<FieldSource>, stepSize: real) {
    forall k :: 0 <= k < |points| - 1 ==> ElectricStepAt(math, points, k, sources, stepSize)
  }

  /** Appending the next step keeps a traced line a traced line. */
  lemma ExtendElectricLine(math: MathLib, points: seq<Vec3>, x: Vec3, sources: seq<FieldSource>, stepSize: real)
    requires FollowsElectricField(math, points, sources, stepSize)
    requires 0 < |points| ==>
      && !WeakElectric(math, points[|points| - 1], sources)
      && x == ElectricStep(math, points[|points| - 1], sources, stepSize)
      && Length(math, x) <= 50.0
    ensures FollowsElectricField(math, points + [x], sources, stepSize)
  {
    var q := points + [x];
    forall k | 0 <= k < |q| - 1
      ensures ElectricStepAt(math, q, k, sources, stepSize)
    {
      if k < |points| - 1 {
        assert ElectricStepAt(math, points, k, sources, stepSize);
        assert q[k] == points[k] && q[k + 1] == points[k + 1];
      } else {
        assert q[k] == points[|points| - 1] && q[k + 1] == x;
      }
    }
  }

  /** The tracer stops at `p`: its field is too weak, or the next step
      leaves the radius-50 ball. */
  predicate StopsElectric(math: MathLib, p: Vec3, sources: seq<FieldSource>, stepSize: real) {
    WeakElectric(math, p, sources) || Length(math, ElectricStep(math, p, sources, stepSize)) > 50.0
  }

  /** `generateFieldLine`: at most `maxSteps` points, starting at `start`,
      each a step along the field from the one before, ending early only
      where the field is too weak or the line leaves the radius-50 ball. */
  method GenerateFieldLine(math: MathLib, start: Vec3, sources: seq<FieldSource>, stepSize: real, maxSteps: int)
    returns (points: seq<Vec3>)
    ensures maxSteps <= 0 ==> points == []
    ensures 0 < maxSteps ==> 1 <= |points| <= maxSteps && points[0] == start
    ensures FollowsElectricField(math, points, sources, stepSize)
    ensures 0 < |points| < maxSteps ==> StopsElectric(math, points[|points| - 1], sources, stepSize)
  {
    points := [];
    var currentPosition := start;
    var step := 0;
    while step < maxSteps
      invariant 0 <= step == |points| && (step <= maxSteps || step == 0)
      invariant step == 0 ==> currentPosition == start
      invariant 0 < step ==>
        && points[0] == start
        && !WeakElectric(math, points[step - 1], sources)
        && currentPosition == ElectricStep(math, points[step - 1], sources, stepSize)
        && Length(math, currentPosition) <= 50.0
      invariant FollowsElectricField(math, points, sources, stepSize)
    {
      ExtendElectricLine(math, points, currentPosition, sources, stepSize);
      points := points + [currentPosition];
      var field := CalculateElectricField(math, currentPosition, sources, 0 as real);
      if Length(math, field) < 1e-6 {
        break;
      }
      var fieldVector := Scale(Normalize(math, field), stepSize);
      currentPosition := Add(currentPosition, fieldVector);
      if Length(math, currentPosition) > 50.0 {
        break;
      }
      step := step + 1;
    }
  }

  /** Whether `generateMagneticFieldLine` can take its step: the circular
      step around a wire reads the first source. */
  predicate StepDefined(sources: seq<FieldSource>, sourceType: string) {
    sourceType != "wire" || 0 < |sources|
  }

  /** One step of `generateMagneticFieldLine`: around the first source's
      axis for a wire, along the magnetic field otherwise. */
  function MagneticStep(math: MathLib, p: Vec3, sources: seq<FieldSource>, sourceType: string, stepSize: real): Vec3
    requires StepDefined(sources, sourceType)
  {
    if sourceType == "wire" then
      var source := sources[0];
      var toSource := Sub(p, source.position);
      var wireDir := source.direction.Or(WIRE_AXIS);
      Add(p, Scale(Normalize(math, Cross(wireDir, toSource)), stepSize))
    else
      Add(p, Scale(Normalize(math, MagneticField(math, p, sources)), stepSize))
  }

  predicate WeakMagnetic(math: MathLib, p: Vec3, sources: seq<FieldSource>) {
    Length(math, MagneticField(math, p, sources)) < 1e-12
  }

  /** The circle around a wire closes after step `k`: past step 50 the
      step lands within two step sizes of the start. */
  predicate Closes(
    math: MathLib, start: Vec3, k: int, p: Vec3, sources: seq<FieldSource>, sourceType: string, stepSize: real)
    requires StepDefined(sources, sourceType)
  {
    sourceType == "wire" && k > 50
      && Distance(math, MagneticStep(math, p, sources, sourceType, stepSize), start) < stepSize * 2.0
  }

  /** Point `k + 1` is one step from point `k`, whose field was not too
      weak and whose step did not close a circle, and lies within 20 of the
      origin. */
  predicate MagneticStepAt(
    math: MathLib, start: Vec3, points: seq<Vec3>, k: int, sources: seq<FieldSource>, sourceType: string, stepSize: real)
    requires 0 <= k < |points| - 1
  {
    && !WeakMagnetic(math, points[k], sources)
    && StepDefined(sources, sourceType)
    && !Closes(math, start, k, points[k], sources, sourceType, stepSize)
    && points[k + 1] == MagneticStep(math, points[k], sources, sourceType, stepSize)
    && Length(math, points[k + 1]) <= 20.0
  }

  predicate FollowsMagneticField(
    math: MathLib, start: Vec3, points: seq<Vec3>, sources: seq<FieldSource>, sourceType: string, stepSize: real)
  {
    forall k :: 0 <= k < |points| - 1 ==> MagneticStepAt(math, start, points, k, sources, sourceType, stepSize)
  }

  /** Appending the next step keeps a traced magnetic line a traced line. */
  lemma ExtendMagneticLine(
    math: MathLib, start: Vec3, points: seq<Vec3>, x: Vec3, sources: seq<FieldSource>, sourceType: string, stepSize: real)
    requires FollowsMagneticField(math, start, points, sources, sourceType, stepSize)
    requires 0 < |points| ==>
      && !WeakMagnetic(math, points[|points| - 1], sources)
      && StepDefined(sources, sourceType)
      && !Closes(math, start, |points| - 1, points[|points| - 1], sources, sourceType, stepSize)
      && x == MagneticStep(math, points[|points| - 1], sources, sourceType, stepSize)
      && Length(math, x) <= 20.0
    ensures FollowsMagneticField(math, start, points + [x], sources, sourceType, stepSize)
  {
    var q := points + [x];
    forall k | 0 <= k < |q| - 1
      ensures MagneticStepAt(math, start, q, k, sources, sourceType, stepSize)
    {
      if k < |points| - 1 {
        assert MagneticStepAt(math, start, points, k, sources, sourceType, stepSize);
        assert q[k] == points[k] && q[k + 1] == points[k + 1];
      } else {
        assert q[k] == points[|points| - 1] && q[k + 1] == x;
      }
    }
  }

  /** The magnetic tracer stops at the `k`-th point `p` without closing a
      circle: the field is too weak, or the step leaves the radius-20 ball. */
  predicate StopsMagnetic(
    math: MathLib, start: Vec3, k: int, p: Vec3, sources: seq<FieldSource>, sourceType: string, stepSize: real)
  {
    WeakMagnetic(math, p, sources)
    || (StepDefined(sources, sourceType)
        && !Closes(math, start, k, p, sources, sourceType, stepSize)
        && Length(math, MagneticStep(math, p, sources, sourceType, stepSize)) > 20.0)
  }

  /** A closed circle: the traced points, then the start once more. */
  predicate ClosedCircle(
    math: MathLib, start: Vec3, points: seq<Vec3>, sources: seq<FieldSource>, sourceType: string, stepSize: real)
  {
    && 2 <= |points| && points[|points| - 1] == start
    && FollowsMagneticField(math, start, points[..|points| - 1], sources, sourceType, stepSize)
    && !WeakMagnetic(math, points[|points| - 2], sources)
    && StepDefined(sources, sourceType)
    && Closes(math, start, |points| - 2, points[|points| - 2], sources, sourceType, stepSize)
  }

  /** Without sources there is no magnetic field. */
  lemma NoSourcesWeak(math: MathLib, p: Vec3, sources: seq<FieldSource>)
    requires SqrtLaw(math) && |sources| == 0
    ensures WeakMagnetic(math, p, sources)
  {
    LengthZero(math, Zero);
  }

  /** `generateMagneticFieldLine`: either a closed circle around a wire
      (the traced points and the start again), or at most `maxSteps` points
      from `start`, each a step from the one before, ending early only where
      the field is too weak or the line leaves the radius-20 ball. */
  method GenerateMagneticFieldLine(
    math: MathLib, start: Vec3, sources: seq<FieldSource>, sourceType: string, stepSize: real, maxSteps: int
  ) returns (points: seq<Vec3>)
    requires SqrtLaw(math)
    ensures maxSteps <= 0 ==> points == []
    ensures 0 < maxSteps ==> 1 <= |points| <= maxSteps + 1 && points[0] == start
    ensures ClosedCircle(math, start, points, sources, sourceType, stepSize)
      || (&& (maxSteps <= 0 || |points| <= maxSteps)
          && FollowsMagneticField(math, start, points, sources, sourceType, stepSize)
          && (0 < |points| < maxSteps ==>
                StopsMagnetic(math, start, |points| - 1, points[|points| - 1], sources, sourceType, stepSize)))
  {
    points := [];
    var currentPosition := start;
    var step := 0;
    while step < maxSteps
      invariant 0 <= step == |points| && (step <= maxSteps || step == 0)
      invariant step == 0 ==> currentPosition == start
      invariant 0 < step ==>
        && points[0] == start
        && !WeakMagnetic(math, points[step - 1], sources)
        && StepDefined(sources, sourceType)
        && !Closes(math, start, step - 1, points[step - 1], sources, sourceType, stepSize)
        && currentPosition == MagneticStep(math, points[step - 1], sources, sourceType, stepSize)
        && Length(math, currentPosition) <= 20.0
      invariant FollowsMagneticField(math, start, points, sources, sourceType, stepSize)
    {
      ExtendMagneticLine(math, start, points, currentPosition, sources, sourceType, stepSize);
      points := points + [currentPosition];
      var field := CalculateMagneticField(math, currentPosition, sources);
      if Length(math, field) < 1e-12 {
        break;
      }
      if |sources| == 0 {
        NoSourcesWeak(math, currentPosition, sources);
        assert false;
      }
      var here := currentPosition;
      if sourceType == "wire" {
        var source := sources[0];
        var sourcePos := source.position;
        var toSource := Sub(currentPosition, sourcePos);
        var wireDir := source.direction.Or(WIRE_AXIS);
        var tangent := Scale(Normalize(math, Cross(wireDir, toSource)), stepSize);
        currentPosition := Add(currentPosition, tangent);
        if step > 50 && Distance(math, currentPosition, start) < stepSize * 2.0 {
          var traced := points;
          points := points + [start];
          assert points[..|points| - 1] == traced && points[|points| - 2] == here;
          assert Closes(math, start, |points| - 2, points[|points| - 2], sources, sourceType, stepSize);
          break;
        }
      } else {
        var fieldVector := Scale(Normalize(math, field), stepSize);
        currentPosition := Add(currentPosition, fieldVector);
      }
      assert currentPosition == MagneticStep(math, here, sources, sourceType, stepSize);
      if Length(math, currentPosition) > 20.0 {
        break;
      }
      step := step + 1;
    }
  }
}
