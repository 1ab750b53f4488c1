/** The simplified electric field that the two visualisations compute for
    themselves from the store's sources: the 3D scene's field-line helper
    (constant `k = 8.99e9`, sources closer than 0.1 skipped) and the vector
    field's grid sampler (`k = 1`, sources closer than 0.5 skipped). Both
    sum `k·q/d²` along `r.normalize()` over every source, whatever its kind. */
module ViewFields {
  import opened Vectors
  import opened Superposition
  import Store
  import Options
  import Physics

  /** `k·q/d²`. */
  function InverseSquare(k: real, strength: real, distance: real): real
    requires distance != 0 as real
  {
    ProductNonzero(distance, distance);
    (k * strength) / (distance * distance)
  }

  /** What one source adds at `position`, for constant `k` and skip
      radius `cutoff`. */
  function PointContribution(math: MathLib, position: Vec3, source: Store.Source, k: real, cutoff: real): Vec3
    requires 0 as real < cutoff
  {
    var r := Sub(position, source.position);
    var distance := Length(math, r);
    if distance < cutoff then Zero
    else Scale(Normalize(math, r), InverseSquare(k, source.strength, distance))
  }

  function ViewTerm(math: MathLib, position: Vec3, k: real, cutoff: real): Store.Source -> Vec3
    requires 0 as real < cutoff
  {
    source => PointContribution(math, position, source, k, cutoff)
  }

  function ViewField(math: MathLib, position: Vec3, sources: seq<Store.Source>, k: real, cutoff: real): Vec3
    requires 0 as real < cutoff
  {
    SumOf(ViewTerm(math, position, k, cutoff), sources)
  }

  /** The loop both `calculateElectricField` (3D scene) and
      `calculateFieldAtPoint` (vector field) run. */
  method CalculateViewField(math: MathLib, position: Vec3, sources: seq<Store.Source>, k: real, cutoff: real)
    returns (field: Vec3)
    requires 0 as real < cutoff
    ensures field == ViewField(math, position, sources, k, cutoff)
  {
    field := Zero;
    for i := 0 to |sources|
      invariant field == SumOf(ViewTerm(math, position, k, cutoff), sources[..i])
    {
      var source := sources[i];
      assert sources[..i + 1][..i] == sources[..i];
      var r := Sub(position, source.position);
      var distance := Length(math, r);
      if distance < cutoff {
        continue;
      }
      var fieldMagnitude := InverseSquare(k, source.strength, distance);
      var fieldDirection := Normalize(math, r);
      field := Add(field, Scale(fieldDirection, fieldMagnitude));
    }
    assert sources[..|sources|] == sources;
  }

  /** A source closer than the cut-off contributes nothing; with no sources
      the field is zero. */
  lemma ViewFieldSkips(
    math: MathLib, position: Vec3, a: seq<Store.Source>, s: Store.Source, b: seq<Store.Source>, k: real, cutoff: real)
    requires 0 as real < cutoff && Length(math, Sub(position, s.position)) < cutoff
    ensures ViewField(math, position, a + [s] + b, k, cutoff) == ViewField(math, position, a + b, k, cutoff)
    ensures ViewField(math, position, [], k, cutoff) == Zero
  {
    var f := ViewTerm(math, position, k, cutoff);
    SumOfConcat(f, a + [s], b);
    SumOfConcat(f, a, [s]);
    SumOfSingleton(f, s);
    SumOfConcat(f, a, b);
    AddZero(SumOf(f, a));
  }

  /** A single source at least the cut-off away contributes `k·q/d²` along
      the unit vector from it to the point, whatever its kind. */
  lemma ViewFieldOfOne(math: MathLib, position: Vec3, s: Store.Source, k: real, cutoff: real)
    requires SqrtLaw(math) && 0 as real < cutoff
    requires Length(math, Sub(position, s.position)) >= cutoff
    ensures Length(math, Sub(position, s.position)) != 0 as real
    ensures ViewField(math, position, [s], k, cutoff)
         == Scale(Normalize(math, Sub(position, s.position)),
                  InverseSquare(k, s.strength, Length(math, Sub(position, s.position))))
    ensures NormSq(Normalize(math, Sub(position, s.position))) == 1.0
  {
    var r := Sub(position, s.position);
    LengthZero(math, r);
    NormalizeUnit(math, r);
    var f := ViewTerm(math, position, k, cutoff);
    SumOfSingleton(f, s);
    assert ViewField(math, position, [s], k, cutoff) == f(s);
  }

  /** Two source lists that agree on positions and strengths give the same
      field: the kind of a source is never read. */
  lemma {:induction false} ViewFieldIgnoresKind(
    math: MathLib, position: Vec3, a: seq<Store.Source>, b: seq<Store.Source>, k: real, cutoff: real)
    requires 0 as real < cutoff && |a| == |b|
    requires forall i :: 0 <= i < |a| ==> a[i].position == b[i].position && a[i].strength == b[i].strength
    ensures ViewField(math, position, a, k, cutoff) == ViewField(math, position, b, k, cutoff)
    decreases |a|
  {
    if |a| > 0 {
      ViewFieldIgnoresKind(math, position, a[..|a| - 1], b[..|b| - 1], k, cutoff);
    }
  }

  /** The field is linear in the constant: with `k` it is `k` times the
      field with constant 1. */
  lemma {:induction false} ViewFieldScales(math: MathLib, position: Vec3, sources: seq<Store.Source>, k: real, cutoff: real)
    requires 0 as real < cutoff
    ensures ViewField(math, position, sources, k, cutoff) == Scale(ViewField(math, position, sources, 1.0, cutoff), k)
    decreases |sources|
  {
    if |sources| > 0 {
      var s := sources[|sources| - 1];
      var init := sources[..|sources| - 1];
      ViewFieldScales(math, position, init, k, cutoff);
      ContributionScales(math, position, s, k, cutoff);
      assert ViewField(math, position, sources, k, cutoff)
          == Add(ViewField(math, position, init, k, cutoff), PointContribution(math, position, s, k, cutoff));
      assert ViewField(math, position, sources, 1.0, cutoff)
          == Add(ViewField(math, position, init, 1.0, cutoff), PointContribution(math, position, s, 1.0, cutoff));
      ScaleAdd(ViewField(math, position, init, 1.0, cutoff), PointContribution(math, position, s, 1.0, cutoff), k);
    }
  }

  lemma ScaleAdd(a: Vec3, b: Vec3, k: real)
    ensures Scale(Add(a, b), k) == Add(Scale(a, k), Scale(b, k))
  {
  }

  lemma ContributionScales(math: MathLib, position: Vec3, source: Store.Source, k: real, cutoff: real)
    requires 0 as real < cutoff
    ensures PointContribution(math, position, source, k, cutoff)
      == Scale(PointContribution(math, position, source, 1.0, cutoff), k)
  {
    var r := Sub(position, source.position);
    var d := Length(math, r);
    if d >= cutoff {
      ScaledMagnitude(Normalize(math, r), k, source.strength, d);
    }
  }

  lemma ScaledMagnitude(n: Vec3, k: real, strength: real, d: real)
    requires d != 0 as real
    ensures Scale(n, InverseSquare(k, strength, d)) == Scale(Scale(n, InverseSquare(1.0, strength, d)), k)
  {
    ProductNonzero(d, d);
    var m1 := InverseSquare(1.0, strength, d);
    var mk := InverseSquare(k, strength, d);
    assert mk == m1 * k;
    assert n.x * mk == (n.x * m1) * k;
    assert n.y * mk == (n.y * m1) * k;
    assert n.z * mk == (n.z * m1) * k;
  }

  /** The engine's view of a store source: a static source of the same kind. */
  function AsFieldSource(source: Store.Source): Physics.FieldSource {
    Physics.FieldSource(
      source.position, source.strength,
      match source.kind
      case Charge => Physics.Charge
      case Dipole => Physics.Dipole
      case Current => Physics.Current,
      Options.None, Options.None, Options.None, Options.None, Options.None, Options.None, Options.None)
  }

  function AsFieldSources(sources: seq<Store.Source>): (r: seq<Physics.FieldSource>)
    ensures |r| == |sources|
    ensures forall i :: 0 <= i < |sources| ==> r[i] == AsFieldSource(sources[i])
  {
    seq(|sources|, i requires 0 <= i < |sources| => AsFieldSource(sources[i]))
  }

  /** With the engine's Coulomb constant, and every charge or dipole at least
      `cutoff` (and so at least 0.01) from the point, the visual field is the
      engine's electric field. */
  lemma {:induction false} ViewFieldIsEngineField(math: MathLib, position: Vec3, sources: seq<Store.Source>, cutoff: real)
    requires Physics.SINGULARITY_RADIUS <= cutoff
    requires forall i :: 0 <= i < |sources| ==>
      sources[i].kind != Store.Current && Length(math, Sub(position, sources[i].position)) >= cutoff
    ensures ViewField(math, position, sources, Physics.COULOMB_CONSTANT, cutoff)
      == Physics.ElectricField(math, position, AsFieldSources(sources), 0 as real)
    decreases |sources|
  {
    if |sources| > 0 {
      var n := |sources| - 1;
      var s := sources[n];
      ViewFieldIsEngineField(math, position, sources[..n], cutoff);
      assert AsFieldSources(sources)[..n] == AsFieldSources(sources[..n]);
      var r := Sub(position, s.position);
      var d := Length(math, r);
      CoulombAsScale(r, d, s.strength);
    }
  }

  /** The engine's component-wise Coulomb field is `k·q/d²` times `r/d`. */
  lemma CoulombAsScale(r: Vec3, d: real, strength: real)
    requires d != 0 as real
    ensures Physics.CoulombField(r, d, strength)
      == Scale(Scale(r, 1.0 / d), InverseSquare(Physics.COULOMB_CONSTANT, strength, d))
  {
    ProductNonzero(d, d);
    var m := InverseSquare(Physics.COULOMB_CONSTANT, strength, d);
    var u := 1.0 / d;
    assert r.x / d * m == (r.x * u) * m;
    assert r.y / d * m == (r.y * u) * m;
    assert r.z / d * m == (r.z * u) * m;
  }
}
