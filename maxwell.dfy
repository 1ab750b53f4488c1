/** The material-aware electrodynamics engine: lookup of the material at a
    point, point-in-volume tests, the two finite-difference induction rules,
    the Poynting vector, dipole radiation, material scaling of fields, wave
    impedance and velocity, and electromagnetic energy density. */
module Maxwell {
  import opened Vectors
  import opened Options

  const EPSILON_0: real := 8.854e-12
  const MU_0: real := 4.0 * PI * 1e-7
  /** The speed of light. */
  const C: real := 299792458.0

  datatype GeometryType = Sphere | Box | Cylinder | OtherGeometry

  /** `dimensions` is `[radius, -, -]` for a sphere, `[width, height, depth]`
      for a box and `[radius, height, -]` for a cylinder. */
  datatype Geometry = Geometry(kind: GeometryType, position: Vec3, dimensions: Vec3)

  datatype Material = Material(
    id: string,
    name: string,
    relativePermittivity: real,
    relativePermeability: real,
    conductivity: real,
    geometry: Geometry)

  /** One entry of a field history. */
  datatype FieldSample = FieldSample(field: Vec3, time: real)

  datatype WaveSourceType = DipoleAntenna | MonopoleAntenna | LoopAntenna

  datatype WaveSource = WaveSource(
    id: string,
    kind: WaveSourceType,
    position: Vec3,
    orientation: Vec3,
    frequency: real,
    amplitude: real,
    phase: real,
    length: Option<real>)

  datatype Radiation = Radiation(electric: Vec3, magnetic: Vec3)

  datatype FieldType = Electric | Magnetic

  /** What the lookup returns when no material contains the point. Its
      sphere radius is `Infinity` in the source; no operation reads it. */
  const Vacuum: Material := Material(
    "vacuum", "Vacuum", 1.0, 1.0, 0 as real,
    Geometry(Sphere, Zero, Vec3(0 as real, 0 as real, 0 as real)))

  /** `μ = μ0·μr` of a material. */
  function Permeability(material: Material): real {
    MU_0 * material.relativePermeability
  }

  /** `ε = ε0·εr` of a material. */
  function Permittivity(material: Material): real {
    EPSILON_0 * material.relativePermittivity
  }

  // ---------------------------------------------------------------------
  // Materials.

  /** The offset of a point from a geometry's reference position. */
  function Offset(position: Vec3, g: Geometry): Vec3 {
    Sub(position, g.position)
  }

  /** The squared distance from a geometry's vertical axis, in the x-z plane. */
  function RadialDistanceSq(position: Vec3, g: Geometry): real {
    var d := Offset(position, g);
    d.x * d.x + d.z * d.z
  }

  /** `isPositionInMaterial`. */
  predicate IsPositionInMaterial(math: MathLib, position: Vec3, material: Material) {
    var g := material.geometry;
    var d := Offset(position, g);
    match g.kind
    case Sphere => d.x * d.x + d.y * d.y + d.z * d.z <= g.dimensions.x * g.dimensions.x
    case Box =>
      Abs(d.x) <= g.dimensions.x / 2.0 && Abs(d.y) <= g.dimensions.y / 2.0 && Abs(d.z) <= g.dimensions.z / 2.0
    case Cylinder =>
      math.sqrt(RadialDistanceSq(position, g)) <= g.dimensions.x && Abs(d.y) <= g.dimensions.y / 2.0
    case OtherGeometry => false
  }

  /** The volume of a geometry, written without square roots or absolute
      values: a closed ball, a closed box centred on the geometry's position,
      and a vertical closed cylinder whose radial test is on the squared
      distance in the x-z plane (a negative radius contains nothing). */
  ghost predicate InVolume(position: Vec3, g: Geometry) {
    var d := Offset(position, g);
    var w, h, depth := g.dimensions.x, g.dimensions.y, g.dimensions.z;
    match g.kind
    case Sphere => NormSq(d) <= w * w
    case Box => -w / 2.0 <= d.x <= w / 2.0 && -h / 2.0 <= d.y <= h / 2.0 && -depth / 2.0 <= d.z <= depth / 2.0
    case Cylinder => 0 as real <= w && RadialDistanceSq(position, g) <= w * w && -h / 2.0 <= d.y <= h / 2.0
    case OtherGeometry => false
  }

  /** The containment test agrees with the volume it describes. */
  lemma ContainmentRules(math: MathLib, position: Vec3, material: Material)
    requires SqrtLaw(math)
    ensures IsPositionInMaterial(math, position, material) <==> InVolume(position, material.geometry)
  {
    var g := material.geometry;
    if g.kind == Cylinder {
      var d := Offset(position, g);
      var q := RadialDistanceSq(position, g);
      var w := g.dimensions.x;
      SquareNonneg(d.x);
      SquareNonneg(d.z);
      assert 0 as real <= q;
      assert 0 as real <= math.sqrt(q);
      if 0 as real <= w {
        SqrtBelow(math, q, w);
      }
    }
  }

  /** `getMaterialAtPosition`: the first material, in list order, whose volume
      contains the point; vacuum when there is none. */
  function GetMaterialAtPosition(math: MathLib, position: Vec3, materials: seq<Material>): (m: Material)
    ensures (forall i :: 0 <= i < |materials| ==> !IsPositionInMaterial(math, position, materials[i]))
      ==> m == Vacuum
    ensures (exists i :: 0 <= i < |materials| && IsPositionInMaterial(math, position, materials[i]))
      ==> (exists i :: 0 <= i < |materials| && m == materials[i]
            && IsPositionInMaterial(math, position, materials[i])
            && (forall j :: 0 <= j < i ==> !IsPositionInMaterial(math, position, materials[j])))
    decreases |materials|
  {
    if |materials| == 0 then Vacuum
    else if IsPositionInMaterial(math, position, materials[0]) then materials[0]
    else
      var m := GetMaterialAtPosition(math, position, materials[1..]);
      assert forall i :: 1 <= i < |materials| ==> materials[i] == materials[1..][i - 1];
      m
  }

  // ---------------------------------------------------------------------
  // Induction.

  /** The per-component difference quotient of the last two samples. */
  function RateOfChange(history: seq<FieldSample>, deltaTime: real): Vec3
    requires |history| >= 2 && deltaTime != 0 as real
  {
    var current := history[|history| - 1].field;
    var previous := history[|history| - 2].field;
    Vec3((current.x - previous.x) / deltaTime,
         (current.y - previous.y) / deltaTime,
         (current.z - previous.z) / deltaTime)
  }

  /** `calculateInducedElectricField`: Faraday's law with a fixed coupling of
      0.1. The position is not used. */
  function InducedElectricField(position: Vec3, magneticHistory: seq<FieldSample>, deltaTime: real): (e: Vec3)
    requires |magneticHistory| < 2 || deltaTime != 0 as real
    ensures |magneticHistory| < 2 ==> e == Zero
  {
    if |magneticHistory| < 2 then Zero
    else
      var dBdt := RateOfChange(magneticHistory, deltaTime);
      Vec3(-dBdt.x * 0.1, -dBdt.y * 0.1, -dBdt.z * 0.1)
  }

  /** `calculateInducedMagneticField`: the displacement-current term with the
      permittivity and permeability of the material at the position, and the
      same 0.1 coupling. */
  function InducedMagneticField(
    math: MathLib, position: Vec3, electricHistory: seq<FieldSample>, deltaTime: real, materials: seq<Material>
  ): (b: Vec3)
    requires |electricHistory| < 2 || deltaTime != 0 as real
    ensures |electricHistory| < 2 ==> b == Zero
  {
    if |electricHistory| < 2 then Zero
    else
      var material := GetMaterialAtPosition(math, position, materials);
      DisplacementCoupling(RateOfChange(electricHistory, deltaTime), Permeability(material), Permittivity(material))
  }

  /** `μ·ε·∂E/∂t`, scaled by the coupling 0.1. */
  function DisplacementCoupling(dEdt: Vec3, mu: real, epsilon: real): Vec3 {
    var displacementCurrent := Vec3(mu * epsilon * dEdt.x, mu * epsilon * dEdt.y, mu * epsilon * dEdt.z);
    Vec3(displacementCurrent.x * 0.1, displacementCurrent.y * 0.1, displacementCurrent.z * 0.1)
  }

  /** Only the last two samples matter: any older history, and the times
      recorded in the samples, are ignored. */
  lemma InducedElectricFieldLastTwo(position: Vec3, older: seq<FieldSample>, history: seq<FieldSample>, deltaTime: real)
    requires |history| >= 2 && deltaTime != 0 as real
    ensures InducedElectricField(position, older + history, deltaTime)
      == InducedElectricField(position, history, deltaTime)
    ensures InducedElectricField(position, history, deltaTime)
      == InducedElectricField(position, history[|history| - 2..], deltaTime)
  {
    var h := older + history;
    assert h[|h| - 1] == history[|history| - 1];
    assert h[|h| - 2] == history[|history| - 2];
    var t := history[|history| - 2..];
    assert t[1] == history[|history| - 1] && t[0] == history[|history| - 2];
  }

  /** A field that did not change between the last two samples induces nothing. */
  lemma InducedElectricFieldSteady(position: Vec3, history: seq<FieldSample>, deltaTime: real)
    requires |history| >= 2 && deltaTime != 0 as real
    requires history[|history| - 1].field == history[|history| - 2].field
    ensures InducedElectricField(position, history, deltaTime) == Zero
  {
    QuotientZero(0 as real, deltaTime);
    assert RateOfChange(history, deltaTime) == Zero;
  }

  /** The induced field determines the change of the magnetic field: scaling
      it by `-Δt / 0.1` and adding it to the previous sample gives the last one. */
  lemma InducedElectricFieldRecoversChange(position: Vec3, history: seq<FieldSample>, deltaTime: real)
    requires |history| >= 2 && deltaTime != 0 as real
    ensures Add(history[|history| - 2].field, Scale(InducedElectricField(position, history, deltaTime), -10.0 * deltaTime))
      == history[|history| - 1].field
  {
    var current := history[|history| - 1].field;
    var previous := history[|history| - 2].field;
    var d := RateOfChange(history, deltaTime);
    RecoverDifference(current.x - previous.x, deltaTime);
    RecoverDifference(current.y - previous.y, deltaTime);
    RecoverDifference(current.z - previous.z, deltaTime);
  }

  lemma RecoverDifference(delta: real, deltaTime: real)
    requires deltaTime != 0 as real
    ensures (-(delta / deltaTime) * 0.1) * (-10.0 * deltaTime) == delta
  {
    assert (delta / deltaTime) * deltaTime == delta;
  }

  /** The two induction rules are the same difference quotient with opposite
      couplings: on the same history, the induced magnetic field is the
      induced electric field scaled by `-μ·ε` of the material at the point. */
  lemma InducedFieldsDual(
    math: MathLib, position: Vec3, history: seq<FieldSample>, deltaTime: real, materials: seq<Material>)
    requires |history| < 2 || deltaTime != 0 as real
    ensures InducedMagneticField(math, position, history, deltaTime, materials)
      == Scale(InducedElectricField(position, history, deltaTime),
               -WaveSlowness(GetMaterialAtPosition(math, position, materials)))
  {
    var material := GetMaterialAtPosition(math, position, materials);
    if |history| < 2 {
      assert Scale(Zero, -WaveSlowness(material)) == Zero;
    } else {
      var d := RateOfChange(history, deltaTime);
      var e := InducedElectricField(position, history, deltaTime);
      var b := InducedMagneticField(math, position, history, deltaTime, materials);
      assert e == Vec3(-d.x * 0.1, -d.y * 0.1, -d.z * 0.1);
      assert b == DisplacementCoupling(d, Permeability(material), Permittivity(material));
      OppositeCoupling(d, Permeability(material), Permittivity(material));
      EqualScaled(b, DisplacementCoupling(d, Permeability(material), Permittivity(material)),
        e, Vec3(-d.x * 0.1, -d.y * 0.1, -d.z * 0.1), WaveSlowness(material));
    }
  }

  /** `μ·ε`, the inverse square of the wave velocity in a material. */
  function WaveSlowness(material: Material): real {
    Permeability(material) * Permittivity(material)
  }

  lemma EqualScaled(b: Vec3, c: Vec3, e: Vec3, f: Vec3, k: real)
    requires b == c && c == Scale(f, -k) && e == f
    ensures b == Scale(e, -k)
  {
  }

  lemma OppositeCoupling(d: Vec3, mu: real, epsilon: real)
    ensures DisplacementCoupling(d, mu, epsilon) == Scale(Vec3(-d.x * 0.1, -d.y * 0.1, -d.z * 0.1), -(mu * epsilon))
  {
  }

  // ---------------------------------------------------------------------
  // Poynting vector and material effects.

  /** The permeability of a material differs from zero exactly when its
      relative permeability does. */
  lemma PermeabilityNonzero(material: Material)
    ensures Permeability(material) != 0 as real <==> material.relativePermeability != 0 as real
    ensures Permittivity(material) != 0 as real <==> material.relativePermittivity != 0 as real
  {
    ProductZero(MU_0, material.relativePermeability);
    ProductZero(EPSILON_0, material.relativePermittivity);
  }

  /** `(E × B) / μ`, computed as `factor * crossProduct[i]` with `factor = 1 / μ`. */
  function CrossOverPermeability(electric: Vec3, magnetic: Vec3, mu: real): Vec3
    requires mu != 0 as real
  {
    var crossProduct := Cross(electric, magnetic);
    var factor := 1.0 / mu;
    Vec3(factor * crossProduct.x, factor * crossProduct.y, factor * crossProduct.z)
  }

  /** `(E × B) / μ` is orthogonal to both fields, vanishes when either field
      does, and times `μ` is `E × B`. */
  lemma CrossOverPermeabilityLaws(electric: Vec3, magnetic: Vec3, mu: real)
    requires mu != 0 as real
    ensures var s := CrossOverPermeability(electric, magnetic, mu);
      && Dot(s, electric) == 0 as real && Dot(s, magnetic) == 0 as real
      && (electric == Zero || magnetic == Zero ==> s == Zero)
      && Scale(s, mu) == Cross(electric, magnetic)
  {
    var factor := 1.0 / mu;
    var cp := Cross(electric, magnetic);
    var s := CrossOverPermeability(electric, magnetic, mu);
    assert s == Scale(cp, factor);
    CrossOrthogonal(electric, magnetic);
    ScaleKeepsOrthogonal(cp, factor, electric);
    ScaleKeepsOrthogonal(cp, factor, magnetic);
    ScaleInverse(cp, mu);
    if electric == Zero || magnetic == Zero {
      assert cp == Zero;
    }
  }

  /** The material-aware `calculatePoyntingVector`: `(E × B) / μ` with the
      permeability of the material at the point. */
  function PoyntingVector(math: MathLib, electric: Vec3, magnetic: Vec3, materials: seq<Material>, position: Vec3): Vec3
    requires GetMaterialAtPosition(math, position, materials).relativePermeability != 0 as real
  {
    var material := GetMaterialAtPosition(math, position, materials);
    PermeabilityNonzero(material);
    CrossOverPermeability(electric, magnetic, Permeability(material))
  }

  /** The Poynting vector is orthogonal to both fields, vanishes when either
      field does, and times `μ` is `E × B`. */
  lemma PoyntingLaws(math: MathLib, electric: Vec3, magnetic: Vec3, materials: seq<Material>, position: Vec3)
    requires GetMaterialAtPosition(math, position, materials).relativePermeability != 0 as real
    ensures var s := PoyntingVector(math, electric, magnetic, materials, position);
      var mu := Permeability(GetMaterialAtPosition(math, position, materials));
      && Dot(s, electric) == 0 as real && Dot(s, magnetic) == 0 as real
      && (electric == Zero || magnetic == Zero ==> s == Zero)
      && Scale(s, mu) == Cross(electric, magnetic)
  {
    var material := GetMaterialAtPosition(math, position, materials);
    PermeabilityNonzero(material);
    CrossOverPermeabilityLaws(electric, magnetic, Permeability(material));
  }

  /** The field scaling of one material: `1/εr` for an electric field, `μr`
      for a magnetic one. */
  function MaterialEffect(field: Vec3, fieldType: FieldType, material: Material): Vec3
    requires fieldType == Electric ==> material.relativePermittivity != 0 as real
  {
    if fieldType == Electric then
      var factor := 1.0 / material.relativePermittivity;
      Vec3(field.x * factor, field.y * factor, field.z * factor)
    else
      var factor := material.relativePermeability;
      Vec3(field.x * factor, field.y * factor, field.z * factor)
  }

  /** `applyMaterialEffects`: the scaling of the material at the point. */
  function ApplyMaterialEffects(
    math: MathLib, field: Vec3, fieldType: FieldType, position: Vec3, materials: seq<Material>
  ): Vec3
    requires fieldType == Electric ==> GetMaterialAtPosition(math, position, materials).relativePermittivity != 0 as real
  {
    MaterialEffect(field, fieldType, GetMaterialAtPosition(math, position, materials))
  }

  /** An electric field is divided by `εr` (scaling back by `εr` recovers
      it), a magnetic field is multiplied by `μr`, and vacuum changes neither. */
  lemma MaterialEffectLaws(field: Vec3, fieldType: FieldType, material: Material)
    requires fieldType == Electric ==> material.relativePermittivity != 0 as real
    ensures var r := MaterialEffect(field, fieldType, material);
      && (fieldType == Electric ==> Scale(r, material.relativePermittivity) == field)
      && (fieldType == Magnetic ==> r == Scale(field, material.relativePermeability))
      && (material == Vacuum ==> r == field)
  {
    if fieldType == Electric {
      ScaleInverse(field, material.relativePermittivity);
    }
  }

  /** Outside every material `applyMaterialEffects` is the identity. */
  lemma MaterialEffectsOutsideMaterials(
    math: MathLib, field: Vec3, fieldType: FieldType, position: Vec3, materials: seq<Material>)
    requires forall i :: 0 <= i < |materials| ==> !IsPositionInMaterial(math, position, materials[i])
    ensures ApplyMaterialEffects(math, field, fieldType, position, materials) == field
  {
    MaterialEffectLaws(field, fieldType, Vacuum);
  }

  // ---------------------------------------------------------------------
  // Waves and energy.

  /** `calculateWaveImpedance`: `sqrt(μ / ε)`. */
  function WaveImpedance(math: MathLib, material: Material): real
    requires material.relativePermittivity != 0 as real
  {
    PermeabilityNonzero(material);
    math.sqrt(Permeability(material) / Permittivity(material))
  }

  /** `calculateWaveVelocity`: `1 / sqrt(μ·ε)`. */
  function WaveVelocity(math: MathLib, material: Material): real
    requires math.sqrt(WaveSlowness(material)) != 0 as real
  {
    1.0 / math.sqrt(WaveSlowness(material))
  }

  /** In a material with positive `εr` and `μr` the impedance is the
      non-negative root of `μ/ε`, the velocity is the positive root of
      `1/(μ·ε)`, and the velocity is defined. */
  lemma WaveLaws(math: MathLib, material: Material)
    requires SqrtLaw(math)
    requires 0 as real < material.relativePermittivity && 0 as real < material.relativePermeability
    ensures math.sqrt(WaveSlowness(material)) != 0 as real
    ensures var mu, epsilon := Permeability(material), Permittivity(material);
      var z := WaveImpedance(math, material);
      var v := WaveVelocity(math, material);
      && 0 as real <= z && z * z == mu / epsilon
      && 0 as real < v && v * v * (mu * epsilon) == 1.0
  {
    var mu, epsilon := Permeability(material), Permittivity(material);
    MulPos(MU_0, material.relativePermeability);
    MulPos(EPSILON_0, material.relativePermittivity);
    DivPos(mu, epsilon);
    MulPos(mu, epsilon);
    var q := WaveSlowness(material);
    var s := math.sqrt(q);
    assert 0 as real <= s && s * s == q;
    if s == 0 as real {
      assert false;
    }
    var z := math.sqrt(mu / epsilon);
    assert 0 as real <= z && z * z == mu / epsilon;
    var v := 1.0 / s;
    DivPos(1.0, s);
    assert v * s == 1.0;
    calc {
      v * v * (mu * epsilon);
      v * v * (s * s);
      (v * s) * (v * s);
    }
  }

  /** `½(ε|E|² + |B|²/μ)` for given `ε` and `μ`. */
  function EnergyOf(electric: Vec3, magnetic: Vec3, epsilon: real, mu: real): real
    requires mu != 0 as real
  {
    var e2 := electric.x * electric.x + electric.y * electric.y + electric.z * electric.z;
    var b2 := magnetic.x * magnetic.x + magnetic.y * magnetic.y + magnetic.z * magnetic.z;
    0.5 * (epsilon * e2 + b2 / mu)
  }

  /** `calculateEnergyDensity` with the permittivity and permeability of the
      material at the point. */
  function EnergyDensity(math: MathLib, electric: Vec3, magnetic: Vec3, materials: seq<Material>, position: Vec3): real
    requires GetMaterialAtPosition(math, position, materials).relativePermeability != 0 as real
  {
    var material := GetMaterialAtPosition(math, position, materials);
    PermeabilityNonzero(material);
    EnergyOf(electric, magnetic, Permittivity(material), Permeability(material))
  }

  /** With positive `ε` and `μ` the energy is non-negative, and zero exactly
      when both fields are. */
  lemma EnergyOfLaws(electric: Vec3, magnetic: Vec3, epsilon: real, mu: real)
    requires 0 as real < epsilon && 0 as real < mu
    ensures var u := EnergyOf(electric, magnetic, epsilon, mu);
      0 as real <= u && (u == 0 as real <==> electric == Zero && magnetic == Zero)
  {
    var e2 := NormSq(electric);
    var b2 := NormSq(magnetic);
    NormSqZero(electric);
    NormSqZero(magnetic);
    MulNonneg(epsilon, e2);
    DivNonneg(b2, mu);
    ProductZero(epsilon, e2);
    QuotientZero(b2, mu);
    var te, tb := epsilon * e2, b2 / mu;
    assert EnergyOf(electric, magnetic, epsilon, mu) == 0.5 * (te + tb);
  }

  /** In a material with positive `εr` and `μr` the energy density is
      non-negative, and zero exactly when both fields are. */
  lemma EnergyDensityLaws(math: MathLib, electric: Vec3, magnetic: Vec3, materials: seq<Material>, position: Vec3)
    requires 0 as real < GetMaterialAtPosition(math, position, materials).relativePermittivity
    requires 0 as real < GetMaterialAtPosition(math, position, materials).relativePermeability
    ensures var u := EnergyDensity(math, electric, magnetic, materials, position);
      0 as real <= u && (u == 0 as real <==> electric == Zero && magnetic == Zero)
  {
    var material := GetMaterialAtPosition(math, position, materials);
    MulPos(EPSILON_0, material.relativePermittivity);
    MulPos(MU_0, material.relativePermeability);
    EnergyOfLaws(electric, magnetic, Permittivity(material), Permeability(material));
  }

  // ---------------------------------------------------------------------
  // Dipole radiation.

  /** The wave number `k = 2πf / c`. */
  function WaveNumber(frequency: real): real {
    2.0 * PI * frequency / C
  }

  /** The far-zone test `distance > 10 / k`. For `k == 0` the source divides
      by zero, gets `Infinity`, and the test fails. */
  predicate InRadiationZone(distance: real, k: real) {
    k != 0 as real && distance > 10.0 / k
  }

  /** `r / distance`, component by component. */
  function UnitDirection(r: Vec3, distance: real): Vec3
    requires distance != 0 as real
  {
    Vec3(r.x / distance, r.y / distance, r.z / distance)
  }

  /** `B = (r̂ × E) / c`, written out as the source does. */
  function TransverseMagnetic(rHat: Vec3, electric: Vec3): Vec3 {
    Vec3(
      (rHat.y * electric.z - rHat.z * electric.y) / C,
      (rHat.z * electric.x - rHat.x * electric.z) / C,
      (rHat.x * electric.y - rHat.y * electric.x) / C)
  }

  lemma RadiationDenominatorPositive(distance: real)
    requires 0 as real < distance
    ensures 0 as real < 4.0 * PI * EPSILON_0 * C * C * distance
  {
    var k := 4.0 * PI * EPSILON_0 * C * C;
    assert 0 as real < k;
    MulPos(k, distance);
  }

  /** The radiation-zone fields at distance `distance` in direction `rHat`. */
  function FarField(math: MathLib, rHat: Vec3, distance: real, dipole: WaveSource, time: real): (rad: Radiation)
    requires 0 as real < distance
    ensures rad.electric.z == 0 as real
    ensures rad.magnetic == TransverseMagnetic(rHat, rad.electric)
  {
    var k := WaveNumber(dipole.frequency);
    var omega := 2.0 * PI * dipole.frequency;
    var retardedTime := time - distance / C;
    var dipoleLength := NumberOr(dipole.length, 1.0);
    var p0 := dipole.amplitude * dipoleLength;
    var pDotDot := omega * omega * p0 * math.sin(omega * retardedTime + dipole.phase);
    var cosTheta := Dot(dipole.orientation, rHat);
    var sinTheta := math.sqrt(1.0 - cosTheta * cosTheta);
    RadiationDenominatorPositive(distance);
    var radiationFactor := (k * k * sinTheta) / (4.0 * PI * EPSILON_0 * C * C * distance);
    var eTheta := radiationFactor * pDotDot;
    var oscillation := math.cos(omega * retardedTime + dipole.phase);
    var electric := Vec3(eTheta * sinTheta * oscillation, eTheta * cosTheta * oscillation, 0 as real);
    Radiation(electric, TransverseMagnetic(rHat, electric))
  }

  /** `calculateDipoleRadiation`: nothing within 0.01 of the dipole, nothing
      outside the radiation zone, and the far field inside it. */
  function DipoleRadiation(math: MathLib, position: Vec3, dipole: WaveSource, time: real): (rad: Radiation)
    ensures Distance(math, position, dipole.position) < 0.01 ==> rad == Radiation(Zero, Zero)
    ensures !InRadiationZone(Distance(math, position, dipole.position), WaveNumber(dipole.frequency))
      ==> rad == Radiation(Zero, Zero)
    ensures rad.electric.z == 0 as real
  {
    var r := Sub(position, dipole.position);
    var distance := Distance(math, position, dipole.position);
    if distance < 0.01 then Radiation(Zero, Zero)
    else if InRadiationZone(distance, WaveNumber(dipole.frequency)) then
      FarField(math, UnitDirection(r, distance), distance, dipole, time)
    else Radiation(Zero, Zero)
  }

  /** `(r̂ × E) / c` is orthogonal to `E` and to `r̂`. */
  lemma TransverseMagneticOrthogonal(rHat: Vec3, electric: Vec3)
    ensures Dot(TransverseMagnetic(rHat, electric), electric) == 0 as real
    ensures Dot(TransverseMagnetic(rHat, electric), rHat) == 0 as real
  {
    var cp := Cross(rHat, electric);
    var ic := 1.0 / C;
    assert TransverseMagnetic(rHat, electric) == Scale(cp, ic);
    CrossOrthogonal(rHat, electric);
    ScaleKeepsOrthogonal(cp, ic, electric);
    ScaleKeepsOrthogonal(cp, ic, rHat);
  }

  /** Scaling the unit direction back by the distance gives the offset. */
  lemma UnitDirectionRestores(r: Vec3, distance: real)
    requires distance != 0 as real
    ensures Scale(UnitDirection(r, distance), distance) == r
  {
    assert (r.x / distance) * distance == r.x;
    assert (r.y / distance) * distance == r.y;
    assert (r.z / distance) * distance == r.z;
  }

  /** The radiated magnetic field is transverse: orthogonal to the electric
      field and to the line from the dipole to the point. */
  lemma DipoleRadiationTransverse(math: MathLib, position: Vec3, dipole: WaveSource, time: real)
    ensures var rad := DipoleRadiation(math, position, dipole, time);
      Dot(rad.magnetic, rad.electric) == 0 as real
      && Dot(rad.magnetic, Sub(position, dipole.position)) == 0 as real
  {
    var rad := DipoleRadiation(math, position, dipole, time);
    var r := Sub(position, dipole.position);
    var distance := Distance(math, position, dipole.position);
    if distance >= 0.01 && InRadiationZone(distance, WaveNumber(dipole.frequency)) {
      var rHat := UnitDirection(r, distance);
      TransverseMagneticOrthogonal(rHat, rad.electric);
      UnitDirectionRestores(r, distance);
      var b := rad.magnetic;
      assert Dot(b, Scale(rHat, distance)) == distance * Dot(b, rHat);
    }
  }

  /** A dipole that does not oscillate radiates nothing. */
  lemma StaticDipoleDoesNotRadiate(math: MathLib, position: Vec3, dipole: WaveSource, time: real)
    requires dipole.frequency == 0 as real
    ensures DipoleRadiation(math, position, dipole, time) == Radiation(Zero, Zero)
  {
    assert WaveNumber(dipole.frequency) == 0 as real;
  }
}
