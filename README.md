# fieldlines — a verified model of the field engine and scene store

fieldlines is an interactive electromagnetic-field simulator. This project
models its computational core in Dafny:

- **the scene store** (`Store`): the list of sources, the probe position,
  the running flag and the three visualisation settings, with the actions
  the interface calls (add, remove and update a source, toggle, reset,
  clear, export, import). `SimulationStore` is a class whose fields the
  actions update in place. Each action is specified by a pure transition
  on `StoreState`.
- **the vacuum field engine** (`Physics`):
  - Coulomb superposition of static and oscillating charges;
  - the magnetic fields of infinite wires, current loops and solenoids;
  - the electric potential, the vacuum Poynting vector, the force on a
    test charge and a forward-difference field gradient;
  - the electric and magnetic field-line tracers.
- **the material-aware engine** (`Maxwell`):
  - the lookup of the material at a point, with sphere, box and cylinder
    containment;
  - the Faraday and Ampère–Maxwell induction rules over a field history;
  - the material Poynting vector and material scaling of fields;
  - wave impedance and velocity, energy density, and dipole radiation.
- **the two visualisations**:
  - `Scene3D` traces field lines from a ring of start points around every
    source;
  - `VectorGrid` samples an 11×11×11 lattice and draws an arrow wherever
    the field is stronger than 0.1. As written, every arrow is 1 long.

  Both use their own simplified Coulomb field (`ViewFields`).

Every field is a superposition. The loops that accumulate it are methods
proved equal to a sum over the sources (`Superposition.SumOf`). Order
independence, skipping and separation of field kinds are lemmas about
that sum.

Real numbers stand for IEEE doubles. `Math.sqrt`, `Math.sin` and `Math.cos`
are fields of a `MathLib` value passed to every operation that uses them.
Where a proof needs square roots, it assumes only `SqrtLaw`: the root of a
non-negative number is non-negative and squares back to the number.

## Model

| member | source | states |
|---|---|---|
| Store.ToggleInvolution | src/store/simulationStore.ts:59 | toggling flips the running flag, changes nothing else, and undoes itself |
| Store.ResetRestoresDefaults | src/store/simulationStore.ts:61-78 | reset restores the two default charges and the default probe, stops the simulation, keeps the visualisation settings, is idempotent, and maps the initial state to itself |
| Store.ClearKeepsSettings | src/store/simulationStore.ts:129-133 | clearing empties the sources, resets the probe, stops the simulation, keeps the settings, is idempotent, and a later reset erases the difference |
| Store.Append | src/store/simulationStore.ts:80-82 | the new list is the old list plus one source at the end, carrying the given id |
| Store.RemoveById | src/store/simulationStore.ts:84-86 | a source survives exactly when its id differs; the list is unchanged when the id is absent and strictly shorter when it is present |
| Store.RemoveByIdConcat | src/store/simulationStore.ts:84-86 | the filter distributes over concatenation, so relative order is kept |
| Store.RemoveByIdSingleton | src/store/simulationStore.ts:84-86 | a single source is kept exactly when its id differs |
| Store.RemoveByIdIdempotent | src/store/simulationStore.ts:84-86 | removing an id twice is removing it once, and removals of two ids commute |
| Store.RemoveByIdUnchangedOff | src/store/simulationStore.ts:84-86 | lists that differ only at sources with the given id filter to the same list |
| Store.RemoveUndoesAdd | src/store/simulationStore.ts:80-86 | adding a source under a fresh id and then removing that id restores the whole state |
| Store.UpdateById | src/store/simulationStore.ts:88-92 | same length; every source with the id is merged with the patch, and every other source is untouched |
| Store.MergeLaws | src/store/simulationStore.ts:90 | an empty patch changes nothing, and merging the same patch twice is merging once |
| Store.UpdateByIdIdempotent | src/store/simulationStore.ts:88-92 | applying the same update twice equals applying it once, even when the patch changes the id |
| Store.RemoveAfterUpdate | src/store/simulationStore.ts:84-92 | an update that leaves ids alone does not change what a removal of that id keeps |
| Store.ExportOf | src/store/simulationStore.ts:102-115 | the export carries version "1.0.0" |
| Store.ImportOfExport | src/store/simulationStore.ts:102-127 | importing an export restores sources, probe and mode, and restores speed and density exactly when they are non-zero (zero falls back to the default); the running flag is never touched |
| Store.ImportOwnExport | src/store/simulationStore.ts:102-127 | re-importing a store's own export is the identity if and only if its speed and density are non-zero |
| Store.ImportKeepsSettingsNonzero | src/store/simulationStore.ts:117-127 | an import never stores a zero animation speed or field-line density: it either keeps the state or falls back to the non-zero defaults 1 and 8 |
| Store.ImportGuard | src/store/simulationStore.ts:117-127 | without a sources array the import is ignored; with one, sources are replaced, a missing probe becomes the default, and missing settings become the three defaults |
| Store.SimulationStore.constructor | src/store/simulationStore.ts:38-56 | a new store holds the initial state |
| Store.SimulationStore.ToggleSimulation | src/store/simulationStore.ts:59 | the new state is the toggle of the old |
| Store.SimulationStore.ResetSimulation | src/store/simulationStore.ts:61-78 | the new state is the reset of the old |
| Store.SimulationStore.AddSource | src/store/simulationStore.ts:80-82 | the old sources are a prefix of the new list, whose last element carries the given id; nothing else changes |
| Store.SimulationStore.RemoveSource | src/store/simulationStore.ts:84-86 | a source is in the new list exactly when it was in the old one with a different id; nothing else changes |
| Store.SimulationStore.UpdateSource | src/store/simulationStore.ts:88-92 | the list keeps its length and is the update of the old one; nothing else changes |
| Store.SimulationStore.SetProbePosition | src/store/simulationStore.ts:94 | only the probe position changes |
| Store.SimulationStore.SetVisualizationMode | src/store/simulationStore.ts:96 | only the mode changes |
| Store.SimulationStore.SetAnimationSpeed | src/store/simulationStore.ts:98 | only the speed changes |
| Store.SimulationStore.SetFieldLinesDensity | src/store/simulationStore.ts:100 | only the density changes |
| Store.SimulationStore.ExportScene | src/store/simulationStore.ts:102-115 | the export carries version 1.0.0, the timestamp, the sources, the probe and the three settings of the store, and the store is not changed |
| Store.SimulationStore.ImportScene | src/store/simulationStore.ts:117-127 | the new state is the import of the data into the old state |
| Store.SimulationStore.ClearScene | src/store/simulationStore.ts:129-133 | the new state is the cleared old state |
| Options.NumberOr | src/store/simulationStore.ts:124-125 | a non-zero default can never yield zero: a zero or missing number is replaced by the default |
| Physics.CalculateElectricField | src/utils/physics.ts:25-63 | the loop's total is the sum of the per-source contributions |
| Physics.CoulombFieldLaws | src/utils/physics.ts:41-59 | one charge's field is parallel to `r`, and its component along `r` is `k·q/d` |
| Physics.ElectricFieldSkips | src/utils/physics.ts:32-44 | a source of another kind, or one closer than 0.01, can be removed without changing the field |
| Physics.ElectricFieldOrderFree | src/utils/physics.ts:30-62 | any permutation of the sources gives the same field |
| Physics.NoElectricSources | src/utils/physics.ts:32-33 | with no charges or dipoles the field is zero |
| Physics.StaticFieldTimeless | src/utils/physics.ts:46-52 | when no source has a positive frequency, the field is the same at every time |
| Physics.CalculateMagneticField | src/utils/physics.ts:68-147 | the loop's total is the sum of the per-source contributions, with each loop contributing the field as the source computes it |
| Physics.AlongUnitLaws | src/utils/physics.ts:101-107 | scaling a vector to a magnitude keeps it orthogonal to what it was orthogonal to, gives it that magnitude's absolute value as length, and keeps it along the vector |
| Physics.WireFieldLaws | src/utils/physics.ts:90-108 | the wire field is perpendicular to the wire and to `r`, zero when they are parallel, of length `μ0·abs(I)/(2πd)` otherwise, and turning with the right-hand rule in the direction of the current |
| Physics.LoopFieldIgnoresCurrentDirection | src/utils/physics.ts:110-119 | as written, reversing the loop current does not change the field |
| Physics.LoopFieldSameForOppositeCurrents | src/utils/physics.ts:110-119 | as written, one unit of current in either direction gives the same positive field |
| Physics.LoopFieldDividesByZero | src/utils/physics.ts:110-119 | as written, a point 0.05 from the loop centre in its plane passes the 0.01 guard and divides by zero |
| Physics.LoopFieldLaws | src/utils/physics.ts:110-119 | the corrected loop field reverses with the current, lies along the axis, and vanishes off the axis window. It is undefined as written exactly in the loop plane inside the window, and it agrees with the source wherever the source is defined and the current is non-negative |
| Physics.LoopContributionIgnoresSign | src/utils/physics.ts:110-119 | what a loop adds to the engine's field is the corrected field for the current's absolute value; for a negative current at a point on the axis outside the loop plane, it points opposite to the corrected field |
| Physics.SolenoidInsideRule | src/utils/physics.ts:121-132 | inside the solenoid the field is `μ0·(n/L)·I` along the axis |
| Physics.DipoleOnAxis | src/utils/physics.ts:133-142 | on the axis outside the solenoid the dipole field is twice the dipole magnitude along the axis |
| Physics.MagneticFieldSkips | src/utils/physics.ts:75-86 | a source of another kind, or one closer than 0.01, can be removed without changing the field |
| Physics.MagneticFieldOrderFree | src/utils/physics.ts:73-146 | any permutation of the sources gives the same magnetic field |
| Physics.FieldsSeparate | src/utils/physics.ts:68-86 | charges and dipoles make no magnetic field; wires, loops and solenoids make no electric field |
| Physics.CalculateElectricPotential | src/utils/physics.ts:173-189 | the loop's total is the sum of `k·q/d` over the charges at least 0.01 away |
| Physics.PotentialOfPositiveCharges | src/utils/physics.ts:173-189 | non-negative charges give a non-negative potential |
| Physics.PotentialIgnoresDipoles | src/utils/physics.ts:177 | without charges the potential is zero, even where dipoles make a field |
| Physics.PotentialMatchesField | src/utils/physics.ts:173-189 | for a static charge, the field's component along `r` equals its potential |
| Physics.PoyntingVectorInVacuum | src/utils/physics.ts:152-168 | the vacuum Poynting vector equals the material one wherever no material contains the point. It is orthogonal to both fields, zero when either is, and `μ0·S = E × B` |
| Physics.CalculateForce | src/utils/physics.ts:285-291 | the force is the static electric field scaled by the test charge |
| Physics.ForceOfOneCharge | src/utils/physics.ts:285-291 | the force from one static charge at least 0.01 away lies along `r`, and its component along `r` is `q_t·k·q/d`, so like charges repel and unlike ones attract |
| Physics.CalculateFieldGradient | src/utils/physics.ts:296-311 | the gradient is non-negative, and times `abs(δ)` it is the absolute change of the field's length over a step `δ` along x |
| Physics.ExtendElectricLine | src/utils/physics.ts:203-221 | appending the next step keeps a traced electric line a traced line |
| Physics.GenerateFieldLine | src/utils/physics.ts:194-224 | at most `maxSteps` points, starting at the start point; each point is one normalised step along the field from a point whose field is not too weak; a line shorter than `maxSteps` ends where the field is weaker than 1e-6 or the next step leaves the radius-50 ball |
| Physics.ExtendMagneticLine | src/utils/physics.ts:239-277 | appending the next step keeps a traced magnetic line a traced line |
| Physics.NoSourcesWeak | src/utils/physics.ts:249 | without sources the magnetic field counts as too weak |
| Physics.GenerateMagneticFieldLine | src/utils/physics.ts:229-280 | the result is either a circle around a wire closed by the start point, or at most `maxSteps` points each one step from the last. Such a line ends early only where the field is weaker than 1e-12 or it leaves the radius-20 ball |
| Maxwell.ContainmentRules | src/utils/maxwellEngine.ts:270-298 | the containment test holds exactly inside the sphere, box or cylinder described without square roots or absolute values, and never for another geometry |
| Maxwell.GetMaterialAtPosition | src/utils/maxwellEngine.ts:242-265 | the first material, in list order, that contains the point; vacuum when none does |
| Maxwell.InducedElectricField | src/utils/maxwellEngine.ts:37-63 | zero for a history shorter than two samples |
| Maxwell.InducedElectricFieldLastTwo | src/utils/maxwellEngine.ts:42-45 | only the last two samples matter |
| Maxwell.InducedElectricFieldSteady | src/utils/maxwellEngine.ts:48-60 | a field unchanged between the last two samples induces nothing |
| Maxwell.InducedElectricFieldRecoversChange | src/utils/maxwellEngine.ts:48-60 | the induced field scaled by `-10·Δt` is the change of the magnetic field, so it is `-0.1·ΔB/Δt` |
| Maxwell.InducedMagneticField | src/utils/maxwellEngine.ts:69-107 | zero for a history shorter than two samples |
| Maxwell.InducedFieldsDual | src/utils/maxwellEngine.ts:69-107 | on the same history, the induced magnetic field is the induced electric field times `-μ·ε` of the material at the point |
| Maxwell.CrossOverPermeabilityLaws | src/utils/maxwellEngine.ts:121-133 | `(E × B)/μ` is orthogonal to both fields, zero when either is, and times μ is `E × B` |
| Maxwell.PoyntingLaws | src/utils/maxwellEngine.ts:112-134 | the Poynting vector in the material at the point has those three properties, with that material's μ |
| Maxwell.MaterialEffectLaws | src/utils/maxwellEngine.ts:210-218 | an electric field is divided by εr (scaling back recovers it), a magnetic field is multiplied by μr, and vacuum changes neither |
| Maxwell.MaterialEffectsOutsideMaterials | src/utils/maxwellEngine.ts:202-219 | outside every material the field is returned unchanged |
| Maxwell.WaveLaws | src/utils/maxwellEngine.ts:224-237 | for positive εr and μr the impedance is the non-negative root of μ/ε and the velocity the positive root of 1/(μ·ε) |
| Maxwell.EnergyOfLaws | src/utils/maxwellEngine.ts:313-316 | with positive ε and μ the energy is non-negative, and zero exactly when both fields are |
| Maxwell.EnergyDensityLaws | src/utils/maxwellEngine.ts:303-317 | the same for the material at the point, when its εr and μr are positive |
| Maxwell.FarField | src/utils/maxwellEngine.ts:173-194 | the far electric field has no z component, and the magnetic field is `(r̂ × E)/c` |
| Maxwell.DipoleRadiation | src/utils/maxwellEngine.ts:139-197 | zero within 0.01 of the dipole, zero outside the radiation zone, and never a z component in the electric field |
| Maxwell.TransverseMagneticOrthogonal | src/utils/maxwellEngine.ts:186-191 | `(r̂ × E)/c` is orthogonal to `E` and to `r̂` |
| Maxwell.DipoleRadiationTransverse | src/utils/maxwellEngine.ts:139-197 | the radiated magnetic field is orthogonal to the electric field and to the line from the dipole |
| Maxwell.StaticDipoleDoesNotRadiate | src/utils/maxwellEngine.ts:154-196 | a dipole of frequency zero radiates nothing |
| ViewFields.CalculateViewField | src/components/VectorField.tsx:63-81 | the loop's total is the sum of the per-source contributions, skipping sources closer than the cut-off |
| ViewFields.ViewFieldSkips | src/components/Scene3D.tsx:99-104 | a source closer than the cut-off can be removed without changing the field, and no sources give zero |
| ViewFields.ViewFieldOfOne | src/components/Scene3D.tsx:100-109 | one source at least the cut-off away contributes `k·q/d²` along the unit vector from it |
| ViewFields.ViewFieldIgnoresKind | src/components/Scene3D.tsx:99-110 | the field depends only on positions and strengths, not on the source type |
| ViewFields.ViewFieldScales | src/components/VectorField.tsx:65-77 | the field with constant `k` is `k` times the field with constant 1 |
| ViewFields.ViewFieldIsEngineField | src/components/Scene3D.tsx:95-113 | with the engine's Coulomb constant and a cut-off of at least 0.01, if no source is a current and every source is at least the cut-off away, the scene's field equals the engine's static electric field |
| Scene3D.ExtendSceneLine | src/components/Scene3D.tsx:77-89 | appending the next step keeps a traced scene line a traced line |
| Scene3D.CalculateFieldLine | src/components/Scene3D.tsx:71-92 | from the start point, at most 201 points. Each point is a 0.1 step along the field (against it for a negative source) from a point whose field is at least 0.001 and stays within radius 20. A line ended early stops where the field is too weak or the next step would leave the radius-20 ball |
| Scene3D.LineCount | src/components/Scene3D.tsx:30-32 | the number of indices `i` with `i < n` is the least natural at or above `n` |
| Scene3D.LineCountBound | src/components/Scene3D.tsx:32 | `i < n` holds exactly for the first `LineCount(n)` naturals |
| Scene3D.FieldLines | src/components/Scene3D.tsx:23-46 | nothing for an empty scene; otherwise `⌈abs(q)·8⌉` lines per source, grouped by source in list order. Line `i` of a source starts at `(x + 0.2·cos(2πi/n), y, z + 0.2·sin(2πi/n))` for `n = abs(q)·8`, carries the source's strength, and is the trace from that point in the direction its sign selects; every line is such a line |
| Scene3D.LineIndexOnto | src/components/Scene3D.tsx:26-43 | every line number below the total is line `i` of some source `j`, counted after the lines of the sources before `j` |
| Scene3D.LinesBelongToSources | src/components/Scene3D.tsx:26-43 | lines grouped by source account for every line |
| VectorGrid.AxisStep | src/components/VectorField.tsx:19-21 | each axis loop steps by 2 and stops exactly after its 11th value |
| VectorGrid.SamplePoint | src/components/VectorField.tsx:22-31 | one loop body yields the arrow the source builds at the point, if any: at the point, along the normalised field, with the normalised field's length capped at 2 as its magnitude |
| VectorGrid.SampleColumn | src/components/VectorField.tsx:21-33 | the z loop yields the drawn arrows of one column, z ascending |
| VectorGrid.SampleSlice | src/components/VectorField.tsx:20-33 | the y loop appends the drawn arrows of one x-slice in drawing order |
| VectorGrid.SampleGrid | src/components/VectorField.tsx:14-37 | the triple loop yields every lattice point's drawn arrow in drawing order (x outermost, z innermost) |
| VectorGrid.AtMostOneArrowPerPoint | src/components/VectorField.tsx:19-34 | at most 1331 arrows are meant to be drawn |
| VectorGrid.GridMemberIsArrowAt | src/components/VectorField.tsx:19-34 | every intended arrow is the arrow of some lattice point |
| VectorGrid.ArrowAtIsGridMember | src/components/VectorField.tsx:19-34 | the intended arrow of every lattice point is in the intended drawing |
| VectorGrid.GridMembers | src/components/VectorField.tsx:19-34 | an arrow is in the intended drawing if and only if it is the intended arrow of a lattice point |
| VectorGrid.ArrowAtLaws | src/components/VectorField.tsx:25-30 | an intended arrow sits at its point where the field is stronger than 0.1. It points along the field with unit length, and its magnitude is the field's length capped at 2 |
| VectorGrid.ArrowsAreFieldSamples | src/components/VectorField.tsx:19-34 | intended arrows are exactly the lattice arrows, and each has the properties above |
| VectorGrid.StrongPointsSampled | src/components/VectorField.tsx:25-31 | every lattice point with a field stronger than 0.1 gets its intended arrow |
| VectorGrid.AsWrittenMagnitudeIsOne | src/components/VectorField.tsx:28-29 | as written, the arrow at a point is the intended one with magnitude 1, so wherever the field is stronger than 1 the drawn arrow differs from the intended one |
| VectorGrid.DrawnGrid | src/components/VectorField.tsx:14-37 | the view draws exactly the intended arrows, in the same order, each with magnitude 1 |
| VectorGrid.DrawnArrowsAreFieldSamples | src/components/VectorField.tsx:19-34 | the drawn arrows are exactly those of the lattice points where the field is stronger than 0.1; each sits at its point, points along the field with unit length, and has magnitude 1 |
| VectorGrid.AsWrittenExample | src/components/VectorField.tsx:28-29 | a charge of 8 at the origin gives a field of length 2 at the lattice point (2, 0, 0); the intended arrow is 2 long, the one written is 1 long |

## Left out

- Floating point: reals stand for doubles, with no rounding, NaN or Infinity. Where the source divides by a value that can be zero, the model requires it non-zero. These divisions are by `Δt`, `εr`, the permeability, `δ`, and `sqrt(μ·ε)` in the wave velocity. In JavaScript they would yield Infinity or NaN.
- The view field also requires a positive cut-off. This keeps the distance it divides by away from zero; both views pass a positive constant (0.1 and 0.5).
- Physics.CalculateMagneticField: in the loop plane inside the axis window (`r.y == 0`), the source divides by zero and adds an infinite or undefined value. The model adds `Zero` there instead.
- Default arguments are explicit parameters here: `time` (0), `stepSize` (0.1), `maxSteps` (1000 for electric lines, 500 for magnetic ones) and `δ` (0.01). The force and the gradient read the field at time 0, as in the source.
- `Math.sqrt`, `Math.sin` and `Math.cos` are left uninterpreted (`MathLib`). Only the square-root law is assumed, and only where a proof needs it.
- `crypto.randomUUID()` and `new Date().toISOString()` become parameters of `AddSource` and `ExportScene`.
- The store's subscription mechanism, React rendering and hooks, the animation frame callback (`useFrame`), and the meshes and materials of the views are left out.
- The vacuum returned by `getMaterialAtPosition` has sphere radius `Infinity` in the source and 0 here; nothing reads it.
- Maxwell.InducedElectricField: `position` is accepted and ignored, as in the source. The `time` of the samples is ignored as well.
- Maxwell.DipoleRadiation: when `k == 0`, `10 / k` is `Infinity` in JavaScript and the far-zone test fails. The model states that case as "not in the radiation zone".
- Physics: a solenoid's `turns` is a real, as JavaScript numbers are.
- Physics.FieldSource: `Vector3` positions and plain arrays are the same `Vec3`.
- VectorGrid: the y and z loops of the vector-field memo are the methods `SampleSlice` and `SampleColumn`, and the loop body is `SamplePoint`. The loop structure and order are those of the source. The loops produce the arrows as written, 1 long (`DrawnArrows`); `GridArrows` and the lemmas about it describe the intended drawing, and `DrawnGrid` relates the two.
- The `FieldLines` line objects keep their points and strength. The three.js `Vector3` cloning (aliasing) has no counterpart, since positions are values.
- Scene3D.FieldLines: `cos` and `sin` are uninterpreted, so the model does not state that the start points lie 0.2 from the source.
- Store.Merge: JavaScript's `{...s, ...updates}` copies a key that is present with the value `undefined`. The patch here has no such case: a field is either present with a value or absent.
- Store.ExportOf: states only the version. The rest of the exported object is stated by `Store.SimulationStore.ExportScene` and `Store.ImportOfExport`.

## Findings

| source | as written | input that shows it | evidently intended | confidence | as-written member | corrected member |
|---|---|---|---|---|---|---|
| src/utils/physics.ts:110-119 | the loop's moment already carries the sign of the current, and line 118 negates it again for negative currents; the on-axis window admits `r.y == 0`, dividing by `abs(r.y)³ = 0` | current -1 at (0, 1, 0) from the loop gives the same positive field as current +1; the point (0.05, 0, 0) passes the 0.01 guard and divides by zero | the field reverses with the current and is not evaluated in the loop plane | not executed | Physics.LoopFieldAsWritten, Physics.LoopFieldSameForOppositeCurrents, Physics.LoopFieldDividesByZero, Physics.LoopContributionIgnoresSign | Physics.LoopField, Physics.LoopFieldLaws |
| src/components/VectorField.tsx:25-29 | `field.normalize()` normalises the field in place before `Math.min(field.length(), 2)` reads its length | a charge of 8 at the origin: at (2, 0, 0) the field has length 2, yet the arrow's magnitude is 1 | the magnitude is the field's length capped at 2 | not executed | VectorGrid.ArrowAtAsWritten, VectorGrid.AsWrittenExample, VectorGrid.DrawnGrid | VectorGrid.ArrowAt, VectorGrid.ArrowsAreFieldSamples |
