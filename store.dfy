/** The scene store: the list of sources, the probe position, the running
    flag and the three visualisation settings, with the actions the user
    interface calls. Every action is a pure transition on `StoreState`; the
    class `SimulationStore` holds the fields and its methods apply the
    transitions in place. Ids from `crypto.randomUUID()` and the export
    timestamp from `new Date().toISOString()` are parameters. */
module Store {
  import opened Vectors
  import opened Options

  datatype SourceType = Charge | Dipole | Current

  datatype Source = Source(id: string, position: Vec3, strength: real, kind: SourceType)

  /** What `addSource` receives: a source without its id. */
  datatype NewSource = NewSource(position: Vec3, strength: real, kind: SourceType)

  /** A `Partial<Source>`: each key either present (and then it overrides)
      or absent. */
  datatype SourcePatch = SourcePatch(
    id: Option<string>, position: Option<Vec3>, strength: Option<real>, kind: Option<SourceType>)

  datatype VisualizationMode = FieldLines | VectorField

  datatype StoreState = StoreState(
    isRunning: bool,
    sources: seq<Source>,
    probePosition: Vec3,
    visualizationMode: VisualizationMode,
    animationSpeed: real,
    fieldLinesDensity: real)

  datatype VisualizationSettings = VisualizationSettings(
    mode: VisualizationMode, animationSpeed: real, fieldLinesDensity: real)

  /** The object `exportScene` returns. */
  datatype SceneExport = SceneExport(
    version: string,
    timestamp: string,
    sources: seq<Source>,
    probePosition: Vec3,
    visualizationSettings: VisualizationSettings)

  /** The settings object of an imported scene; each key may be missing. */
  datatype SettingsData = SettingsData(
    mode: Option<VisualizationMode>, animationSpeed: Option<real>, fieldLinesDensity: Option<real>)

  /** The object `importScene` receives. `sources` is `None` when the key is
      missing, falsy or not an array; an empty array is `Some([])`, since
      arrays are truthy. */
  datatype SceneData = SceneData(
    sources: Option<seq<Source>>,
    probePosition: Option<Vec3>,
    visualizationSettings: Option<SettingsData>)

  const ExportVersion: string := "1.0.0"

  const DefaultProbePosition: Vec3 := Vec3(0 as real, 2.0, 0 as real)
  const DefaultMode: VisualizationMode := FieldLines
  const DefaultAnimationSpeed: real := 1.0
  const DefaultFieldLinesDensity: real := 8.0

  /** The two opposite charges the store starts with and `resetSimulation` restores. */
  const DefaultSources: seq<Source> := [
    Source("default-1", Vec3(-3.0, 0 as real, 0 as real), 2.0, Charge),
    Source("default-2", Vec3(3.0, 0 as real, 0 as real), -2.0, Charge)
  ]

  const InitialState: StoreState := StoreState(
    false, DefaultSources, DefaultProbePosition, DefaultMode,
    DefaultAnimationSpeed, DefaultFieldLinesDensity)

  // ---------------------------------------------------------------------
  // Transitions.

  function Toggle(s: StoreState): StoreState {
    s.(isRunning := !s.isRunning)
  }

  function Reset(s: StoreState): StoreState {
    s.(isRunning := false, sources := DefaultSources, probePosition := DefaultProbePosition)
  }

  function WithId(n: NewSource, id: string): Source {
    Source(id, n.position, n.strength, n.kind)
  }

  function Append(sources: seq<Source>, n: NewSource, id: string): (r: seq<Source>)
    ensures |r| == |sources| + 1 && r[..|sources|] == sources
    ensures r[|sources|] == WithId(n, id)
  {
    sources + [WithId(n, id)]
  }

  predicate HasId(sources: seq<Source>, id: string) {
    exists i :: 0 <= i < |sources| && sources[i].id == id
  }

  /** `sources.filter(source => source.id !== id)`. */
  function RemoveById(sources: seq<Source>, id: string): (r: seq<Source>)
    ensures forall x :: x in r <==> x in sources && x.id != id
    ensures |r| <= |sources|
    ensures !HasId(sources, id) ==> r == sources
    ensures HasId(sources, id) ==> |r| < |sources|
    decreases |sources|
  {
    if |sources| == 0 then []
    else
      var rest := RemoveById(sources[1..], id);
      assert sources == [sources[0]] + sources[1..];
      if sources[0].id != id then [sources[0]] + rest else rest
  }

  /** `{ ...source, ...updates }`: every key present in the patch overrides. */
  function Merge(source: Source, patch: SourcePatch): Source {
    Source(
      patch.id.Or(source.id),
      patch.position.Or(source.position),
      patch.strength.Or(source.strength),
      patch.kind.Or(source.kind))
  }

  /** `sources.map(source => source.id === id ? { ...source, ...updates } : source)`. */
  function UpdateById(sources: seq<Source>, id: string, patch: SourcePatch): (r: seq<Source>)
    ensures |r| == |sources|
    ensures forall i :: 0 <= i < |r| && sources[i].id == id ==> r[i] == Merge(sources[i], patch)
    ensures forall i :: 0 <= i < |r| && sources[i].id != id ==> r[i] == sources[i]
    decreases |sources|
  {
    if |sources| == 0 then []
    else
      var head := if sources[0].id == id then Merge(sources[0], patch) else sources[0];
      [head] + UpdateById(sources[1..], id, patch)
  }

  function Added(s: StoreState, n: NewSource, id: string): StoreState {
    s.(sources := Append(s.sources, n, id))
  }

  function Removed(s: StoreState, id: string): StoreState {
    s.(sources := RemoveById(s.sources, id))
  }

  function Updated(s: StoreState, id: string, patch: SourcePatch): StoreState {
    s.(sources := UpdateById(s.sources, id, patch))
  }

  function ExportOf(s: StoreState, timestamp: string): (e: SceneExport)
    ensures e.version == "1.0.0"
  {
    SceneExport(
      ExportVersion, timestamp, s.sources, s.probePosition,
      VisualizationSettings(s.visualizationMode, s.animationSpeed, s.fieldLinesDensity))
  }

  /** The exported object as `importScene` sees it when it is read back. */
  function AsSceneData(e: SceneExport): SceneData {
    SceneData(
      Some(e.sources), Some(e.probePosition),
      Some(SettingsData(
        Some(e.visualizationSettings.mode),
        Some(e.visualizationSettings.animationSpeed),
        Some(e.visualizationSettings.fieldLinesDensity))))
  }

  /** `data.visualizationSettings?.key`: missing when the settings object is. */
  function SettingsMode(data: SceneData): Option<VisualizationMode> {
    if data.visualizationSettings.Some? then data.visualizationSettings.value.mode else None
  }

  function SettingsSpeed(data: SceneData): Option<real> {
    if data.visualizationSettings.Some? then data.visualizationSettings.value.animationSpeed else None
  }

  function SettingsDensity(data: SceneData): Option<real> {
    if data.visualizationSettings.Some? then data.visualizationSettings.value.fieldLinesDensity else None
  }

  function Import(s: StoreState, data: SceneData): StoreState {
    if data.sources.None? then s
    else s.(
      sources := data.sources.value,
      probePosition := data.probePosition.Or(DefaultProbePosition),
      visualizationMode := SettingsMode(data).Or(DefaultMode),
      animationSpeed := NumberOr(SettingsSpeed(data), DefaultAnimationSpeed),
      fieldLinesDensity := NumberOr(SettingsDensity(data), DefaultFieldLinesDensity))
  }

  function Clear(s: StoreState): StoreState {
    s.(sources := [], probePosition := DefaultProbePosition, isRunning := false)
  }

  // ---------------------------------------------------------------------
  // Properties of the transitions.

  /** Toggling flips the running flag and nothing else; twice is the identity. */
  lemma ToggleInvolution(s: StoreState)
    ensures Toggle(s).isRunning == !s.isRunning
    ensures Toggle(s).(isRunning := s.isRunning) == s
    ensures Toggle(Toggle(s)) == s
  {
  }

  /** Reset restores the default sources and probe and stops the simulation,
      whatever the state was; the visualisation settings survive. */
  lemma ResetRestoresDefaults(s: StoreState, t: StoreState)
    ensures Reset(s).sources == DefaultSources && Reset(s).probePosition == DefaultProbePosition
    ensures !Reset(s).isRunning
    ensures Reset(s).visualizationMode == s.visualizationMode
    ensures Reset(s).animationSpeed == s.animationSpeed
    ensures Reset(s).fieldLinesDensity == s.fieldLinesDensity
    ensures Reset(Reset(s)) == Reset(s)
    ensures Reset(InitialState) == InitialState
  {
  }

  /** Clearing empties the sources, resets the probe and stops the
      simulation; the visualisation settings survive. */
  lemma ClearKeepsSettings(s: StoreState)
    ensures Clear(s).sources == [] && Clear(s).probePosition == DefaultProbePosition
    ensures !Clear(s).isRunning
    ensures Clear(s).visualizationMode == s.visualizationMode
    ensures Clear(s).animationSpeed == s.animationSpeed
    ensures Clear(s).fieldLinesDensity == s.fieldLinesDensity
    ensures Clear(Clear(s)) == Clear(s)
    ensures Reset(Clear(s)) == Reset(s)
  {
  }

  /** Filtering distributes over concatenation, so it keeps the relative order
      of the sources it keeps. */
  lemma {:induction false} RemoveByIdConcat(a: seq<Source>, b: seq<Source>, id: string)
    ensures RemoveById(a + b, id) == RemoveById(a, id) + RemoveById(b, id)
    decreases |a|
  {
    if |a| == 0 {
      assert a + b == b;
    } else {
      assert (a + b)[0] == a[0];
      assert (a + b)[1..] == a[1..] + b;
      RemoveByIdConcat(a[1..], b, id);
    }
  }

  /** On a single source, removal keeps it exactly when its id differs. */
  lemma RemoveByIdSingleton(x: Source, id: string)
    ensures RemoveById([x], id) == if x.id == id then [] else [x]
  {
    assert [x][1..] == [];
  }

  /** Removing twice is removing once, and removals commute. */
  lemma {:induction false} RemoveByIdIdempotent(sources: seq<Source>, a: string, b: string)
    ensures RemoveById(RemoveById(sources, a), a) == RemoveById(sources, a)
    ensures RemoveById(RemoveById(sources, a), b) == RemoveById(RemoveById(sources, b), a)
    decreases |sources|
  {
    var r := RemoveById(sources, a);
    assert !HasId(r, a);
    if |sources| > 0 {
      var x, rest := sources[0], sources[1..];
      assert sources == [x] + rest;
      RemoveByIdIdempotent(rest, a, b);
      RemoveByIdSingleton(x, a);
      RemoveByIdSingleton(x, b);
      RemoveByIdConcat(RemoveById([x], a), RemoveById(rest, a), b);
      RemoveByIdConcat(RemoveById([x], b), RemoveById(rest, b), a);
      if x.id != a { RemoveByIdSingleton(x, b); }
      if x.id != b { RemoveByIdSingleton(x, a); }
    }
  }

  /** Adding a source under a fresh id and then removing that id gives back
      the list as it was. */
  lemma RemoveUndoesAdd(s: StoreState, n: NewSource, id: string)
    requires !HasId(s.sources, id)
    ensures Removed(Added(s, n, id), id) == s
  {
    RemoveByIdConcat(s.sources, [WithId(n, id)], id);
    RemoveByIdSingleton(WithId(n, id), id);
  }

  /** Merging with an empty patch changes nothing; merging twice is merging once. */
  lemma MergeLaws(source: Source, patch: SourcePatch)
    ensures Merge(source, SourcePatch(None, None, None, None)) == source
    ensures Merge(Merge(source, patch), patch) == Merge(source, patch)
  {
  }

  /** Updating twice with the same patch is updating once, even when the patch
      changes the id. */
  lemma UpdateByIdIdempotent(sources: seq<Source>, id: string, patch: SourcePatch)
    ensures UpdateById(UpdateById(sources, id, patch), id, patch) == UpdateById(sources, id, patch)
  {
    var r := UpdateById(sources, id, patch);
    var rr := UpdateById(r, id, patch);
    forall i | 0 <= i < |sources|
      ensures rr[i] == r[i]
    {
      MergeLaws(sources[i], patch);
    }
  }

  /** An update that does not touch ids cannot make a source escape or enter
      removal by that id. */
  lemma RemoveAfterUpdate(sources: seq<Source>, id: string, patch: SourcePatch)
    requires patch.id.None?
    ensures RemoveById(UpdateById(sources, id, patch), id) == RemoveById(sources, id)
  {
    var r := UpdateById(sources, id, patch);
    assert forall i :: 0 <= i < |r| ==> r[i].id == sources[i].id;
    assert forall i :: 0 <= i < |r| && r[i].id != id ==> r[i] == sources[i];
    RemoveByIdUnchangedOff(sources, r, id);
  }

  /** Two lists that agree everywhere except at sources with the given id,
      and share every id position by position, filter to the same list. */
  lemma {:induction false} RemoveByIdUnchangedOff(a: seq<Source>, b: seq<Source>, id: string)
    requires |a| == |b|
    requires forall i :: 0 <= i < |a| ==> a[i].id == b[i].id
    requires forall i :: 0 <= i < |a| && a[i].id != id ==> a[i] == b[i]
    ensures RemoveById(a, id) == RemoveById(b, id)
    decreases |a|
  {
    if |a| > 0 {
      RemoveByIdUnchangedOff(a[1..], b[1..], id);
    }
  }

  /** Importing what `exportScene` produced restores the sources, probe and
      mode exactly, and the speed and density exactly when they are non-zero
      (a zero is falsy and falls back to the default). The running flag is
      never touched. */
  lemma ImportOfExport(s: StoreState, exported: StoreState, timestamp: string)
    ensures var r := Import(s, AsSceneData(ExportOf(exported, timestamp)));
      && r.isRunning == s.isRunning
      && r.sources == exported.sources
      && r.probePosition == exported.probePosition
      && r.visualizationMode == exported.visualizationMode
      && (r.animationSpeed == exported.animationSpeed <==> exported.animationSpeed != 0 as real)
      && (exported.animationSpeed == 0 as real ==> r.animationSpeed == DefaultAnimationSpeed)
      && (r.fieldLinesDensity == exported.fieldLinesDensity <==> exported.fieldLinesDensity != 0 as real)
      && (exported.fieldLinesDensity == 0 as real ==> r.fieldLinesDensity == DefaultFieldLinesDensity)
  {
  }

  /** Re-importing a store's own export leaves it exactly as it was if and
      only if its speed and density are non-zero. */
  lemma ImportOwnExport(s: StoreState, timestamp: string)
    ensures Import(s, AsSceneData(ExportOf(s, timestamp))) == s
      <==> s.animationSpeed != 0 as real && s.fieldLinesDensity != 0 as real
  {
    ImportOfExport(s, s, timestamp);
  }

  /** Without a usable `sources` array the import is ignored entirely;
      with one, everything but the running flag is overwritten. */
  /** `||` never lets a zero speed or density in: an import either leaves
      the state alone or falls back to the non-zero default for a zero or
      missing setting. */
  lemma ImportKeepsSettingsNonzero(s: StoreState, data: SceneData)
    ensures data.sources.Some? ==>
      Import(s, data).animationSpeed != 0 as real && Import(s, data).fieldLinesDensity != 0 as real
    ensures s.animationSpeed != 0 as real && s.fieldLinesDensity != 0 as real ==>
      Import(s, data).animationSpeed != 0 as real && Import(s, data).fieldLinesDensity != 0 as real
  {
  }

  lemma ImportGuard(s: StoreState, data: SceneData)
    ensures data.sources.None? ==> Import(s, data) == s
    ensures data.sources.Some? ==> Import(s, data).sources == data.sources.value
    ensures Import(s, data).isRunning == s.isRunning
    ensures data.sources.Some? && data.probePosition.None? ==>
      Import(s, data).probePosition == DefaultProbePosition
    ensures data.sources.Some? && data.visualizationSettings.None? ==>
      Import(s, data).(isRunning := s.isRunning, sources := s.sources, probePosition := s.probePosition)
        == s.(visualizationMode := DefaultMode, animationSpeed := DefaultAnimationSpeed,
              fieldLinesDensity := DefaultFieldLinesDensity)
  {
  }

  // ---------------------------------------------------------------------
  // The store object.

  class SimulationStore {
    var isRunning: bool
    var sources: seq<Source>
    var probePosition: Vec3
    var visualizationMode: VisualizationMode
    var animationSpeed: real
    var fieldLinesDensity: real

    function State(): StoreState
      reads this
    {
      StoreState(isRunning, sources, probePosition, visualizationMode, animationSpeed, fieldLinesDensity)
    }

    constructor ()
      ensures State() == InitialState
    {
      isRunning := false;
      sources := DefaultSources;
      probePosition := DefaultProbePosition;
      visualizationMode := DefaultMode;
      animationSpeed := DefaultAnimationSpeed;
      fieldLinesDensity := DefaultFieldLinesDensity;
    }

    method ToggleSimulation()
      modifies this
      ensures State() == Toggle(old(State()))
    {
      isRunning := !isRunning;
    }

    method ResetSimulation()
      modifies this
      ensures State() == Reset(old(State()))
    {
      isRunning := false;
      sources := DefaultSources;
      probePosition := DefaultProbePosition;
    }

    method AddSource(n: NewSource, id: string)
      modifies this
      ensures State() == Added(old(State()), n, id)
      ensures sources[..|old(sources)|] == old(sources) && |sources| == |old(sources)| + 1
      ensures sources[|sources| - 1].id == id
    {
      sources := Append(sources, n, id);
    }

    method RemoveSource(id: string)
      modifies this
      ensures State() == Removed(old(State()), id)
      ensures forall x :: x in sources <==> x in old(sources) && x.id != id
    {
      sources := RemoveById(sources, id);
    }

    method UpdateSource(id: string, patch: SourcePatch)
      modifies this
      ensures State() == Updated(old(State()), id, patch)
      ensures |sources| == |old(sources)|
    {
      sources := UpdateById(sources, id, patch);
    }

    method SetProbePosition(position: Vec3)
      modifies this
      ensures State() == old(State()).(probePosition := position)
    {
      probePosition := position;
    }

    method SetVisualizationMode(mode: VisualizationMode)
      modifies this
      ensures State() == old(State()).(visualizationMode := mode)
    {
      visualizationMode := mode;
    }

    method SetAnimationSpeed(speed: real)
      modifies this
      ensures State() == old(State()).(animationSpeed := speed)
    {
      animationSpeed := speed;
    }

    method SetFieldLinesDensity(density: real)
      modifies this
      ensures State() == old(State()).(fieldLinesDensity := density)
    {
      fieldLinesDensity := density;
    }

    /** Reads the store; changes nothing. */
    method ExportScene(timestamp: string) returns (e: SceneExport)
      ensures e.version == ExportVersion && e.timestamp == timestamp
      ensures e.sources == sources && e.probePosition == probePosition
      ensures e.visualizationSettings == VisualizationSettings(visualizationMode, animationSpeed, fieldLinesDensity)
    {
      e := ExportOf(State(), timestamp);
    }

    method ImportScene(data: SceneData)
      modifies this
      ensures State() == Import(old(State()), data)
    {
      if data.sources.Some? {
        sources := data.sources.value;
        probePosition := data.probePosition.Or(DefaultProbePosition);
        visualizationMode := SettingsMode(data).Or(DefaultMode);
        animationSpeed := NumberOr(SettingsSpeed(data), DefaultAnimationSpeed);
        fieldLinesDensity := NumberOr(SettingsDensity(data), DefaultFieldLinesDensity);
      }
    }

    method ClearScene()
      modifies this
      ensures State() == Clear(old(State()))
    {
      sources := [];
      probePosition := DefaultProbePosition;
      isRunning := false;
    }
  }
}
