/** The 3D scene's field lines: for every source a ring of start points,
    eight per unit of charge, each traced along (or, for a negative source,
    against) the simplified electric field until the field is too weak, the
    line leaves the radius-20 ball, or 200 steps have been taken. */
module Scene3D {
  import opened Vectors
  import Store
  import ViewFields

  const SCENE_K: real := 8.99e9
  const SCENE_CUTOFF: real := 0.1
  const STEP_SIZE: real := 0.1
  const MAX_STEPS: nat := 200
  /** Field lines per unit charge. */
  const DENSITY: real := 8.0

  /** The scene's `calculateElectricField`. */
  function SceneField(math: MathLib, position: Vec3, sources: seq<Store.Source>): Vec3 {
    ViewFields.ViewField(math, position, sources, SCENE_K, SCENE_CUTOFF)
  }

  /** One step of `calculateFieldLine`: `0.1` along the field for a positive
      source, against it for a negative one. */
  function SceneStep(math: MathLib, p: Vec3, sources: seq<Store.Source>, isPositive: bool): Vec3 {
    Add(p, Scale(Normalize(math, SceneField(math, p, sources)), STEP_SIZE * (if isPositive then 1.0 else -1.0)))
  }

  predicate WeakScene(math: MathLib, p: Vec3, sources: seq<Store.Source>) {
    Length(math, SceneField(math, p, sources)) < 0.001
  }

  /** Point `k + 1` is one step from point `k`, whose field was not too
      weak, and lies within 20 of the origin. */
  predicate SceneStepAt(math: MathLib, points: seq<Vec3>, k: int, sources: seq<Store.Source>, isPositive: bool)
    requires 0 <= k < |points| - 1
  {
    && !WeakScene(math, points[k], sources)
    && points[k + 1] == SceneStep(math, points[k], sources, isPositive)
    && Length(math, points[k + 1]) <= 20.0
  }

  predicate FollowsSceneField(math: MathLib, points: seq<Vec3>, sources: seq<Store.Source>, isPositive: bool) {
    forall k :: 0 <= k < |points| - 1 ==> SceneStepAt(math, points, k, sources, isPositive)
  }

  /** The tracer stops at `p`: the field is too weak, or the step would
      leave the radius-20 ball (the point it reaches is not kept). */
  predicate StopsScene(math: MathLib, p: Vec3, sources: seq<Store.Source>, isPositive: bool) {
    WeakScene(math, p, sources) || Length(math, SceneStep(math, p, sources, isPositive)) > 20.0
  }

  lemma ExtendSceneLine(math: MathLib, points: seq<Vec3>, x: Vec3, sources: seq<Store.Source>, isPositive: bool)
    requires 0 < |points| && FollowsSceneField(math, points, sources, isPositive)
    requires !WeakScene(math, points[|points| - 1], sources)
    requires x == SceneStep(math, points[|points| - 1], sources, isPositive) && Length(math, x) <= 20.0
    ensures FollowsSceneField(math, points + [x], sources, isPositive)
  {
    var q := points + [x];
    forall k | 0 <= k < |q| - 1
      ensures SceneStepAt(math, q, k, sources, isPositive)
    {
      if k < |points| - 1 {
        assert SceneStepAt(math, points, k, sources, isPositive);
        assert q[k] == points[k] && q[k + 1] == points[k + 1];
      } else {
        assert q[k] == points[|points| - 1] && q[k + 1] == x;
      }
    }
  }

  /** `calculateFieldLine`: from `start`, at most 200 steps, each kept only
      while the field is strong enough and the line stays within 20; the
      trace ends early only where one of those fails. */
  method CalculateFieldLine(math: MathLib, startPos: Vec3, sources: seq<Store.Source>, isPositive: bool)
    returns (points: seq<Vec3>)
    ensures 1 <= |points| <= MAX_STEPS + 1 && points[0] == startPos
    ensures FollowsSceneField(math, points, sources, isPositive)
    ensures |points| < MAX_STEPS + 1 ==> StopsScene(math, points[|points| - 1], sources, isPositive)
  {
    points := [startPos];
    var currentPos := startPos;
    for step := 0 to MAX_STEPS
      invariant |points| == step + 1 && points[0] == startPos && points[step] == currentPos
      invariant FollowsSceneField(math, points, sources, isPositive)
    {
      var field := ViewFields.CalculateViewField(math, currentPos, sources, SCENE_K, SCENE_CUTOFF);
      if Length(math, field) < 0.001 {
        break;
      }
      var here := currentPos;
      var stepVector := Scale(Normalize(math, field), STEP_SIZE * (if isPositive then 1.0 else -1.0));
      currentPos := Add(currentPos, stepVector);
      if Length(math, currentPos) > 20.0 {
        break;
      }
      ExtendSceneLine(math, points, currentPos, sources, isPositive);
      points := points + [currentPos];
    }
  }

  // ---------------------------------------------------------------------
  // The field-line memo.

  datatype FieldLine = FieldLine(points: seq<Vec3>, strength: real)

  /** How many `i = 0, 1, 2, ...` satisfy `i < n`: the least natural
      number at or above `n`. */
  function LineCount(n: real): (c: nat)
    ensures n <= (c as real)
    ensures c == 0 || ((c - 1) as real) < n
  {
    if n <= 0 as real then 0
    else if n == n.Floor as real then n.Floor
    else n.Floor + 1
  }

  /** `i < n` exactly for the first `LineCount(n)` naturals. */
  lemma LineCountBound(n: real, i: nat)
    ensures (i as real) < n <==> i < LineCount(n)
  {
    var c := LineCount(n);
    if i < c {
      assert (i as real) <= ((c - 1) as real);
    }
  }

  /** The number of lines drawn for one source: `|q|·8`, rounded up. */
  function LinesFor(source: Store.Source): nat {
    LineCount(Abs(source.strength) * DENSITY)
  }

  /** The number of lines of all sources of `sources`. */
  function TotalLines(sources: seq<Store.Source>): nat
    decreases |sources|
  {
    if |sources| == 0 then 0 else TotalLines(sources[..|sources| - 1]) + LinesFor(sources[|sources| - 1])
  }

  /** Where line `k` of the memo's output starts to belong to `sources[j]`
      plus `i`: the lines of the sources before `j` come first. */
  function LineIndex(sources: seq<Store.Source>, j: int, i: int): int
    requires 0 <= j <= |sources|
  {
    TotalLines(sources[..j]) + i
  }

  /** Every line number below the total is line `i` of some source `j`. */
  lemma {:induction false} LineIndexOnto(sources: seq<Store.Source>, k: int) returns (j: int, i: int)
    requires 0 <= k < TotalLines(sources)
    ensures 0 <= j < |sources| && 0 <= i < LinesFor(sources[j]) && LineIndex(sources, j, i) == k
    decreases |sources|
  {
    var n := |sources|;
    var pre := sources[..n - 1];
    if k < TotalLines(pre) {
      j, i := LineIndexOnto(pre, k);
      assert pre[..j] == sources[..j];
    } else {
      j, i := n - 1, k - TotalLines(pre);
    }
  }

  /** The start of line `i` of `source`: on the radius-0.2 ring around the
      source in its horizontal plane, at angle `2π·i/n` for `n = abs(q)·8`. */
  function RingStart(math: MathLib, source: Store.Source, i: int): Vec3
    requires 0 <= i < LinesFor(source)
  {
    var numLines := Abs(source.strength) * DENSITY;
    var angle := ((i as real) / numLines) * PI * 2.0;
    Vec3(source.position.x + math.cos(angle) * 0.2, source.position.y, source.position.z + math.sin(angle) * 0.2)
  }

  /** Line `i` of `source`: traced from the `i`-th ring start, carrying the
      source's strength, in the direction its sign selects, and ended early
      only where the tracer stops. */
  predicate IsLineOf(math: MathLib, line: FieldLine, source: Store.Source, i: int, sources: seq<Store.Source>)
    requires 0 <= i < LinesFor(source)
  {
    && 1 <= |line.points| <= MAX_STEPS + 1
    && line.strength == source.strength
    && line.points[0] == RingStart(math, source, i)
    && FollowsSceneField(math, line.points, sources, source.strength > 0 as real)
    && (|line.points| < MAX_STEPS + 1 ==>
         StopsScene(math, line.points[|line.points| - 1], sources, source.strength > 0 as real))
  }

  /** `lines[k]` is line `i` of `sources[j]`, for some `j` and `i`, and sits
      where the grouping by source puts it. */
  ghost predicate OfSomeSource(math: MathLib, sources: seq<Store.Source>, lines: seq<FieldLine>, k: int)
    requires 0 <= k < |lines|
  {
    exists j, i ::
      && 0 <= j < |sources| && 0 <= i < LinesFor(sources[j]) && LineIndex(sources, j, i) == k
      && IsLineOf(math, lines[k], sources[j], i, sources)
  }

  /** Lines grouped by source, in order, cover every line: each one is
      line `i` of some source `j`. */
  lemma LinesBelongToSources(math: MathLib, sources: seq<Store.Source>, lines: seq<FieldLine>)
    requires |lines| == TotalLines(sources)
    requires forall j, i :: 0 <= j < |sources| && 0 <= i < LinesFor(sources[j]) ==>
      LineIndex(sources, j, i) < |lines| && IsLineOf(math, lines[LineIndex(sources, j, i)], sources[j], i, sources)
    ensures forall k :: 0 <= k < |lines| ==> OfSomeSource(math, sources, lines, k)
  {
    forall k | 0 <= k < |lines|
      ensures OfSomeSource(math, sources, lines, k)
    {
      var j, i := LineIndexOnto(sources, k);
    }
  }

  /** The `fieldLines` memo: `⌈abs(q)·8⌉` lines per source, grouped by
      source in order, line `i` of a source starting at its `i`-th ring
      point and traced by `calculateFieldLine`; nothing for an empty scene. */
  method FieldLines(math: MathLib, sources: seq<Store.Source>) returns (lines: seq<FieldLine>)
    ensures |sources| == 0 ==> lines == []
    ensures |lines| == TotalLines(sources)
    ensures forall j, i :: 0 <= j < |sources| && 0 <= i < LinesFor(sources[j]) ==>
      LineIndex(sources, j, i) < |lines| && IsLineOf(math, lines[LineIndex(sources, j, i)], sources[j], i, sources)
    ensures forall k :: 0 <= k < |lines| ==> OfSomeSource(math, sources, lines, k)
  {
    if |sources| == 0 {
      return [];
    }
    lines := [];
    for j := 0 to |sources|
      invariant |lines| == TotalLines(sources[..j])
      invariant forall j', i' :: 0 <= j' < j && 0 <= i' < LinesFor(sources[j']) ==>
        LineIndex(sources, j', i') < |lines| && IsLineOf(math, lines[LineIndex(sources, j', i')], sources[j'], i', sources)
    {
      var source := sources[j];
      assert sources[..j + 1][..j] == sources[..j];
      var numLines := Abs(source.strength) * DENSITY;
      var i: nat := 0;
      LineCountBound(numLines, i);
      while (i as real) < numLines
        invariant i <= LineCount(numLines)
        invariant |lines| == TotalLines(sources[..j]) + i
        invariant forall j', i' :: 0 <= j' < j && 0 <= i' < LinesFor(sources[j']) ==>
          LineIndex(sources, j', i') < |lines| && IsLineOf(math, lines[LineIndex(sources, j', i')], sources[j'], i', sources)
        invariant forall i' :: 0 <= i' < i ==>
          LineIndex(sources, j, i') < |lines| && IsLineOf(math, lines[LineIndex(sources, j, i')], source, i', sources)
        decreases LineCount(numLines) - i
      {
        LineCountBound(numLines, i);
        var angle := ((i as real) / numLines) * PI * 2.0;
        var startPos := Vec3(
          source.position.x + math.cos(angle) * 0.2,
          source.position.y,
          source.position.z + math.sin(angle) * 0.2);
        assert startPos == RingStart(math, source, i);
        var points := CalculateFieldLine(math, startPos, sources, source.strength > 0 as real);
        var line := FieldLine(points, source.strength);
        assert IsLineOf(math, line, source, i, sources);
        ghost var prev := lines;
        lines := lines + [line];
        assert forall k :: 0 <= k < |prev| ==> lines[k] == prev[k];
        assert lines[LineIndex(sources, j, i)] == line;
        i := i + 1;
        LineCountBound(numLines, i);
      }
    }
    assert sources[..|sources|] == sources;
    LinesBelongToSources(math, sources, lines);
  }
}
