// The wave-path generators of src/utils.ts. Both build their point list in a
// loop; the first then overwrites its last point with the exact target.
// `Math.sqrt`, `Math.atan2`, `Math.sin` and `Math.cos` are the runtime's: the
// model receives them as a record of functions, and the lemmas that need their
// meaning state the laws they rely on at the one input where they are used.

module WavePath {
  import opened Common

  /** The functions of `Math` the generators call. */
  datatype MathLib = MathLib(
    sqrt: real -> real,
    atan2: (real, real) -> real,
    sin: real -> real,
    cos: real -> real)

  /** `origin + length * component`: a coordinate moved `length` along a direction's cosine or sine. */
  function Shift(origin: real, length: real, component: real): real {
    origin + length * component
  }

  /** The two exceptions the generators throw. */
  datatype WaveError = InsufficientPoints | InvalidOffset

  /** The arguments shared by both generators. */
  datatype WaveParams = WaveParams(
    source: Point,
    target: Point,
    startRadiusOffset: real,
    numPoints: int,
    waveCyclesAlongPath: real,
    amplitudeGrowthRate: real)

  function DeltaX(w: WaveParams): real { w.target.x - w.source.x }
  function DeltaY(w: WaveParams): real { w.target.y - w.source.y }

  /** `totalDistanceToTarget`. */
  function Distance(m: MathLib, w: WaveParams): real {
    m.sqrt(DeltaX(w) * DeltaX(w) + DeltaY(w) * DeltaY(w))
  }

  /** `centralDirectionAngle`. */
  function Direction(m: MathLib, w: WaveParams): real {
    m.atan2(DeltaY(w), DeltaX(w))
  }

  /** The progress `t = i / (numPoints - 1)` of point `i`. */
  function Progress(w: WaveParams, i: int): real
    requires w.numPoints >= 2
  {
    i as real / (w.numPoints - 1) as real
  }

  /** `distanceAlongPath` of point `i`: from the offset to the target distance. */
  function DistanceAlong(m: MathLib, w: WaveParams, i: int): real
    requires w.numPoints >= 2
  {
    w.startRadiusOffset + Progress(w, i) * (Distance(m, w) - w.startRadiusOffset)
  }

  /** The oscillation factor `sin(t * waveCyclesAlongPath * 2 * PI)` of point `i`. */
  function Oscillation(m: MathLib, w: WaveParams, i: int): real
    requires w.numPoints >= 2
  {
    m.sin(Progress(w, i) * w.waveCyclesAlongPath * 2.0 * Pi)
  }

  /** Point `i` as the directed-wave loop computes it, before the last point is pinned. */
  function WavePoint(m: MathLib, w: WaveParams, i: int): Point
    requires w.numPoints >= 2
  {
    var theta := Direction(m, w);
    var perpendicular := theta + Pi / 2.0;
    var d := DistanceAlong(m, w, i);
    var centralX := Shift(w.source.x, d, m.cos(theta));
    var centralY := Shift(w.source.y, d, m.sin(theta));
    var amplitude := (d - w.startRadiusOffset) * w.amplitudeGrowthRate;
    var offset := Oscillation(m, w, i) * amplitude;
    Point(Shift(centralX, offset, m.cos(perpendicular)), Shift(centralY, offset, m.sin(perpendicular)))
  }

  /** A successful directed-wave result: `numPoints` points, computed ones followed by the exact target. */
  ghost predicate IsWavePath(m: MathLib, w: WaveParams, path: seq<Point>)
    requires w.numPoints >= 2
  {
    && |path| == w.numPoints
    && path[w.numPoints - 1] == w.target
    && forall i :: 0 <= i < w.numPoints - 1 ==> path[i] == WavePoint(m, w, i)
  }

  /** `generateDirectedWaveToTargetPath`. */
  method GenerateDirectedWaveToTargetPath(m: MathLib, w: WaveParams)
    returns (r: Result<seq<Point>, WaveError>)
    ensures r == Err(InsufficientPoints) <==> w.numPoints < 2
    ensures r == Err(InvalidOffset) <==> w.numPoints >= 2 && w.startRadiusOffset >= Distance(m, w)
    ensures r.Ok? ==> w.numPoints >= 2 && IsWavePath(m, w, r.value)
  {
    if w.numPoints < 2 {
      return Err(InsufficientPoints);
    }
    var path: seq<Point> := [];
    var totalDistanceToTarget := Distance(m, w);
    var centralDirectionAngle := Direction(m, w);
    if w.startRadiusOffset >= totalDistanceToTarget {
      return Err(InvalidOffset);
    }
    var perpendicularAngle := centralDirectionAngle + Pi / 2.0;
    for i := 0 to w.numPoints
      invariant |path| == i
      invariant forall k :: 0 <= k < i ==> path[k] == WavePoint(m, w, k)
    {
      var distanceAlongPath := DistanceAlong(m, w, i);
      var centralX := Shift(w.source.x, distanceAlongPath, m.cos(centralDirectionAngle));
      var centralY := Shift(w.source.y, distanceAlongPath, m.sin(centralDirectionAngle));
      var currentAmplitude := (distanceAlongPath - w.startRadiusOffset) * w.amplitudeGrowthRate;
      var oscillation := Oscillation(m, w, i);
      var perpendicularOffset := oscillation * currentAmplitude;
      var x := Shift(centralX, perpendicularOffset, m.cos(perpendicularAngle));
      var y := Shift(centralY, perpendicularOffset, m.sin(perpendicularAngle));
      path := path + [Point(x, y)];
    }
    if |path| > 0 {
      path := path[|path| - 1 := w.target];
    }
    return Ok(path);
  }

  /** `spreadAngle` of beam point `i`: the central direction turned by `(t - 0.5) * beamWidthRadians`. */
  function SpreadAngle(m: MathLib, w: WaveParams, beamWidthRadians: real, i: int): real
    requires w.numPoints >= 2
  {
    Direction(m, w) + (Progress(w, i) - 0.5) * beamWidthRadians
  }

  /** Point `i` of the fan-shaped beam: the angle itself sweeps across `beamWidthRadians`. */
  function BeamPoint(m: MathLib, w: WaveParams, beamWidthRadians: real, i: int): Point
    requires w.numPoints >= 2
  {
    var baseRadius := DistanceAlong(m, w, i);
    var spreadAngle := SpreadAngle(m, w, beamWidthRadians, i);
    var amplitude := (baseRadius - w.startRadiusOffset) * w.amplitudeGrowthRate;
    var actualRadius := baseRadius + Oscillation(m, w, i) * amplitude;
    Point(Shift(w.source.x, actualRadius, m.cos(spreadAngle)), Shift(w.source.y, actualRadius, m.sin(spreadAngle)))
  }

  /** A successful beam result: `numPoints` computed points, the last one not pinned. */
  ghost predicate IsBeamPath(m: MathLib, w: WaveParams, beamWidthRadians: real, path: seq<Point>)
    requires w.numPoints >= 2
  {
    && |path| == w.numPoints
    && forall i :: 0 <= i < w.numPoints ==> path[i] == BeamPoint(m, w, beamWidthRadians, i)
  }

  /** `generateDirectedWaveBeamPath`. */
  method GenerateDirectedWaveBeamPath(m: MathLib, w: WaveParams, beamWidthRadians: real)
    returns (r: Result<seq<Point>, WaveError>)
    ensures r == Err(InsufficientPoints) <==> w.numPoints < 2
    ensures r == Err(InvalidOffset) <==> w.numPoints >= 2 && w.startRadiusOffset >= Distance(m, w)
    ensures r.Ok? ==> w.numPoints >= 2 && IsBeamPath(m, w, beamWidthRadians, r.value)
  {
    if w.numPoints < 2 {
      return Err(InsufficientPoints);
    }
    var path: seq<Point> := [];
    var totalDistanceToTarget := Distance(m, w);
    if w.startRadiusOffset >= totalDistanceToTarget {
      return Err(InvalidOffset);
    }
    for i := 0 to w.numPoints
      invariant |path| == i
      invariant forall k :: 0 <= k < i ==> path[k] == BeamPoint(m, w, beamWidthRadians, k)
    {
      var baseRadius := DistanceAlong(m, w, i);
      var spreadAngle := SpreadAngle(m, w, beamWidthRadians, i);
      var currentAmplitude := (baseRadius - w.startRadiusOffset) * w.amplitudeGrowthRate;
      var oscillation := Oscillation(m, w, i);
      var actualRadius := baseRadius + oscillation * currentAmplitude;
      var x := Shift(w.source.x, actualRadius, m.cos(spreadAngle));
      var y := Shift(w.source.y, actualRadius, m.sin(spreadAngle));
      path := path + [Point(x, y)];
    }
    return Ok(path);
  }

  // ---------------------------------------------------------------------------
  // Properties. `Direction` is `atan2(dy, dx)`; where a lemma needs it, it
  // states that `cos` and `sin` of that angle are `dx / D` and `dy / D`.

  /** The runtime's direction unit vector at this input: `(cos θ, sin θ) · D == (dx, dy)`. */
  ghost predicate UnitDirection(m: MathLib, w: WaveParams) {
    && Distance(m, w) > 0.0
    && m.cos(Direction(m, w)) * Distance(m, w) == DeltaX(w)
    && m.sin(Direction(m, w)) * Distance(m, w) == DeltaY(w)
  }

  /** The point at fraction `f` of the way from the source to the target. */
  function Along(w: WaveParams, f: real): Point {
    Point(w.source.x + f * DeltaX(w), w.source.y + f * DeltaY(w))
  }

  /** Coincident source and target are always rejected when the offset is not negative. */
  lemma CoincidentEndpointsRejected(m: MathLib, w: WaveParams)
    requires w.source == w.target && w.startRadiusOffset >= 0.0
    requires m.sqrt(0.0) == 0.0
    ensures w.startRadiusOffset >= Distance(m, w)
  {
    assert DeltaX(w) * DeltaX(w) + DeltaY(w) * DeltaY(w) == 0.0;
  }

  /** A negative offset is never rejected, since a square root is not negative. */
  lemma NegativeOffsetAccepted(m: MathLib, w: WaveParams)
    requires w.startRadiusOffset < 0.0
    requires Distance(m, w) >= 0.0
    ensures !(w.startRadiusOffset >= Distance(m, w))
  {
  }

  /** Point 0 has no amplitude: it lies on the source-target line, `startRadiusOffset` away from the source. */
  lemma FirstPointAtOffset(m: MathLib, w: WaveParams)
    requires w.numPoints >= 2 && UnitDirection(m, w)
    ensures WavePoint(m, w, 0) == Along(w, w.startRadiusOffset / Distance(m, w))
  {
    var D := Distance(m, w);
    assert Progress(w, 0) == 0.0;
    assert DistanceAlong(m, w, 0) == w.startRadiusOffset;
    assert m.cos(Direction(m, w)) == DeltaX(w) / D;
    assert m.sin(Direction(m, w)) == DeltaY(w) / D;
  }

  /** `distanceAlongPath` grows linearly in `i`, from the offset at 0 to the full distance at `numPoints - 1`. */
  lemma DistanceAlongLinear(m: MathLib, w: WaveParams, i: int)
    requires w.numPoints >= 2
    ensures DistanceAlong(m, w, i)
         == w.startRadiusOffset + i as real * (Distance(m, w) - w.startRadiusOffset) / (w.numPoints - 1) as real
    ensures i == 0 ==> DistanceAlong(m, w, i) == w.startRadiusOffset
    ensures i == w.numPoints - 1 ==> DistanceAlong(m, w, i) == Distance(m, w)
  {
  }

  /** With `amplitudeGrowthRate == 0` the computed point `i` lies on the source-target line. */
  lemma FlatWavePoint(m: MathLib, w: WaveParams, i: int)
    requires w.numPoints >= 2 && w.amplitudeGrowthRate == 0.0 && UnitDirection(m, w)
    ensures WavePoint(m, w, i) == Along(w, DistanceAlong(m, w, i) / Distance(m, w))
  {
    var D := Distance(m, w);
    var theta := Direction(m, w);
    var d := DistanceAlong(m, w, i);
    var offset := Oscillation(m, w, i) * ((d - w.startRadiusOffset) * w.amplitudeGrowthRate);
    assert offset == 0.0;
    assert d * m.cos(theta) == (d / D) * DeltaX(w) by {
      assert m.cos(theta) == DeltaX(w) / D;
    }
    assert d * m.sin(theta) == (d / D) * DeltaY(w) by {
      assert m.sin(theta) == DeltaY(w) / D;
    }
  }

  /**
   * With `amplitudeGrowthRate == 0` every point of a directed-wave result lies on
   * the source-target line, at `distanceAlongPath` from the source.
   */
  lemma FlatWaveOnLine(m: MathLib, w: WaveParams, path: seq<Point>)
    requires w.numPoints >= 2 && w.amplitudeGrowthRate == 0.0 && UnitDirection(m, w)
    requires IsWavePath(m, w, path)
    ensures forall i :: 0 <= i < |path| ==> path[i] == Along(w, DistanceAlong(m, w, i) / Distance(m, w))
  {
    var D := Distance(m, w);
    forall i | 0 <= i < |path|
      ensures path[i] == Along(w, DistanceAlong(m, w, i) / D)
    {
      if i == |path| - 1 {
        DistanceAlongLinear(m, w, i);
        assert DistanceAlong(m, w, i) / D == 1.0;
      } else {
        FlatWavePoint(m, w, i);
      }
    }
  }

  /**
   * Before pinning, the computed last point sits off the target by the last
   * oscillation offset, along the perpendicular; pinning removes that offset.
   */
  lemma LastComputedPointOffTarget(m: MathLib, w: WaveParams)
    requires w.numPoints >= 2 && UnitDirection(m, w)
    ensures var o := Oscillation(m, w, w.numPoints - 1) * ((Distance(m, w) - w.startRadiusOffset) * w.amplitudeGrowthRate);
            var perpendicular := Direction(m, w) + Pi / 2.0;
            WavePoint(m, w, w.numPoints - 1)
            == Point(w.target.x + o * m.cos(perpendicular), w.target.y + o * m.sin(perpendicular))
  {
    var D := Distance(m, w);
    var theta := Direction(m, w);
    var d := DistanceAlong(m, w, w.numPoints - 1);
    assert d == D by {
      DistanceAlongLinear(m, w, w.numPoints - 1);
    }
    assert w.source.x + d * m.cos(theta) == w.target.x;
    assert w.source.y + d * m.sin(theta) == w.target.y;
  }

  /** With neither growth nor spread the beam traces the same points as the directed wave. */
  lemma BeamWithoutSpreadOrGrowth(m: MathLib, w: WaveParams, i: int)
    requires w.numPoints >= 2 && w.amplitudeGrowthRate == 0.0
    ensures BeamPoint(m, w, 0.0, i) == WavePoint(m, w, i)
  {
    var d := DistanceAlong(m, w, i);
    var offset := Oscillation(m, w, i) * ((d - w.startRadiusOffset) * w.amplitudeGrowthRate);
    var theta := Direction(m, w);
    var perpendicular := theta + Pi / 2.0;
    assert offset == 0.0;
    assert SpreadAngle(m, w, 0.0, i) == theta;
    assert BeamPoint(m, w, 0.0, i) == Point(w.source.x + d * m.cos(theta), w.source.y + d * m.sin(theta));
    assert offset * m.cos(perpendicular) == 0.0 && offset * m.sin(perpendicular) == 0.0;
  }

  /** The beam starts at `startRadiusOffset` along the near edge of the fan, `θ - beamWidthRadians / 2`. */
  lemma BeamFirstPoint(m: MathLib, w: WaveParams, beamWidthRadians: real)
    requires w.numPoints >= 2
    ensures var edge := Direction(m, w) - beamWidthRadians / 2.0;
            BeamPoint(m, w, beamWidthRadians, 0)
            == Point(w.source.x + w.startRadiusOffset * m.cos(edge), w.source.y + w.startRadiusOffset * m.sin(edge))
  {
    var edge := Direction(m, w) - beamWidthRadians / 2.0;
    assert Progress(w, 0) == 0.0;
    var d := DistanceAlong(m, w, 0);
    assert d == w.startRadiusOffset;
    var amplitude := (d - w.startRadiusOffset) * w.amplitudeGrowthRate;
    assert amplitude == 0.0;
    var actualRadius := d + Oscillation(m, w, 0) * amplitude;
    assert actualRadius == w.startRadiusOffset;
    assert SpreadAngle(m, w, beamWidthRadians, 0) == edge;
    assert BeamPoint(m, w, beamWidthRadians, 0)
        == Point(w.source.x + actualRadius * m.cos(edge), w.source.y + actualRadius * m.sin(edge));
  }
}
