// What src/LinearTimeline.tsx computes on each render before it draws. The
// events are sorted by date; time runs along x and distance down y. One guide
// line per location, by distance; one marker per event at its date and its
// target's distance, larger for the first event, numbered for the first and
// the last; and a quadratic Bezier curve from each marker to the next, lifted
// 50 units at its control point. Positions are left as the scales' inputs
// (`Anchor`); `createBezierPath` is modelled on numbers on its own.

module LinearCurveView {
  import opened Common
  import opened Records
  import opened Text
  import opened Sequences
  import opened Sorting
  import opened TimelineData
  import PlaceColors

  /** The size props, with `DefaultFrame` holding their defaults. */
  datatype Frame = Frame(width: real, height: real, xMargin: real, yMargin: real)

  const DefaultFrame: Frame := Frame(1000.0, 500.0, 20.0, 30.0)

  /** How far the control point of a curve sits above the middle of its chord. */
  const CurveLift: real := 50.0

  // ----- createBezierPath -----

  /** The control point `createBezierPath` picks for a curve from `from` to `to`. */
  function ControlPoint(from: Point, to: Point): Point {
    Point((from.x + to.x) / 2.0, (from.y + to.y) / 2.0 - CurveLift)
  }

  /** A point as the template literal writes it: `x,y`. */
  function Pair(p: Point, fmt: real -> string): string {
    fmt(p.x) + "," + fmt(p.y)
  }

  /** `createBezierPath`: the path data `M x1,y1 Q cx,cy x2,y2`. */
  function BezierPath(from: Point, to: Point, fmt: real -> string): string {
    "M " + Pair(from, fmt) + " Q " + Pair(ControlPoint(from, to), fmt) + " " + Pair(to, fmt)
  }

  /**
   * The point at parameter `t` of the quadratic Bezier curve with end points
   * `p0`, `p1` and control point `c`, as section 8.3.6 of SVG 1.1 defines the
   * `Q` command.
   */
  function QuadraticAt(p0: Point, c: Point, p1: Point, t: real): Point {
    Point((1.0 - t) * (1.0 - t) * p0.x + 2.0 * t * (1.0 - t) * c.x + t * t * p1.x,
          (1.0 - t) * (1.0 - t) * p0.y + 2.0 * t * (1.0 - t) * c.y + t * t * p1.y)
  }

  /**
   * The curve `createBezierPath` draws starts at its first point and ends at
   * its second; it moves along x at a constant rate, so it never turns back in
   * time; and it lies `2 * CurveLift * t * (1 - t)` above the straight chord,
   * which is at most half the lift, reached half-way.
   */
  lemma BezierCurveShape(from: Point, to: Point, t: real)
    requires 0.0 <= t <= 1.0
    ensures QuadraticAt(from, ControlPoint(from, to), to, 0.0) == from
    ensures QuadraticAt(from, ControlPoint(from, to), to, 1.0) == to
    ensures var b := QuadraticAt(from, ControlPoint(from, to), to, t);
            && b.x == from.x + t * (to.x - from.x)
            && b.y == from.y + t * (to.y - from.y) - 2.0 * CurveLift * t * (1.0 - t)
            && from.y + t * (to.y - from.y) - CurveLift / 2.0 <= b.y <= from.y + t * (to.y - from.y)
    ensures var half := QuadraticAt(from, ControlPoint(from, to), to, 0.5);
            half == Point((from.x + to.x) / 2.0, (from.y + to.y) / 2.0 - CurveLift / 2.0)
  {
    var c := ControlPoint(from, to);
    var u := 1.0 - t;
    assert u * u + 2.0 * t * u + t * t == 1.0 by {
      assert (u + t) * (u + t) == u * u + 2.0 * t * u + t * t;
    }
    assert 2.0 * t * u * c.x == t * u * from.x + t * u * to.x;
    assert 2.0 * t * u * c.y == t * u * from.y + t * u * to.y - 2.0 * CurveLift * t * u;
    assert u * u * from.x + t * u * from.x == u * from.x by {
      assert u * u + t * u == u * (u + t);
    }
    assert t * u * to.x + t * t * to.x == t * to.x by {
      assert t * u + t * t == t * (u + t);
    }
    assert u * u * from.y + t * u * from.y == u * from.y by {
      assert u * u + t * u == u * (u + t);
    }
    assert t * u * to.y + t * t * to.y == t * to.y by {
      assert t * u + t * t == t * (u + t);
    }
    assert 0.0 <= t * u <= 0.25 by {
      assert 0.25 - t * u == (t - 0.5) * (t - 0.5);
    }
  }

  /** The three points of a quadratic Bezier path: start, control, end. */
  datatype Quadratic = Quadratic(start: Point, control: Point, end: Point)

  /** Reads `x,y` back into a point; `None` unless there is exactly one comma. */
  function ParsePair(w: string, parse: string -> real): Option<Point> {
    var xy := Split(w, ',');
    if |xy| == 2 then Some(Point(parse(xy[0]), parse(xy[1]))) else None
  }

  /** Reads path data of the form `M x1,y1 Q cx,cy x2,y2` back into its three points. */
  function ParseBezierPath(d: string, parse: string -> real): Option<Quadratic> {
    var words := Split(d, ' ');
    if |words| != 5 || words[0] != "M" || words[2] != "Q" then None
    else
      match (ParsePair(words[1], parse), ParsePair(words[3], parse), ParsePair(words[4], parse))
      case (Some(p0), Some(c), Some(p1)) => Some(Quadratic(p0, c, p1))
      case _ => None
  }

  /** `fmt` writes `v` without a space or a comma, and `parse` reads it back. */
  ghost predicate Legible(v: real, fmt: real -> string, parse: string -> real) {
    ' ' !in fmt(v) && ',' !in fmt(v) && parse(fmt(v)) == v
  }

  ghost predicate LegiblePoint(p: Point, fmt: real -> string, parse: string -> real) {
    Legible(p.x, fmt, parse) && Legible(p.y, fmt, parse)
  }

  lemma PairRoundTrip(p: Point, fmt: real -> string, parse: string -> real)
    requires LegiblePoint(p, fmt, parse)
    ensures ' ' !in Pair(p, fmt)
    ensures ParsePair(Pair(p, fmt), parse) == Some(p)
  {
    SplitAfterFirstPart(fmt(p.x), ',', fmt(p.y));
    SplitWithoutSeparator(fmt(p.y), ',');
    assert Pair(p, fmt) == fmt(p.x) + [','] + fmt(p.y);
  }

  /**
   * Round trip: reading the path data back gives the two end points and the
   * control point, as long as every coordinate is written without a space or
   * a comma and read back as itself.
   */
  lemma BezierPathRoundTrip(from: Point, to: Point, fmt: real -> string, parse: string -> real)
    requires LegiblePoint(from, fmt, parse) && LegiblePoint(to, fmt, parse)
    requires LegiblePoint(ControlPoint(from, to), fmt, parse)
    ensures ParseBezierPath(BezierPath(from, to, fmt), parse) == Some(Quadratic(from, ControlPoint(from, to), to))
  {
    var c := ControlPoint(from, to);
    var a, b, e := Pair(from, fmt), Pair(c, fmt), Pair(to, fmt);
    PairRoundTrip(from, fmt, parse);
    PairRoundTrip(c, fmt, parse);
    PairRoundTrip(to, fmt, parse);
    var tail3 := b + [' '] + e;
    var tail2 := "Q" + [' '] + tail3;
    var tail1 := a + [' '] + tail2;
    assert BezierPath(from, to, fmt) == "M" + [' '] + tail1;
    SplitWithoutSeparator(e, ' ');
    SplitAfterFirstPart(b, ' ', e);
    SplitAfterFirstPart("Q", ' ', tail3);
    SplitAfterFirstPart(a, ' ', tail2);
    SplitAfterFirstPart("M", ' ', tail1);
    assert Split(BezierPath(from, to, fmt), ' ') == ["M", a, "Q", b, e];
  }

  // ----- the view -----

  /** The circle of an event: at its date and its target, `r` 8 for the first and 3 after, numbered `index + 1` at both ends. */
  datatype Marker = Marker(at: Anchor, radius: real, number: Option<int>)

  /** The curve from one marker to the next, drawn with `createBezierPath`. */
  datatype Curve = Curve(from: Anchor, to: Anchor)

  datatype View = View(
    timeScale: TimeScale,
    distanceScale: PowScale,
    guideOrder: seq<string>,     // `locationArray` after its sort
    markers: seq<Marker>,
    curves: seq<Option<Curve>>)  // `''` for the last event

  function MarkerAt(events: seq<Event>, i: int): Marker
    requires 0 <= i < |events|
  {
    var e := events[i];
    Marker(Anchor(e.date, e.targetId),
           if i == 0 then 8.0 else 3.0,
           if i == 0 || i == |events| - 1 then Some(i + 1) else None)
  }

  function CurveAt(events: seq<Event>, i: int): Option<Curve>
    requires 0 <= i < |events|
  {
    if i < |events| - 1 then Some(Curve(MarkerAt(events, i).at, MarkerAt(events, i + 1).at)) else None
  }

  function Draw(p: Prepared, frame: Frame): View
    requires p.events != []
  {
    var events := p.events;
    View(
      TimeScale(events[0].date, events[|events| - 1].date, 0.0, frame.width - 2.0 * frame.xMargin),
      PowScale(DistanceDomainEnd(p), 0.0, frame.height - 2.0 * frame.yMargin, p.exponent),
      SortWith(p.locations, ByLocationDistance(p.distances)),
      seq(|events|, i requires 0 <= i < |events| => MarkerAt(events, i)),
      seq(|events|, i requires 0 <= i < |events| => CurveAt(events, i)))
  }

  /** The component's render: the view, or the error it throws. */
  function LinearCurveTimeline(trajectories: seq<Trajectory>, places: seq<Place>, settings: Option<Settings>, frame: Frame,
                               parseDate: string -> Option<int>, parseNumber: string -> real): Result<View, RenderError>
  {
    var p := Prepare(trajectories, places, settings, parseDate, parseNumber, true);
    if p.events == [] then Err(NoTrajectories)
    else if !Renders(p, PlaceColors.ObjectPrototypeMembers) then Err(MissingPlace)
    else Ok(Draw(p, frame))
  }

  /** The render as the component runs it. */
  method RenderLinearCurveTimeline(trajectories: seq<Trajectory>, places: seq<Place>, settings: Option<Settings>, frame: Frame,
                                   parseDate: string -> Option<int>, parseNumber: string -> real)
    returns (r: Result<View, RenderError>)
    ensures r == LinearCurveTimeline(trajectories, places, settings, frame, parseDate, parseNumber)
  {
    var p := PrepareRender(trajectories, places, settings, parseDate, parseNumber, true);
    if p.events == [] {
      return Err(NoTrajectories);
    }
    r := DrawPrepared(p, frame);
  }

  /**
   * Drawing: the guide lines sort `locationArray` in place and read each
   * location's place type and id. That throws for a location that neither a
   * place nor `Object.prototype` has; an inherited member has no `type` or
   * `id`, and reading them does not throw.
   */
  method DrawPrepared(p: Prepared, frame: Frame) returns (r: Result<View, RenderError>)
    requires p.events != []
    ensures r == if Renders(p, PlaceColors.ObjectPrototypeMembers) then Ok(Draw(p, frame)) else Err(MissingPlace)
  {
    var locationArray := new string[|p.locations|](k requires 0 <= k < |p.locations| => p.locations[k]);
    assert locationArray[..] == p.locations;
    SortLocations(locationArray, p.distances);
    AllIndexedReordered(locationArray[..], p.locations, p.index, PlaceColors.ObjectPrototypeMembers);
    var drawn := GuideLines(locationArray[..], p.index);
    if !drawn {
      return Err(MissingPlace);
    }
    r := Ok(Draw(p, frame).(guideOrder := locationArray[..]));
  }

  /** The `map` over the sorted locations: true when `placeIndex` resolves every one, false where the first lookup throws. */
  method GuideLines(sorted: seq<string>, index: map<string, Place>) returns (drawn: bool)
    ensures drawn <==> forall k :: 0 <= k < |sorted| ==> Resolves(index, PlaceColors.ObjectPrototypeMembers, sorted[k])
  {
    for i := 0 to |sorted|
      invariant forall k :: 0 <= k < i ==> Resolves(index, PlaceColors.ObjectPrototypeMembers, sorted[k])
    {
      if sorted[i] !in index && sorted[i] !in PlaceColors.ObjectPrototypeMembers {
        return false;
      }
    }
    return true;
  }

  // ----- what the view promises -----

  /**
   * The component throws on an empty list, throws on a location that is
   * neither a place nor a member of `Object.prototype`, and draws otherwise.
   */
  lemma LinearCurveRendersIff(trajectories: seq<Trajectory>, places: seq<Place>, settings: Option<Settings>, frame: Frame,
                              parseDate: string -> Option<int>, parseNumber: string -> real)
    ensures var r := LinearCurveTimeline(trajectories, places, settings, frame, parseDate, parseNumber);
            && (r == Err(NoTrajectories) <==> trajectories == [])
            && (r.Ok? <==> trajectories != [] && EndpointsPlaced(trajectories, places, PlaceColors.ObjectPrototypeMembers))
  {
    RendersIff(trajectories, places, settings, parseDate, parseNumber, true, PlaceColors.ObjectPrototypeMembers);
  }

  /**
   * The curves chain the markers: every event but the last has a curve from
   * its marker to the next one's, so consecutive curves meet; marker `i` sits
   * at event `i`'s date and target, is the large one exactly for the first
   * event, and is numbered exactly at the two ends, with its 1-based position.
   */
  lemma CurvesJoinMarkers(p: Prepared, frame: Frame, i: int)
    requires p.events != [] && 0 <= i < |p.events|
    ensures var v := Draw(p, frame);
            var n := |p.events|;
            && |v.markers| == |v.curves| == n
            && v.markers[i].at == Anchor(p.events[i].date, p.events[i].targetId)
            && (v.markers[i].radius == 8.0 <==> i == 0)
            && (v.markers[i].number.Some? <==> i == 0 || i == n - 1)
            && (v.markers[i].number.Some? ==> v.markers[i].number.value == i + 1)
            && (v.curves[i].Some? <==> i < n - 1)
            && (v.curves[i].Some? ==> v.curves[i].value.from == v.markers[i].at && v.curves[i].value.to == v.markers[i + 1].at)
            && (0 < i && v.curves[i].Some? ==> v.curves[i - 1].value.to == v.curves[i].value.from)
  {
  }

  lemma {:induction false} DrawnChronological(p: Prepared, frame: Frame, v: View)
    requires p.events != [] && AllDated(p.events) && SortedByKey(p.events, DateKey)
    requires v == Draw(p, frame)
    ensures && v.timeScale.first.Some? && v.timeScale.last.Some?
            && (forall i :: 0 <= i < |v.markers| ==> v.markers[i].at.date.Some?)
            && (forall i, j :: 0 <= i < j < |v.markers| ==> v.markers[i].at.date.value <= v.markers[j].at.date.value)
            && (forall i :: 0 <= i < |v.markers| ==>
                  v.timeScale.first.value <= v.markers[i].at.date.value <= v.timeScale.last.value)
  {
    var n := |p.events|;
    forall i | 0 <= i < |v.markers|
      ensures v.timeScale.first.value <= v.markers[i].at.date.value <= v.timeScale.last.value
    {
      if 0 < i {
        assert DateKey(p.events[0]) <= DateKey(p.events[i]);
      }
      if i < n - 1 {
        assert DateKey(p.events[i]) <= DateKey(p.events[n - 1]);
      }
    }
    forall i, j | 0 <= i < j < |v.markers| ensures v.markers[i].at.date.value <= v.markers[j].at.date.value {
      assert DateKey(p.events[i]) <= DateKey(p.events[j]);
    }
  }

  /**
   * When every date parses, the markers are in time order and all inside the
   * time scale's domain, so each curve runs forward in time.
   */
  lemma MarkersChronological(trajectories: seq<Trajectory>, places: seq<Place>, settings: Option<Settings>, frame: Frame,
                             parseDate: string -> Option<int>, parseNumber: string -> real, v: View)
    requires forall i :: 0 <= i < |trajectories| ==> parseDate(trajectories[i].movingDate).Some?
    requires LinearCurveTimeline(trajectories, places, settings, frame, parseDate, parseNumber) == Ok(v)
    ensures && v.timeScale.first.Some? && v.timeScale.last.Some?
            && (forall i :: 0 <= i < |v.markers| ==> v.markers[i].at.date.Some?)
            && (forall i, j :: 0 <= i < j < |v.markers| ==> v.markers[i].at.date.value <= v.markers[j].at.date.value)
            && (forall i :: 0 <= i < |v.markers| ==>
                  v.timeScale.first.value <= v.markers[i].at.date.value <= v.timeScale.last.value)
  {
    var p := Prepare(trajectories, places, settings, parseDate, parseNumber, true);
    SortedWhenAllDatesParse(p.events, trajectories, parseDate);
    DrawnChronological(p, frame, v);
  }

  lemma DrawnScales(p: Prepared, frame: Frame, v: View)
    requires p.events != [] && v == Draw(p, frame)
    requires forall id :: id in p.distances <==> id in p.locations && id in p.index
    requires forall id :: id in p.distances ==> p.distances[id] == p.index[id].distance
    ensures && v.timeScale.rangeStart == 0.0
            && v.timeScale.rangeEnd == frame.width - 2.0 * frame.xMargin
            && v.distanceScale.rangeStart == 0.0
            && v.distanceScale.rangeEnd == frame.height - 2.0 * frame.yMargin
            && v.distanceScale.exponent == p.exponent
            && v.distanceScale.domainEnd != 0.0
            && v.distanceScale.domainEnd == DistanceDomainEnd(p)
            && (forall id :: id in p.locations && id in p.index ==> p.index[id].distance <= v.distanceScale.domainEnd)
  {
    var top := DistanceDomainEnd(p);
    forall id | id in p.locations && id in p.index ensures p.index[id].distance <= top {
      assert id in p.distances;
    }
  }

  /**
   * The scales: time runs over the plot's width and distance over its height,
   * from 0 to `d3.max || 1` of the distances of the endpoints that are places.
   */
  lemma LinearCurveScales(trajectories: seq<Trajectory>, places: seq<Place>, settings: Option<Settings>, frame: Frame,
                          parseDate: string -> Option<int>, parseNumber: string -> real, v: View)
    requires LinearCurveTimeline(trajectories, places, settings, frame, parseDate, parseNumber) == Ok(v)
    ensures && v.timeScale.rangeStart == 0.0
            && v.timeScale.rangeEnd == frame.width - 2.0 * frame.xMargin
            && v.distanceScale.rangeStart == 0.0
            && v.distanceScale.rangeEnd == frame.height - 2.0 * frame.yMargin
            && v.distanceScale.exponent == Exponent(settings, parseNumber)
            && v.distanceScale.domainEnd != 0.0
            && IsMaxOrOne(v.distanceScale.domainEnd, EndpointDistances(trajectories, places))
  {
    var p := Prepare(trajectories, places, settings, parseDate, parseNumber, true);
    DrawnScales(p, frame, v);
    PreparedDomainEnd(trajectories, places, settings, parseDate, parseNumber, true);
  }

  lemma {:induction false} DrawnGuides(p: Prepared, frame: Frame, v: View)
    requires p.events != [] && v == Draw(p, frame)
    requires NoDuplicates(p.locations)
    requires forall id :: id in p.distances <==> id in p.locations && id in p.index
    requires forall id :: id in p.distances ==> p.distances[id] == p.index[id].distance
    ensures && multiset(v.guideOrder) == multiset(p.locations)
            && NoDuplicates(v.guideOrder)
            && (Renders(p, {}) ==> SortedByPlaceDistance(v.guideOrder, p.index))
  {
    var g := v.guideOrder;
    NoDuplicatesReordered(g, p.locations);
    if Renders(p, {}) {
      LocationsByDistance(p.locations, p.distances, 0.0);
      forall k | 0 <= k < |g| ensures g[k] in p.distances {
        assert g[k] in multiset(p.locations);
      }
      SortedLocationsByPlaceDistance(g, p.distances, p.index);
    }
  }

  /**
   * The guide lines list each trimmed source and target id once, and nothing
   * else, by ascending distance of its place when every one is a place.
   */
  lemma CurveGuidesByDistance(trajectories: seq<Trajectory>, places: seq<Place>, settings: Option<Settings>, frame: Frame,
                              parseDate: string -> Option<int>, parseNumber: string -> real, v: View)
    requires LinearCurveTimeline(trajectories, places, settings, frame, parseDate, parseNumber) == Ok(v)
    ensures && NoDuplicates(v.guideOrder)
            && (forall id :: id in v.guideOrder <==> IsTrimmedEndpoint(trajectories, id))
            && (EndpointsPlaced(trajectories, places, {}) ==> SortedByPlaceDistance(v.guideOrder, PlaceIndex(places)))
  {
    var p := Prepare(trajectories, places, settings, parseDate, parseNumber, true);
    RendersIff(trajectories, places, settings, parseDate, parseNumber, true, {});
    DrawnGuides(p, frame, v);
    forall id ensures id in v.guideOrder <==> IsTrimmedEndpoint(trajectories, id) {
      assert id in v.guideOrder <==> id in multiset(p.locations);
      LocationsAreTrimmedEndpoints(p, trajectories, parseDate, id);
    }
  }
}
