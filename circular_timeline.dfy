// What src/CircularTimeline.tsx computes on each render before it draws. The
// events are sorted by date; time becomes an angle and distance a radius.
// Each event contributes its source and its target at its date to the trail
// of the smooth path; a dated event gets a radial line from source to target
// and a dot at its target; consecutive dated events are joined by an arc from
// the earlier target to the later source. Above the circle, one label row per
// location, by distance, 40 units apart, for which the canvas grows by 40
// units per location. Positions are left as the scales' inputs (`Anchor`).

module CircularTimelineView {
  import opened Common
  import opened Records
  import opened Sequences
  import opened Sorting
  import opened TimelineData
  import PlaceColors

  /** The size props, with `DefaultFrame` holding their defaults. */
  datatype Frame = Frame(width: real, height: real, margin: real)

  const DefaultFrame: Frame := Frame(1000.0, 1000.0, 100.0)

  /** The radius the distance scale starts at. */
  const InnerRadius: real := 40.0

  /** The height of a label row, and what each location adds to the canvas. */
  const RowHeight: real := 40.0

  /** The time scale's range: the circle less a sixth of a turn centred on the top. */
  const AngleStart: real := Pi / 6.0 - Pi / 2.0
  const AngleEnd: real := 2.0 * Pi - Pi / 6.0 - Pi / 2.0

  /** `Math.min(width, height) / 2 - margin`. */
  function Radius(frame: Frame): real {
    (if frame.width <= frame.height then frame.width else frame.height) / 2.0 - frame.margin
  }

  /** The line of a dated event, from its source to its target at the same date. */
  datatype Radial = Radial(from: Anchor, to: Anchor)

  /**
   * The connection of a dated event to a dated predecessor: `d3.arc` from the
   * predecessor's target (inner radius, start angle) to the event's source
   * (outer radius, end angle).
   */
  datatype Arc = Arc(inner: Anchor, outer: Anchor)

  /** The dot at a dated event's target. */
  datatype Dot = Dot(at: Anchor, radius: real)

  /** The label row of a location: at `x = -radiusScale(distance)` and height `y`. */
  datatype LabelRow = LabelRow(placeId: string, y: real)

  datatype View = View(
    radiusScale: PowScale,
    angleScale: TimeScale,
    canvasWidth: real,
    canvasHeight: real,
    center: Point,               // the translation of the drawing group
    trail: seq<Anchor>,          // `pathPoints`
    radials: seq<Option<Radial>>,
    arcs: seq<Option<Arc>>,
    dots: seq<Option<Dot>>,
    rows: seq<LabelRow>)

  /** The `flatMap`: each event's source, then its target, both at the event's date. */
  function Trail(events: seq<Event>): seq<Anchor> {
    seq(2 * |events|, k requires 0 <= k < 2 * |events| =>
      var e := events[k / 2];
      Anchor(e.date, if k % 2 == 0 then e.sourceId else e.targetId))
  }

  function RadialAt(e: Event): Option<Radial> {
    if e.date.Some? then Some(Radial(Anchor(e.date, e.sourceId), Anchor(e.date, e.targetId))) else None
  }

  function ArcAt(events: seq<Event>, i: int): Option<Arc>
    requires 0 <= i < |events|
  {
    if i == 0 || events[i].date.None? || events[i - 1].date.None? then None
    else Some(Arc(Anchor(events[i - 1].date, events[i - 1].targetId), Anchor(events[i].date, events[i].sourceId)))
  }

  function DotAt(events: seq<Event>, i: int): Option<Dot>
    requires 0 <= i < |events|
  {
    if events[i].date.None? then None
    else Some(Dot(Anchor(events[i].date, events[i].targetId), if i == 0 then 5.0 else 3.0))
  }

  /** `const y = -radius - (i + 1) * 40`. */
  function RowY(radius: real, i: nat): real {
    -radius - (i + 1) as real * RowHeight
  }

  function Rows(sorted: seq<string>, radius: real): seq<LabelRow> {
    seq(|sorted|, i requires 0 <= i < |sorted| => LabelRow(sorted[i], RowY(radius, i)))
  }

  /** The view drawn from prepared data with at least one event. */
  function Draw(p: Prepared, frame: Frame): View
    requires p.events != []
  {
    var events := p.events;
    var radius := Radius(frame);
    var topOffset := |p.locations| as real * RowHeight;
    View(
      PowScale(DistanceDomainEnd(p), InnerRadius, radius, p.exponent),
      TimeScale(events[0].date, events[|events| - 1].date, AngleStart, AngleEnd),
      frame.width,
      frame.height + topOffset,
      Point(frame.width / 2.0, frame.height / 2.0 + topOffset),
      Trail(events),
      seq(|events|, i requires 0 <= i < |events| => RadialAt(events[i])),
      seq(|events|, i requires 0 <= i < |events| => ArcAt(events, i)),
      seq(|events|, i requires 0 <= i < |events| => DotAt(events, i)),
      Rows(SortWith(p.locations, ByLocationDistance(p.distances)), radius))
  }

  /** The component's render: the view, or the error it throws. */
  function CircularTimeline(trajectories: seq<Trajectory>, places: seq<Place>, settings: Option<Settings>, frame: Frame,
                            parseDate: string -> Option<int>, parseNumber: string -> real): Result<View, RenderError>
  {
    var p := Prepare(trajectories, places, settings, parseDate, parseNumber, true);
    if p.events == [] then Err(NoTrajectories)
    else if !Renders(p, PlaceColors.ObjectPrototypeMembers) then Err(MissingPlace)
    else Ok(Draw(p, frame))
  }

  /** The render as the component runs it. */
  method RenderCircularTimeline(trajectories: seq<Trajectory>, places: seq<Place>, settings: Option<Settings>, frame: Frame,
                                parseDate: string -> Option<int>, parseNumber: string -> real)
    returns (r: Result<View, RenderError>)
    ensures r == CircularTimeline(trajectories, places, settings, frame, parseDate, parseNumber)
  {
    var p := PrepareRender(trajectories, places, settings, parseDate, parseNumber, true);
    if p.events == [] {
      return Err(NoTrajectories);
    }
    r := DrawPrepared(p, frame);
  }

  /**
   * Drawing: the label rows sort `locationArray` in place and read each
   * location's place name and type. That throws for a location that neither
   * a place nor `Object.prototype` has: the inherited member of `toString`,
   * say, has a `name` and no `type`, and neither read throws.
   */
  method DrawPrepared(p: Prepared, frame: Frame) returns (r: Result<View, RenderError>)
    requires p.events != []
    ensures r == if Renders(p, PlaceColors.ObjectPrototypeMembers) then Ok(Draw(p, frame)) else Err(MissingPlace)
  {
    var locationArray := new string[|p.locations|](k requires 0 <= k < |p.locations| => p.locations[k]);
    assert locationArray[..] == p.locations;
    SortLocations(locationArray, p.distances);
    AllIndexedReordered(locationArray[..], p.locations, p.index, PlaceColors.ObjectPrototypeMembers);
    var rows := LabelRows(locationArray[..], p.index, Radius(frame));
    if rows.None? {
      return Err(MissingPlace);
    }
    r := Ok(Draw(p, frame).(rows := rows.value));
  }

  /** The `map` over the sorted locations: one row per location, throwing at the first one `placeIndex` does not resolve. */
  method LabelRows(sorted: seq<string>, index: map<string, Place>, radius: real) returns (rows: Option<seq<LabelRow>>)
    ensures rows.Some? <==> forall k :: 0 <= k < |sorted| ==> Resolves(index, PlaceColors.ObjectPrototypeMembers, sorted[k])
    ensures rows.Some? ==> rows.value == Rows(sorted, radius)
  {
    var built: seq<LabelRow> := [];
    for i := 0 to |sorted|
      invariant |built| == i
      invariant forall k :: 0 <= k < i ==>
                  Resolves(index, PlaceColors.ObjectPrototypeMembers, sorted[k]) && built[k] == LabelRow(sorted[k], RowY(radius, k))
    {
      if sorted[i] !in index && sorted[i] !in PlaceColors.ObjectPrototypeMembers {
        return None;
      }
      built := built + [LabelRow(sorted[i], -radius - (i + 1) as real * RowHeight)];
    }
    return Some(built);
  }

  /**
   * The component throws on an empty list, throws on a location that is
   * neither a place nor a member of `Object.prototype`, and draws otherwise.
   */
  lemma CircularTimelineRendersIff(trajectories: seq<Trajectory>, places: seq<Place>, settings: Option<Settings>, frame: Frame,
                                   parseDate: string -> Option<int>, parseNumber: string -> real)
    ensures var r := CircularTimeline(trajectories, places, settings, frame, parseDate, parseNumber);
            && (r == Err(NoTrajectories) <==> trajectories == [])
            && (r.Ok? <==> trajectories != [] && EndpointsPlaced(trajectories, places, PlaceColors.ObjectPrototypeMembers))
  {
    RendersIff(trajectories, places, settings, parseDate, parseNumber, true, PlaceColors.ObjectPrototypeMembers);
  }

  /**
   * An endpoint called `toString` that no place has still draws: the index
   * lookup finds `Object.prototype.toString`, whose `name` and `type` read
   * without throwing.
   */
  lemma InheritedEndpointDraws(t: Trajectory, place: Place, settings: Option<Settings>, frame: Frame,
                               parseDate: string -> Option<int>, parseNumber: string -> real)
    requires Text.Trim(t.sourceId) == place.id && Text.Trim(t.targetId) == "toString"
    ensures CircularTimeline([t], [place], settings, frame, parseDate, parseNumber).Ok?
  {
    assert [place][0].id == place.id;
    assert "toString" in PlaceColors.ObjectPrototypeMembers;
    CircularTimelineRendersIff([t], [place], settings, frame, parseDate, parseNumber);
  }

  /**
   * Event `i` puts its source and then its target, both at its date, at
   * trail points `2i` and `2i + 1`; it has a radial line between exactly
   * those two points, and a dot on the second, exactly when its date parsed;
   * the first event's dot is the larger one.
   */
  lemma {:induction false} RadialsAndDotsOnTrail(p: Prepared, frame: Frame, i: int)
    requires p.events != [] && 0 <= i < |p.events|
    ensures var v := Draw(p, frame);
            var e := p.events[i];
            && |v.trail| == 2 * |p.events|
            && |v.radials| == |v.dots| == |v.arcs| == |p.events|
            && v.trail[2 * i] == Anchor(e.date, e.sourceId)
            && v.trail[2 * i + 1] == Anchor(e.date, e.targetId)
            && (v.radials[i].Some? <==> e.date.Some?)
            && (v.radials[i].Some? ==> v.radials[i].value == Radial(v.trail[2 * i], v.trail[2 * i + 1]))
            && (v.dots[i].Some? <==> e.date.Some?)
            && (v.dots[i].Some? ==> v.dots[i].value.at == v.trail[2 * i + 1])
            && (v.dots[i].Some? ==> (v.dots[i].value.radius == 5.0 <==> i == 0))
  {
    var v := Draw(p, frame);
    DrawnParts(p, frame);
    TrailAt(p.events, i);
  }

  /** The fields of the drawn view that come from the events, one at a time. */
  lemma DrawnParts(p: Prepared, frame: Frame)
    requires p.events != []
    ensures var v := Draw(p, frame);
            && v.trail == Trail(p.events)
            && |v.radials| == |v.dots| == |v.arcs| == |p.events|
            && (forall i :: 0 <= i < |p.events| ==> v.radials[i] == RadialAt(p.events[i]))
            && (forall i :: 0 <= i < |p.events| ==> v.dots[i] == DotAt(p.events, i))
            && (forall i :: 0 <= i < |p.events| ==> v.arcs[i] == ArcAt(p.events, i))
            && v.angleScale.first == p.events[0].date
            && v.angleScale.last == p.events[|p.events| - 1].date
  {
  }

  /** Trail points `2i` and `2i + 1` are event `i`'s source and target. */
  lemma TrailAt(events: seq<Event>, i: int)
    requires 0 <= i < |events|
    ensures |Trail(events)| == 2 * |events|
    ensures Trail(events)[2 * i] == Anchor(events[i].date, events[i].sourceId)
    ensures Trail(events)[2 * i + 1] == Anchor(events[i].date, events[i].targetId)
  {
    assert (2 * i) / 2 == i && (2 * i) % 2 == 0;
    assert (2 * i + 1) / 2 == i && (2 * i + 1) % 2 == 1;
  }

  /**
   * The arcs join the trail: there is none before the first event, and event
   * `i > 0` has one exactly when its date and its predecessor's parsed; it
   * runs from trail point `2i - 1` (the predecessor's target) to trail point
   * `2i` (the event's source).
   */
  lemma ArcsJoinTrail(p: Prepared, frame: Frame, i: int)
    requires p.events != [] && 0 <= i < |p.events|
    ensures var v := Draw(p, frame);
            && (i == 0 ==> v.arcs[i].None?)
            && (i > 0 ==> (v.arcs[i].Some? <==> p.events[i - 1].date.Some? && p.events[i].date.Some?))
            && (v.arcs[i].Some? ==> v.arcs[i].value == Arc(v.trail[2 * i - 1], v.trail[2 * i]))
  {
    var v := Draw(p, frame);
    if i > 0 {
      assert (2 * i - 1) / 2 == i - 1 && (2 * i - 1) % 2 == 1;
      assert (2 * i) / 2 == i && (2 * i) % 2 == 0;
    }
  }

  lemma TrailChronological(events: seq<Event>)
    requires AllDated(events) && SortedByKey(events, DateKey)
    ensures var trail := Trail(events);
            && (forall k :: 0 <= k < |trail| ==> trail[k].date.Some?)
            && (forall j, k :: 0 <= j < k < |trail| ==> trail[j].date.value <= trail[k].date.value)
  {
    var trail := Trail(events);
    forall j, k | 0 <= j < k < |trail| ensures trail[j].date.value <= trail[k].date.value {
      assert j / 2 <= k / 2;
      if j / 2 < k / 2 {
        assert DateKey(events[j / 2]) <= DateKey(events[k / 2]);
      }
    }
  }

  lemma TrailInTimeDomain(events: seq<Event>)
    requires events != [] && AllDated(events) && SortedByKey(events, DateKey)
    ensures var trail := Trail(events);
            forall k :: 0 <= k < |trail| ==>
              events[0].date.value <= trail[k].date.value <= events[|events| - 1].date.value
  {
    var trail := Trail(events);
    var n := |events|;
    forall k | 0 <= k < |trail|
      ensures events[0].date.value <= trail[k].date.value <= events[n - 1].date.value
    {
      assert 0 <= k / 2 <= n - 1;
      if 0 < k / 2 {
        assert DateKey(events[0]) <= DateKey(events[k / 2]);
      }
      if k / 2 < n - 1 {
        assert DateKey(events[k / 2]) <= DateKey(events[n - 1]);
      }
    }
  }

  lemma {:induction false} DrawnChronological(p: Prepared, frame: Frame, v: View)
    requires p.events != [] && AllDated(p.events) && SortedByKey(p.events, DateKey)
    requires v == Draw(p, frame)
    ensures && (forall k :: 0 <= k < |v.trail| ==> v.trail[k].date.Some?)
            && (forall j, k :: 0 <= j < k < |v.trail| ==> v.trail[j].date.value <= v.trail[k].date.value)
            && v.angleScale.first.Some? && v.angleScale.last.Some?
            && (forall k :: 0 <= k < |v.trail| ==>
                  v.angleScale.first.value <= v.trail[k].date.value <= v.angleScale.last.value)
            && |v.radials| == |v.dots| == |v.arcs| == |p.events|
            && (forall i :: 0 <= i < |v.radials| ==> v.radials[i].Some?)
            && (forall i :: 0 <= i < |v.dots| ==> v.dots[i].Some?)
            && (forall i :: 0 < i < |v.arcs| ==> v.arcs[i].Some?)
  {
    DrawnParts(p, frame);
    TrailChronological(p.events);
    TrailInTimeDomain(p.events);
    forall i | 0 <= i < |p.events| ensures v.radials[i].Some? && v.dots[i].Some? && (i > 0 ==> v.arcs[i].Some?) {
      assert p.events[i].date.Some?;
      if i > 0 {
        assert p.events[i - 1].date.Some?;
      }
    }
  }

  /**
   * When every date parses the events are drawn in time order: the trail's
   * dates never decrease, they all lie in the time domain, every event has
   * its radial line and its dot, and every event after the first its arc.
   */
  lemma ChronologicalWhenAllDatesParse(trajectories: seq<Trajectory>, places: seq<Place>, settings: Option<Settings>, frame: Frame,
                                       parseDate: string -> Option<int>, parseNumber: string -> real, v: View)
    requires forall i :: 0 <= i < |trajectories| ==> parseDate(trajectories[i].movingDate).Some?
    requires CircularTimeline(trajectories, places, settings, frame, parseDate, parseNumber) == Ok(v)
    ensures && (forall k :: 0 <= k < |v.trail| ==> v.trail[k].date.Some?)
            && (forall j, k :: 0 <= j < k < |v.trail| ==> v.trail[j].date.value <= v.trail[k].date.value)
            && v.angleScale.first.Some? && v.angleScale.last.Some?
            && (forall k :: 0 <= k < |v.trail| ==>
                  v.angleScale.first.value <= v.trail[k].date.value <= v.angleScale.last.value)
            && |v.radials| == |v.dots| == |v.arcs| == |trajectories|
            && (forall i :: 0 <= i < |v.radials| ==> v.radials[i].Some?)
            && (forall i :: 0 <= i < |v.dots| ==> v.dots[i].Some?)
            && (forall i :: 0 < i < |v.arcs| ==> v.arcs[i].Some?)
  {
    var p := Prepare(trajectories, places, settings, parseDate, parseNumber, true);
    SortedWhenAllDatesParse(p.events, trajectories, parseDate);
    DrawnChronological(p, frame, v);
  }

  lemma DrawnScales(p: Prepared, frame: Frame)
    requires p.events != []
    requires forall id :: id in p.distances <==> id in p.locations && id in p.index
    requires forall id :: id in p.distances ==> p.distances[id] == p.index[id].distance
    ensures var v := Draw(p, frame);
            && v.radiusScale.rangeStart == InnerRadius
            && v.radiusScale.rangeEnd == Radius(frame)
            && v.radiusScale.exponent == p.exponent
            && v.radiusScale.domainEnd != 0.0
            && v.radiusScale.domainEnd == DistanceDomainEnd(p)
            && (forall id :: id in p.locations && id in p.index ==> p.index[id].distance <= v.radiusScale.domainEnd)
            && v.angleScale.rangeStart == AngleStart
            && v.angleScale.rangeEnd == AngleEnd
            && v.angleScale.rangeEnd - v.angleScale.rangeStart == 2.0 * Pi - Pi / 3.0
  {
    var top := DistanceDomainEnd(p);
    forall id | id in p.locations && id in p.index ensures p.index[id].distance <= top {
      assert id in p.distances;
    }
  }

  /**
   * The scales: radius runs from 40 to `min(width, height) / 2 - margin` over
   * a distance domain that ends at `d3.max || 1` of the distances of the
   * endpoints that are places; time runs from the first to the last sorted
   * event's date over the angles `π/6 - π/2` to `2π - π/6 - π/2`, the circle
   * but for a sixth of a turn.
   */
  lemma {:induction false} CircularTimelineScales(trajectories: seq<Trajectory>, places: seq<Place>, settings: Option<Settings>, frame: Frame,
                               parseDate: string -> Option<int>, parseNumber: string -> real, v: View)
    requires CircularTimeline(trajectories, places, settings, frame, parseDate, parseNumber) == Ok(v)
    ensures && v.radiusScale.rangeStart == InnerRadius
            && v.radiusScale.rangeEnd == Radius(frame)
            && v.radiusScale.exponent == Exponent(settings, parseNumber)
            && v.radiusScale.domainEnd != 0.0
            && IsMaxOrOne(v.radiusScale.domainEnd, EndpointDistances(trajectories, places))
            && v.angleScale.rangeStart == Pi / 6.0 - Pi / 2.0
            && v.angleScale.rangeEnd == 2.0 * Pi - Pi / 6.0 - Pi / 2.0
            && v.angleScale.rangeEnd - v.angleScale.rangeStart == 2.0 * Pi - Pi / 3.0
            && trajectories != []
            && var events := SortWith(PrepareEvents(trajectories, parseDate), DateOrder);
               && |events| == |trajectories|
               && v.angleScale.first == events[0].date
               && v.angleScale.last == events[|events| - 1].date
  {
    var p := Prepare(trajectories, places, settings, parseDate, parseNumber, true);
    assert v == Draw(p, frame);
    DrawnScales(p, frame);
    DrawnParts(p, frame);
    PreparedDomainEnd(trajectories, places, settings, parseDate, parseNumber, true);
  }

  /** The place ids of the label rows, top row last. */
  function RowIds(rows: seq<LabelRow>): seq<string> {
    seq(|rows|, i requires 0 <= i < |rows| => rows[i].placeId)
  }

  /** The rows carry the distance-sorted locations' ids, in that order. */
  lemma DrawnRows(p: Prepared, frame: Frame, sorted: seq<string>)
    requires p.events != []
    requires sorted == SortWith(p.locations, ByLocationDistance(p.distances))
    ensures RowIds(Draw(p, frame).rows) == sorted
  {
    var rows := Draw(p, frame).rows;
    assert rows == Rows(sorted, Radius(frame));
    assert |RowIds(rows)| == |sorted|;
    forall i | 0 <= i < |sorted| ensures RowIds(rows)[i] == sorted[i] {
      assert rows[i].placeId == sorted[i];
    }
  }

  lemma DrawnRowIds(p: Prepared, frame: Frame)
    requires p.events != []
    requires NoDuplicates(p.locations)
    requires forall id :: id in p.distances <==> id in p.locations && id in p.index
    requires forall id :: id in p.distances ==> p.distances[id] == p.index[id].distance
    ensures var ids := RowIds(Draw(p, frame).rows);
            && multiset(ids) == multiset(p.locations)
            && NoDuplicates(ids)
            && (Renders(p, {}) ==> SortedByPlaceDistance(ids, p.index))
  {
    var g := SortWith(p.locations, ByLocationDistance(p.distances));
    DrawnRows(p, frame, g);
    NoDuplicatesReordered(g, p.locations);
    if Renders(p, {}) {
      LocationsByDistance(p.locations, p.distances, 0.0);
      forall k | 0 <= k < |g| ensures g[k] in p.distances {
        assert g[k] in multiset(p.locations);
      }
      SortedLocationsByPlaceDistance(g, p.distances, p.index);
    }
  }

  lemma DrawnRowPositions(p: Prepared, frame: Frame, v: View)
    requires p.events != [] && v == Draw(p, frame)
    requires 0.0 <= frame.margin && 0.0 <= Radius(frame)
    ensures && (forall i :: 0 <= i < |v.rows| ==>
                  && v.rows[i].y <= -Radius(frame) - RowHeight
                  && frame.margin <= v.center.y + v.rows[i].y < v.canvasHeight)
            && (forall i :: 0 < i < |v.rows| ==> v.rows[i - 1].y - v.rows[i].y == RowHeight)
  {
    var n := |p.locations|;
    var low := frame.height / 2.0 - Radius(frame);
    assert frame.margin <= low;
    forall i | 0 <= i < |v.rows|
      ensures frame.margin <= v.center.y + v.rows[i].y < v.canvasHeight
    {
      assert v.center.y + v.rows[i].y == low + (n - 1 - i) as real * RowHeight;
    }
  }

  /**
   * The label rows: one per location, each once, by ascending distance when
   * every location is a place; 40 apart, all above the outermost circle, and all on the canvas, which
   * grows by 40 per location, as long as the margin is not negative and
   * leaves a radius that is not negative.
   */
  lemma {:induction false} RowsOnCanvas(trajectories: seq<Trajectory>, places: seq<Place>, settings: Option<Settings>, frame: Frame,
                     parseDate: string -> Option<int>, parseNumber: string -> real, v: View)
    requires 0.0 <= frame.margin && 0.0 <= Radius(frame)
    requires CircularTimeline(trajectories, places, settings, frame, parseDate, parseNumber) == Ok(v)
    ensures var ids := RowIds(v.rows);
            && NoDuplicates(ids)
            && (forall id :: id in ids <==> IsTrimmedEndpoint(trajectories, id))
            && (EndpointsPlaced(trajectories, places, {}) ==> SortedByPlaceDistance(ids, PlaceIndex(places)))
            && (forall i :: 0 <= i < |v.rows| ==>
                  && v.rows[i].y <= -Radius(frame) - RowHeight
                  && frame.margin <= v.center.y + v.rows[i].y < v.canvasHeight)
            && (forall i :: 0 < i < |v.rows| ==> v.rows[i - 1].y - v.rows[i].y == RowHeight)
  {
    var p := Prepare(trajectories, places, settings, parseDate, parseNumber, true);
    var ids := RowIds(v.rows);
    RendersIff(trajectories, places, settings, parseDate, parseNumber, true, {});
    DrawnRowIds(p, frame);
    DrawnRowPositions(p, frame, v);
    forall id ensures id in ids <==> IsTrimmedEndpoint(trajectories, id) {
      assert id in ids <==> id in multiset(p.locations);
      LocationsAreTrimmedEndpoints(p, trajectories, parseDate, id);
    }
  }
}
