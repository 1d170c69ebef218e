// What src/components/LinearTimeline.tsx computes on each render before it
// draws: the two scales, the trail of the smooth path, one line per event to
// the next event's date, the places handed to the label column and the order
// of the horizontal guide lines. The events keep their input order (this
// component does not sort). Positions are left as the scales' inputs
// (`Anchor`): x is the time scale at the anchor's date, y the distance scale
// at the distance of the anchor's place.

module LinearTimelineView {
  import opened Common
  import opened Records
  import opened Sequences
  import opened Sorting
  import opened TimelineData
  import LabelPlacement

  /** The size props, with `DefaultFrame` holding their defaults. */
  datatype Frame = Frame(width: real, height: real, xMargin: real, yMargin: real)

  const DefaultFrame: Frame := Frame(1000.0, 1000.0, 20.0, 30.0)

  /** The width of the label column to the left of the drawing. */
  const LabelsWidth: real := 200.0

  /** The `minLabelHeight` the label column is given. */
  const MinLabelHeight: real := 30.0

  /**
   * The line of an event that has a successor: from its source at its own
   * date to its target at the successor's date.
   */
  datatype Segment = Segment(from: Anchor, to: Anchor)

  datatype View = View(
    timeScale: TimeScale,
    distanceScale: PowScale,
    trail: seq<Anchor>,              // `pathPoints`, through which the smooth path runs
    segments: seq<Option<Segment>>,  // one per event; `None` for the last
    labelPlaces: seq<Place>,         // `locationArray.map(loc => placeIndex[loc])`
    guideOrder: seq<string>)         // the locations as the guide lines list them

  /** Each event's source at its date. */
  function Trail(events: seq<Event>): seq<Anchor> {
    seq(|events|, i requires 0 <= i < |events| => Anchor(events[i].date, events[i].sourceId))
  }

  function SegmentAt(events: seq<Event>, i: int): Option<Segment>
    requires 0 <= i < |events|
  {
    if i < |events| - 1
    then Some(Segment(Anchor(events[i].date, events[i].sourceId), Anchor(events[i + 1].date, events[i].targetId)))
    else None
  }

  function Segments(events: seq<Event>): seq<Option<Segment>> {
    seq(|events|, i requires 0 <= i < |events| => SegmentAt(events, i))
  }

  /**
   * `placeIndex[loc]`. The components only read it for locations that are
   * in the index; the fallback stands for `undefined` and is never drawn.
   */
  function PlaceOf(index: map<string, Place>): string -> Place {
    (loc: string) => if loc in index then index[loc] else Place(loc, "", "", 0.0, "")
  }

  /** The view drawn from prepared data with at least one event. */
  function Draw(p: Prepared, frame: Frame): View
    requires p.events != []
  {
    var plotWidth := frame.width - LabelsWidth - 2.0 * frame.xMargin;
    var plotHeight := frame.height - 2.0 * frame.yMargin;
    View(
      TimeScale(p.events[0].date, p.events[|p.events| - 1].date, 0.0, plotWidth),
      PowScale(DistanceDomainEnd(p), 0.0, plotHeight, p.exponent),
      Trail(p.events),
      Segments(p.events),
      MapSeq(PlaceOf(p.index), p.locations),
      SortWith(p.locations, ByLocationDistance(p.distances)))
  }

  /** The component's render: the view, or the error it throws. */
  function LinearTimeline(trajectories: seq<Trajectory>, places: seq<Place>, settings: Option<Settings>, frame: Frame,
                          parseDate: string -> Option<int>, parseNumber: string -> real): Result<View, RenderError>
  {
    var p := Prepare(trajectories, places, settings, parseDate, parseNumber, false);
    if p.events == [] then Err(NoTrajectories)
    else if !Renders(p, {}) then Err(MissingPlace)
    else Ok(Draw(p, frame))
  }

  /** The render as the component runs it; the guide lines sort `locationArray` in place. */
  method RenderLinearTimeline(trajectories: seq<Trajectory>, places: seq<Place>, settings: Option<Settings>, frame: Frame,
                              parseDate: string -> Option<int>, parseNumber: string -> real)
    returns (r: Result<View, RenderError>)
    ensures r == LinearTimeline(trajectories, places, settings, frame, parseDate, parseNumber)
  {
    var p := PrepareRender(trajectories, places, settings, parseDate, parseNumber, false);
    if p.events == [] {
      return Err(NoTrajectories);
    }
    r := DrawPrepared(p, frame);
  }

  /**
   * Drawing: a location without a place of its own throws, an inherited name
   * included: its member of `Object.prototype` has no `type`, and
   * `getColorByPlace` trims that `undefined`. Otherwise the view.
   */
  method DrawPrepared(p: Prepared, frame: Frame) returns (r: Result<View, RenderError>)
    requires p.events != []
    ensures r == if Renders(p, {}) then Ok(Draw(p, frame)) else Err(MissingPlace)
  {
    var labelPlaces: seq<Place> := [];
    for k := 0 to |p.locations|
      invariant |labelPlaces| == k
      invariant forall j :: 0 <= j < k ==> p.locations[j] in p.index && labelPlaces[j] == PlaceOf(p.index)(p.locations[j])
    {
      if p.locations[k] !in p.index {
        return Err(MissingPlace);
      }
      labelPlaces := labelPlaces + [p.index[p.locations[k]]];
    }
    var locationArray := new string[|p.locations|](k requires 0 <= k < |p.locations| => p.locations[k]);
    assert locationArray[..] == p.locations;
    SortLocations(locationArray, p.distances);
    r := Ok(DrawFrom(p, frame, labelPlaces, locationArray[..]));
  }

  /** `Draw`, given the label column's places and the sorted locations as computed. */
  function DrawFrom(p: Prepared, frame: Frame, labelPlaces: seq<Place>, guideOrder: seq<string>): (v: View)
    requires p.events != []
    requires |labelPlaces| == |p.locations|
    requires forall j :: 0 <= j < |p.locations| ==> labelPlaces[j] == PlaceOf(p.index)(p.locations[j])
    requires guideOrder == SortWith(p.locations, ByLocationDistance(p.distances))
    ensures v == Draw(p, frame)
  {
    assert labelPlaces == MapSeq(PlaceOf(p.index), p.locations);
    Draw(p, frame).(labelPlaces := labelPlaces, guideOrder := guideOrder)
  }

  /**
   * The same trajectory to `toString` that the circular view draws throws
   * here: `getColorByPlace` trims the `type` that `Object.prototype.toString`
   * does not have.
   */
  lemma InheritedEndpointThrows(t: Trajectory, place: Place, settings: Option<Settings>, frame: Frame,
                                parseDate: string -> Option<int>, parseNumber: string -> real)
    requires Text.Trim(t.sourceId) == place.id && Text.Trim(t.targetId) == "toString" && place.id != "toString"
    ensures LinearTimeline([t], [place], settings, frame, parseDate, parseNumber) == Err(MissingPlace)
  {
    assert !IsPlaceId([place], "toString");
    assert !EndpointsPlaced([t], [place], {}) by {
      assert Text.Trim([t][0].targetId) == "toString";
    }
    LinearTimelineRendersIff([t], [place], settings, frame, parseDate, parseNumber);
  }

  /**
   * The component throws on an empty list, throws on a location no place
   * has, and draws otherwise.
   */
  lemma LinearTimelineRendersIff(trajectories: seq<Trajectory>, places: seq<Place>, settings: Option<Settings>, frame: Frame,
                                 parseDate: string -> Option<int>, parseNumber: string -> real)
    ensures var r := LinearTimeline(trajectories, places, settings, frame, parseDate, parseNumber);
            && (r == Err(NoTrajectories) <==> trajectories == [])
            && (r.Ok? <==> trajectories != [] && EndpointsPlaced(trajectories, places, {}))
  {
    RendersIff(trajectories, places, settings, parseDate, parseNumber, false, {});
  }

  /**
   * Event `i` with a successor is drawn from trail point `i`, and ends on
   * trail point `i + 1` exactly when its target is its successor's source;
   * the last event has no line.
   */
  lemma SegmentsJoinTrail(events: seq<Event>, i: int)
    requires 0 <= i < |events|
    ensures var s := Segments(events)[i];
            && (i == |events| - 1 <==> s.None?)
            && (s.Some? ==>
                  && s.value.from == Trail(events)[i]
                  && s.value.to.date == Trail(events)[i + 1].date
                  && (s.value.to == Trail(events)[i + 1] <==> events[i].targetId == events[i + 1].sourceId))
  {
  }

  lemma TrailOfTrajectories(trajectories: seq<Trajectory>, parseDate: string -> Option<int>)
    ensures var trail := Trail(PrepareEvents(trajectories, parseDate));
            && |trail| == |trajectories|
            && forall i :: 0 <= i < |trajectories| ==>
                 trail[i] == Anchor(parseDate(trajectories[i].movingDate), Text.Trim(trajectories[i].sourceId))
  {
  }

  lemma DrawnTrail(p: Prepared, frame: Frame, trajectories: seq<Trajectory>, parseDate: string -> Option<int>, v: View)
    requires p.events != [] && p.events == PrepareEvents(trajectories, parseDate)
    requires v == Draw(p, frame)
    ensures |v.trail| == |trajectories| == |v.segments|
    ensures forall i :: 0 <= i < |trajectories| ==>
              v.trail[i] == Anchor(parseDate(trajectories[i].movingDate), Text.Trim(trajectories[i].sourceId))
    ensures v.timeScale.first == parseDate(trajectories[0].movingDate)
    ensures v.timeScale.last == parseDate(trajectories[|trajectories| - 1].movingDate)
  {
    TrailOfTrajectories(trajectories, parseDate);
  }

  /**
   * The trail follows the trajectories in the order given: point `i` is the
   * trimmed source of trajectory `i` at its parsed date, and the time domain
   * runs from the first trajectory's date to the last one's.
   */
  lemma {:induction false} TrailInInputOrder(trajectories: seq<Trajectory>, places: seq<Place>, settings: Option<Settings>, frame: Frame,
                          parseDate: string -> Option<int>, parseNumber: string -> real)
    requires LinearTimeline(trajectories, places, settings, frame, parseDate, parseNumber).Ok?
    ensures var v := LinearTimeline(trajectories, places, settings, frame, parseDate, parseNumber).value;
            && |v.trail| == |trajectories| == |v.segments|
            && (forall i :: 0 <= i < |trajectories| ==>
                  v.trail[i] == Anchor(parseDate(trajectories[i].movingDate), Text.Trim(trajectories[i].sourceId)))
            && v.timeScale.first == parseDate(trajectories[0].movingDate)
            && v.timeScale.last == parseDate(trajectories[|trajectories| - 1].movingDate)
  {
    var p := Prepare(trajectories, places, settings, parseDate, parseNumber, false);
    DrawnTrail(p, frame, trajectories, parseDate, Draw(p, frame));
  }

  lemma DrawnScales(p: Prepared, frame: Frame)
    requires p.events != [] && Renders(p, {})
    requires forall id :: id in p.distances <==> id in p.locations && id in p.index
    requires forall id :: id in p.distances ==> p.distances[id] == p.index[id].distance
    ensures var v := Draw(p, frame);
            && v.timeScale.rangeStart == 0.0
            && v.timeScale.rangeEnd == frame.width - LabelsWidth - 2.0 * frame.xMargin
            && v.distanceScale.rangeStart == 0.0
            && v.distanceScale.rangeEnd == frame.height - 2.0 * frame.yMargin
            && v.distanceScale.exponent == p.exponent
            && v.distanceScale.domainEnd != 0.0
            && v.distanceScale.domainEnd == DistanceDomainEnd(p)
            && forall id :: id in p.locations ==> p.index[id].distance <= v.distanceScale.domainEnd
  {
    var top := DistanceDomainEnd(p);
    forall id | id in p.locations ensures p.index[id].distance <= top {
      assert id in p.distances;
    }
  }

  /**
   * The scales: time runs over the drawing's width less the label column and
   * both margins; distance runs over the height less both margins, from 0 up
   * to `d3.max || 1` of the endpoints' distances, every endpoint being a
   * place.
   */
  lemma {:induction false} LinearTimelineScales(trajectories: seq<Trajectory>, places: seq<Place>, settings: Option<Settings>, frame: Frame,
                             parseDate: string -> Option<int>, parseNumber: string -> real, v: View)
    requires LinearTimeline(trajectories, places, settings, frame, parseDate, parseNumber) == Ok(v)
    ensures && v.timeScale.rangeStart == 0.0
            && v.timeScale.rangeEnd == frame.width - LabelsWidth - 2.0 * frame.xMargin
            && v.distanceScale.rangeStart == 0.0
            && v.distanceScale.rangeEnd == frame.height - 2.0 * frame.yMargin
            && v.distanceScale.exponent == Exponent(settings, parseNumber)
            && v.distanceScale.domainEnd != 0.0
            && IsMaxOrOne(v.distanceScale.domainEnd, EndpointDistances(trajectories, places))
            && forall i :: 0 <= i < |trajectories| ==>
                 Text.Trim(trajectories[i].sourceId) in PlaceIndex(places) &&
                 Text.Trim(trajectories[i].targetId) in PlaceIndex(places)
  {
    var p := Prepare(trajectories, places, settings, parseDate, parseNumber, false);
    assert v == Draw(p, frame);
    DrawnScales(p, frame);
    PreparedDomainEnd(trajectories, places, settings, parseDate, parseNumber, false);
    TrimmedEndpointsListed(p, trajectories, parseDate);
    forall i | 0 <= i < |trajectories|
      ensures Text.Trim(trajectories[i].sourceId) in p.index && Text.Trim(trajectories[i].targetId) in p.index
    {
      var k :| 0 <= k < |p.locations| && p.locations[k] == Text.Trim(trajectories[i].sourceId);
      assert Resolves(p.index, {}, p.locations[k]);
      var m :| 0 <= m < |p.locations| && p.locations[m] == Text.Trim(trajectories[i].targetId);
      assert Resolves(p.index, {}, p.locations[m]);
    }
  }

  lemma {:induction false} DrawnGuides(p: Prepared, frame: Frame)
    requires p.events != [] && Renders(p, {})
    requires NoDuplicates(p.locations)
    requires forall id :: id in p.distances <==> id in p.locations && id in p.index
    requires forall id :: id in p.distances ==> p.distances[id] == p.index[id].distance
    ensures var g := Draw(p, frame).guideOrder;
            && multiset(g) == multiset(p.locations)
            && NoDuplicates(g)
            && SortedByPlaceDistance(g, p.index)
  {
    var g := SortWith(p.locations, ByLocationDistance(p.distances));
    LocationsByDistance(p.locations, p.distances, 0.0);
    NoDuplicatesReordered(g, p.locations);
    forall k | 0 <= k < |g| ensures g[k] in p.distances {
      assert g[k] in multiset(p.locations);
    }
    SortedLocationsByPlaceDistance(g, p.distances, p.index);
  }

  /**
   * The guide lines list each trimmed source and target id once, and nothing
   * else, by ascending distance of its place.
   */
  lemma {:induction false} GuidesByDistance(trajectories: seq<Trajectory>, places: seq<Place>, settings: Option<Settings>, frame: Frame,
                         parseDate: string -> Option<int>, parseNumber: string -> real)
    requires LinearTimeline(trajectories, places, settings, frame, parseDate, parseNumber).Ok?
    ensures var g := LinearTimeline(trajectories, places, settings, frame, parseDate, parseNumber).value.guideOrder;
            && NoDuplicates(g)
            && (forall id :: id in g <==> IsTrimmedEndpoint(trajectories, id))
            && SortedByPlaceDistance(g, PlaceIndex(places))
  {
    var p := Prepare(trajectories, places, settings, parseDate, parseNumber, false);
    var g := Draw(p, frame).guideOrder;
    DrawnGuides(p, frame);
    forall id ensures id in g <==> IsTrimmedEndpoint(trajectories, id) {
      assert id in g <==> id in multiset(p.locations);
      LocationsAreTrimmedEndpoints(p, trajectories, parseDate, id);
    }
  }

  /** Sorting the places by distance gives the places of the locations sorted by distance. */
  lemma LabelsSortLikeLocations(index: map<string, Place>, distances: map<string, real>, locations: seq<string>)
    requires forall id :: id in locations ==> id in index
    requires forall id :: id in distances <==> id in locations && id in index
    requires forall id :: id in distances ==> distances[id] == index[id].distance
    ensures SortWith(MapSeq(PlaceOf(index), locations), LabelPlacement.ByDistance)
         == MapSeq(PlaceOf(index), SortWith(locations, ByLocationDistance(distances)))
  {
    var f := PlaceOf(index);
    forall a, b | a in locations && b in locations
      ensures LabelPlacement.ByDistance(f(a), f(b)) == ByLocationDistance(distances)(a, b)
    {
    }
    SortWithMap(f, locations, ByLocationDistance(distances), LabelPlacement.ByDistance);
  }

  lemma {:induction false} DrawnLabels(p: Prepared, frame: Frame, v: View)
    requires p.events != [] && Renders(p, {})
    requires forall id :: id in p.distances <==> id in p.locations && id in p.index
    requires forall id :: id in p.distances ==> p.distances[id] == p.index[id].distance
    requires v == Draw(p, frame)
    ensures var labels := SortWith(v.labelPlaces, LabelPlacement.ByDistance);
            && |labels| == |v.guideOrder|
            && forall k :: 0 <= k < |labels| ==> v.guideOrder[k] in p.index && labels[k] == p.index[v.guideOrder[k]]
  {
    forall id | id in p.locations ensures id in p.index {
      var i :| 0 <= i < |p.locations| && p.locations[i] == id;
    }
    LabelsSortLikeLocations(p.index, p.distances, p.locations);
    var g := v.guideOrder;
    forall k | 0 <= k < |g| ensures g[k] in p.index {
      assert g[k] in multiset(p.locations);
    }
  }

  /**
   * The label column, which sorts the places it is given by distance, lists
   * the places of the guide lines in the guide lines' order.
   */
  lemma LabelsInGuideOrder(trajectories: seq<Trajectory>, places: seq<Place>, settings: Option<Settings>, frame: Frame,
                           parseDate: string -> Option<int>, parseNumber: string -> real)
    requires LinearTimeline(trajectories, places, settings, frame, parseDate, parseNumber).Ok?
    ensures var v := LinearTimeline(trajectories, places, settings, frame, parseDate, parseNumber).value;
            var labels := SortWith(v.labelPlaces, LabelPlacement.ByDistance);
            && |labels| == |v.guideOrder|
            && forall k :: 0 <= k < |labels| ==> v.guideOrder[k] in PlaceIndex(places) && labels[k] == PlaceIndex(places)[v.guideOrder[k]]
  {
    var p := Prepare(trajectories, places, settings, parseDate, parseNumber, false);
    DrawnLabels(p, frame, Draw(p, frame));
  }
}
