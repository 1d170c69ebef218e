// The data preparation the three timeline components repeat on every render
// (src/components/LinearTimeline.tsx, src/CircularTimeline.tsx,
// src/LinearTimeline.tsx): trimmed and dated events, the place index, the
// distinct locations, their distances, the scale parameters and the name
// palette. Date parsing (`d3.timeParse`) and `parseFloat` on text stay
// abstract: they are parameters. d3's scales are kept as the parameters they
// are built from.

module TimelineData {
  import opened Common
  import opened Records
  import opened Text
  import opened Sequences
  import opened Sorting

  // ---------------------------------------------------------------------------
  // Events

  /** The month style a date label asks `toLocaleString` for. */
  datatype MonthStyle = LongMonth | ShortMonth

  /** The fields a date label asks for: always the year, a month, and the day or not. */
  datatype LabelRequest = LabelRequest(month: MonthStyle, day: bool)

  /** A trajectory as the components prepare it; `date` is `None` where the date did not parse. */
  datatype Event = Event(
    trajectory: Trajectory,
    sourceId: string,
    targetId: string,
    date: Option<int>,
    labelRequest: LabelRequest)

  /**
   * The label fields for a `dataAccuracy`: a long month only for `month`, the
   * day only for `day`; every other accuracy (`year`, `week`, ...) still asks
   * for a short month.
   */
  function LabelRequestFor(dataAccuracy: string): (r: LabelRequest)
    ensures r.day <==> dataAccuracy == "day"
    ensures r.month == LongMonth <==> dataAccuracy == "month"
  {
    LabelRequest(if dataAccuracy == "month" then LongMonth else ShortMonth, dataAccuracy == "day")
  }

  /** The `map` step: ids trimmed, date parsed, label fields chosen. */
  function PrepareEvent(t: Trajectory, parseDate: string -> Option<int>): (e: Event)
    ensures e.trajectory == t && Unpadded(e.sourceId) && Unpadded(e.targetId)
  {
    Event(t, Trim(t.sourceId), Trim(t.targetId), parseDate(t.movingDate), LabelRequestFor(t.dataAccuracy))
  }

  /** One event per trajectory, in input order, each with unpadded ids. */
  function PrepareEvents(trajectories: seq<Trajectory>, parseDate: string -> Option<int>): (events: seq<Event>)
    ensures |events| == |trajectories|
    ensures forall i :: 0 <= i < |events| ==>
              && events[i].trajectory == trajectories[i]
              && events[i] == PrepareEvent(trajectories[i], parseDate)
              && Unpadded(events[i].sourceId) && Unpadded(events[i].targetId)
  {
    if trajectories == [] then []
    else [PrepareEvent(trajectories[0], parseDate)] + PrepareEvents(trajectories[1..], parseDate)
  }

  /** The sort comparator: the time difference when both dates parsed, 0 otherwise. */
  function DateOrder(a: Event, b: Event): real {
    if a.date.Some? && b.date.Some? then (a.date.value - b.date.value) as real else 0.0
  }

  /** The event's time, for events whose date parsed. */
  function DateKey(e: Event): real {
    if e.date.Some? then e.date.value as real else 0.0
  }

  predicate AllDated(events: seq<Event>) {
    forall i :: 0 <= i < |events| ==> events[i].date.Some?
  }

  /**
   * When every date parsed, sorting by `DateOrder` puts the events in
   * chronological order, keeps every event, and keeps events of the same
   * time in input order.
   */
  lemma ChronologicalWhenDated(events: seq<Event>, t: real)
    requires AllDated(events)
    ensures multiset(SortWith(events, DateOrder)) == multiset(events)
    ensures AllDated(SortWith(events, DateOrder))
    ensures SortedByKey(SortWith(events, DateOrder), DateKey)
    ensures WithKey(SortWith(events, DateOrder), DateKey, t) == WithKey(events, DateKey, t)
  {
    assert ComparesByKey(events, DateOrder, DateKey) by {
      forall a, b | a in events && b in events ensures DateOrder(a, b) == DateKey(a) - DateKey(b) {
        var i :| 0 <= i < |events| && events[i] == a;
        var j :| 0 <= j < |events| && events[j] == b;
      }
    }
    SortWithSorted(events, DateOrder, DateKey);
    SortWithStable(events, DateOrder, DateKey, t);
    var sorted := SortWith(events, DateOrder);
    forall e | e in sorted ensures e.date.Some? {
      assert e in multiset(events);
    }
  }

  /** When every date parses, the date-sorted events all carry a date and are in chronological order. */
  lemma SortedWhenAllDatesParse(events: seq<Event>, trajectories: seq<Trajectory>, parseDate: string -> Option<int>)
    requires forall i :: 0 <= i < |trajectories| ==> parseDate(trajectories[i].movingDate).Some?
    requires events == SortWith(PrepareEvents(trajectories, parseDate), DateOrder)
    ensures AllDated(events) && SortedByKey(events, DateKey)
  {
    var prepared := PrepareEvents(trajectories, parseDate);
    assert AllDated(prepared);
    ChronologicalWhenDated(prepared, 0.0);
  }

  /** An event whose date did not parse compares equal to every event, so the sort never moves it on its own account. */
  lemma UndatedComparesEqual(u: Event, e: Event)
    requires u.date.None?
    ensures DateOrder(u, e) == 0.0 && DateOrder(e, u) == 0.0
  {
  }

  // ---------------------------------------------------------------------------
  // Place index

  /** The `reduce` that indexes the places by id: a later place overrides an earlier one with the same id. */
  function PlaceIndex(places: seq<Place>): (index: map<string, Place>)
    ensures forall i :: 0 <= i < |places| ==> places[i].id in index
    ensures forall id :: id in index ==> index[id] in places && index[id].id == id
  {
    if places == [] then map[]
    else
      var prefix := places[..|places| - 1];
      var last := places[|places| - 1];
      assert forall i :: 0 <= i < |prefix| ==> prefix[i] == places[i];
      PlaceIndex(prefix)[last.id := last]
  }

  /** The index holds, for each id, the last place with that id. */
  lemma {:induction false} PlaceIndexLastWins(places: seq<Place>, i: int)
    requires 0 <= i < |places|
    requires forall j :: i < j < |places| ==> places[j].id != places[i].id
    ensures PlaceIndex(places)[places[i].id] == places[i]
  {
    if i < |places| - 1 {
      PlaceIndexLastWins(places[..|places| - 1], i);
    }
  }

  method BuildPlaceIndex(places: seq<Place>) returns (index: map<string, Place>)
    ensures index == PlaceIndex(places)
  {
    index := map[];
    for i := 0 to |places|
      invariant index == PlaceIndex(places[..i])
    {
      assert places[..i + 1][..i] == places[..i];
      index := index[places[i].id := places[i]];
    }
    assert places[..|places|] == places;
  }

  // ---------------------------------------------------------------------------
  // Locations

  /** The ids in the order the `forEach` adds them: each event's source, then its target. */
  function Endpoints(events: seq<Event>): (ids: seq<string>)
    ensures |ids| == 2 * |events|
    ensures forall i :: 0 <= i < |events| ==> ids[2 * i] == events[i].sourceId && ids[2 * i + 1] == events[i].targetId
  {
    if events == [] then []
    else
      var prefix := events[..|events| - 1];
      assert forall i :: 0 <= i < |prefix| ==> prefix[i] == events[i];
      Endpoints(prefix) + [events[|events| - 1].sourceId, events[|events| - 1].targetId]
  }

  lemma EndpointsStep(events: seq<Event>, i: int)
    requires 0 <= i < |events|
    ensures Endpoints(events[..i + 1]) == Endpoints(events[..i]) + [events[i].sourceId, events[i].targetId]
  {
    assert events[..i + 1][..i] == events[..i];
  }

  /** One `forEach` step: the event's source, then its target, join the listed set. */
  lemma ExtractStep(events: seq<Event>, i: int)
    requires 0 <= i < |events|
    ensures var d := Distinct(Endpoints(events[..i]));
            var s, t := events[i].sourceId, events[i].targetId;
            var d1 := if s in d then d else d + [s];
            Distinct(Endpoints(events[..i + 1])) == (if t in d1 then d1 else d1 + [t])
  {
    var before := Endpoints(events[..i]);
    var s, t := events[i].sourceId, events[i].targetId;
    EndpointsStep(events, i);
    assert before + [s, t] == (before + [s]) + [t];
    DistinctSnoc(before, s);
    DistinctSnoc(before + [s], t);
  }

  lemma EndpointListedAt(events: seq<Event>, i: int)
    requires 0 <= i < |events|
    ensures events[i].sourceId in Distinct(Endpoints(events)) && events[i].targetId in Distinct(Endpoints(events))
  {
    var ids := Endpoints(events);
    assert ids[2 * i] == events[i].sourceId && ids[2 * i + 1] == events[i].targetId;
  }

  /** Every source and target id is among the distinct endpoints. */
  lemma EndpointsListed(events: seq<Event>)
    ensures forall i :: 0 <= i < |events| ==>
              events[i].sourceId in Distinct(Endpoints(events)) && events[i].targetId in Distinct(Endpoints(events))
  {
    forall i | 0 <= i < |events|
      ensures events[i].sourceId in Distinct(Endpoints(events)) && events[i].targetId in Distinct(Endpoints(events))
    {
      EndpointListedAt(events, i);
    }
  }

  /**
   * The `Set` of locations, listed: every source and target id once, in order
   * of first appearance, a source before the target of the same event.
   */
  method ExtractLocations(events: seq<Event>) returns (locations: seq<string>)
    ensures locations == Distinct(Endpoints(events))
    ensures NoDuplicates(locations)
    ensures forall i :: 0 <= i < |events| ==> events[i].sourceId in locations && events[i].targetId in locations
  {
    // The insertion-ordered `Set`, held as the list of what was added.
    locations := [];
    for i := 0 to |events|
      invariant locations == Distinct(Endpoints(events[..i]))
    {
      var sourceId, targetId := events[i].sourceId, events[i].targetId;
      ExtractStep(events, i);
      if sourceId !in locations {
        locations := locations + [sourceId];
      }
      if targetId !in locations {
        locations := locations + [targetId];
      }
    }
    assert events[..|events|] == events;
    EndpointsListed(events);
  }

  // ---------------------------------------------------------------------------
  // Distances

  /**
   * The `reduce` over the locations that records each one's distance: an id
   * missing from the index throws inside the `try`, the `catch` swallows it,
   * and the id is simply absent. An inherited name such as `toString` does
   * not throw but records `NaN` (the `distance` of an `Object.prototype`
   * member is `undefined`); the map leaves it out as well, since `d3.max`
   * skips `NaN` and the comparator's `NaN` difference reads as 0, exactly as
   * for an absent id.
   */
  function DistanceMap(locations: seq<string>, index: map<string, Place>): (distances: map<string, real>)
    ensures forall id :: id in distances <==> id in locations && id in index
    ensures forall id :: id in distances ==> id in index && distances[id] == index[id].distance
  {
    if locations == [] then map[]
    else
      var prefix := locations[..|locations| - 1];
      var loc := locations[|locations| - 1];
      assert locations == prefix + [loc];
      var d := DistanceMap(prefix, index);
      if loc in index then d[loc := index[loc].distance] else d
  }

  method DistancesByPlaceId(locations: seq<string>, index: map<string, Place>) returns (distances: map<string, real>)
    ensures distances == DistanceMap(locations, index)
  {
    distances := map[];
    for i := 0 to |locations|
      invariant distances == DistanceMap(locations[..i], index)
    {
      assert locations[..i + 1][..i] == locations[..i];
      if locations[i] in index {
        distances := distances[locations[i] := index[locations[i]].distance];
      }
    }
    assert locations[..|locations|] == locations;
  }

  /** The distances of the locations that have one. */
  function LocatedDistances(locations: seq<string>, distances: map<string, real>): set<real> {
    set k | k in locations && k in distances :: distances[k]
  }

  /** `Object.values(distancesByPlaceId)`, listed in location order. */
  function DistanceValues(locations: seq<string>, distances: map<string, real>): (values: seq<real>)
    ensures forall i :: 0 <= i < |values| ==> values[i] in distances.Values
    ensures forall k :: k in locations && k in distances ==> distances[k] in values
    ensures (set v | v in values) == LocatedDistances(locations, distances)
  {
    if locations == [] then []
    else
      var prefix := locations[..|locations| - 1];
      var loc := locations[|locations| - 1];
      assert locations == prefix + [loc];
      LocatedDistancesSnoc(prefix, loc, distances);
      var values := DistanceValues(prefix, distances) + (if loc in distances then [distances[loc]] else []);
      assert (set v | v in values) == (set v | v in DistanceValues(prefix, distances)) + (if loc in distances then {distances[loc]} else {});
      values
  }

  lemma LocatedDistancesSnoc(prefix: seq<string>, loc: string, distances: map<string, real>)
    ensures LocatedDistances(prefix + [loc], distances)
            == LocatedDistances(prefix, distances) + (if loc in distances then {distances[loc]} else {})
  {
    var whole := LocatedDistances(prefix + [loc], distances);
    var parts := LocatedDistances(prefix, distances) + (if loc in distances then {distances[loc]} else {});
    forall d | d in whole ensures d in parts {
      var k :| k in prefix + [loc] && k in distances && distances[k] == d;
      if k != loc {
        assert k in prefix;
      }
    }
    forall d | d in parts ensures d in whole {
      if d in LocatedDistances(prefix, distances) {
        var k :| k in prefix && k in distances && distances[k] == d;
        assert k in prefix + [loc];
      } else {
        assert loc in prefix + [loc];
      }
    }
  }

  /**
   * `top` is `d3.max(ds) || 1` for the distances `ds`: their maximum, or the
   * fallback 1 when there are none or their maximum is 0 (which `||` reads
   * as false).
   */
  predicate IsMaxOrOne(top: real, ds: set<real>) {
    && (forall d :: d in ds ==> d <= top)
    && (if ds == {} || (0.0 in ds && forall d :: d in ds ==> d <= 0.0) then top == 1.0 else top in ds)
  }

  /**
   * `d3.max(values) || 1`: the upper end of the distance domain. It is never
   * 0, it bounds every value, and it is their maximum unless that is 0 or
   * there is no value, when it is 1.
   */
  function DomainMax(values: seq<real>): (top: real)
    ensures top != 0.0
    ensures forall i :: 0 <= i < |values| ==> values[i] <= top
    ensures top == 1.0 || top in values
    ensures values == [] ==> top == 1.0
    ensures IsMaxOrOne(top, set v | v in values)
  {
    match MaxOf(values)
    case None => 1.0
    case Some(m) =>
      var ds := set v | v in values;
      assert m in ds;
      assert forall d :: d in ds ==> d <= m by {
        forall d | d in ds ensures d <= m {
          var i :| 0 <= i < |values| && values[i] == d;
        }
      }
      if m == 0.0 then 1.0 else m
  }

  /** `settings?.exponent ? parseFloat(settings.exponent) : 0.5`. */
  function Exponent(settings: Option<Settings>, parseNumber: string -> real): (e: real)
    ensures settings.None? ==> e == 0.5
    ensures settings.Some? && settings.value.exponent == "" ==> e == 0.5
    ensures settings.Some? && settings.value.exponent != "" ==> e == parseNumber(settings.value.exponent)
  {
    if settings.Some? && settings.value.exponent != "" then parseNumber(settings.value.exponent) else 0.5
  }

  // ---------------------------------------------------------------------------
  // Ordering the locations by distance

  /**
   * `(a, b) => distancesByPlaceId[a] - distancesByPlaceId[b]`. A missing
   * distance is `undefined` (or `NaN`, or an `Object.prototype` member), the
   * difference is `NaN`, and the sort reads `NaN` as 0.
   */
  function ByLocationDistance(distances: map<string, real>): (string, string) -> real {
    (a: string, b: string) => if a in distances && b in distances then distances[a] - distances[b] else 0.0
  }

  function LocationDistance(distances: map<string, real>): string -> real {
    (k: string) => if k in distances then distances[k] else 0.0
  }

  /** When every location has a distance the sort lists them by ascending distance, ties in input order. */
  lemma LocationsByDistance(locations: seq<string>, distances: map<string, real>, k: real)
    requires forall i :: 0 <= i < |locations| ==> locations[i] in distances
    ensures multiset(SortWith(locations, ByLocationDistance(distances))) == multiset(locations)
    ensures SortedByKey(SortWith(locations, ByLocationDistance(distances)), LocationDistance(distances))
    ensures WithKey(SortWith(locations, ByLocationDistance(distances)), LocationDistance(distances), k)
         == WithKey(locations, LocationDistance(distances), k)
  {
    var cmp, key := ByLocationDistance(distances), LocationDistance(distances);
    assert ComparesByKey(locations, cmp, key) by {
      forall a, b | a in locations && b in locations ensures cmp(a, b) == key(a) - key(b) {
        var i :| 0 <= i < |locations| && locations[i] == a;
        var j :| 0 <= j < |locations| && locations[j] == b;
      }
    }
    SortWithSorted(locations, cmp, key);
    SortWithStable(locations, cmp, key, k);
  }

  /** `ids` are place ids, listed by ascending distance of their places. */
  predicate SortedByPlaceDistance(ids: seq<string>, index: map<string, Place>) {
    && (forall k :: 0 <= k < |ids| ==> ids[k] in index)
    && forall j, k :: 0 <= j < k < |ids| ==> index[ids[j]].distance <= index[ids[k]].distance
  }

  lemma SortedLocationsByPlaceDistance(ids: seq<string>, distances: map<string, real>, index: map<string, Place>)
    requires SortedByKey(ids, LocationDistance(distances))
    requires forall k :: 0 <= k < |ids| ==> ids[k] in distances && ids[k] in index && distances[ids[k]] == index[ids[k]].distance
    ensures SortedByPlaceDistance(ids, index)
  {
    forall j, k | 0 <= j < k < |ids| ensures index[ids[j]].distance <= index[ids[k]].distance {
      assert LocationDistance(distances)(ids[j]) <= LocationDistance(distances)(ids[k]);
    }
  }

  /** `locationArray.sort(...)`: the array of locations reordered in place. */
  method SortLocations(locationArray: array<string>, distances: map<string, real>)
    modifies locationArray
    ensures locationArray[..] == SortWith(old(locationArray[..]), ByLocationDistance(distances))
  {
    SortInPlace(locationArray, ByLocationDistance(distances));
  }

  // ---------------------------------------------------------------------------
  // The name palette

  /** `customColors`. */
  const CustomColors: seq<string> := [
    "#067BC2", "#8A33FF", "#84DD63", "#684756", "#FB4D3D", "#5ABCB9", "#9D9171",
    "#FF3366", "#26532B", "#D56062", "#3D314A", "#399E5A", "#5D675B", "#2EC4B6"
  ]

  function PlaceNames(places: seq<Place>): (names: seq<string>)
    ensures |names| == |places| && forall i :: 0 <= i < |places| ==> names[i] == places[i].name
  {
    if places == [] then [] else [places[0].name] + PlaceNames(places[1..])
  }

  /** `customColors[k % customColors.length]`: the palette cycles every 14 names. */
  function PaletteColor(k: nat): (color: string)
    ensures color in CustomColors
  {
    CustomColors[k % |CustomColors|]
  }

  /** The `forEach` over the distinct names: the name at position `k` gets palette colour `k`. */
  method AssignPaletteColors(uniqueNames: seq<string>) returns (nameToColor: map<string, string>)
    requires NoDuplicates(uniqueNames)
    ensures forall name :: name in nameToColor <==> name in uniqueNames
    ensures forall k :: 0 <= k < |uniqueNames| ==> nameToColor[uniqueNames[k]] == PaletteColor(k)
  {
    nameToColor := map[];
    for index := 0 to |uniqueNames|
      invariant forall name :: name in nameToColor <==> name in uniqueNames[..index]
      invariant forall k :: 0 <= k < index ==> nameToColor[uniqueNames[k]] == PaletteColor(k)
    {
      assert uniqueNames[..index + 1] == uniqueNames[..index] + [uniqueNames[index]];
      nameToColor := nameToColor[uniqueNames[index] := PaletteColor(index)];
    }
    assert uniqueNames[..|uniqueNames|] == uniqueNames;
  }

  /**
   * `nameToColorMap`: the `k`-th distinct place name, in order of first
   * appearance, gets `customColors[k % 14]`; there is one entry per name.
   */
  method NameToColorMap(places: seq<Place>) returns (nameToColor: map<string, string>)
    ensures forall i :: 0 <= i < |places| ==> places[i].name in nameToColor
    ensures forall name :: name in nameToColor ==> name in PlaceNames(places)
    ensures var unique := Distinct(PlaceNames(places));
            forall k :: 0 <= k < |unique| ==> nameToColor[unique[k]] == PaletteColor(k)
  {
    var uniqueNames := CollectDistinct(PlaceNames(places));
    nameToColor := AssignPaletteColors(uniqueNames);
    forall i | 0 <= i < |places| ensures places[i].name in nameToColor {
      assert PlaceNames(places)[i] == places[i].name;
    }
  }

  // ---------------------------------------------------------------------------
  // One render's prepared data

  /** Why a render throws. */
  datatype RenderError =
    | NoTrajectories  // the time domain reads `parsedData[0].date` of an empty list
    | MissingPlace    // a location that no place has is dereferenced while drawing

  /**
   * A drawn point as the two scales receive it: a date for the time scale and
   * a place whose distance feeds the distance scale.
   */
  datatype Anchor = Anchor(date: Option<int>, placeId: string)

  /** `d3.scalePow()` with domain `[0, domainEnd]`, range `[rangeStart, rangeEnd]` and an exponent. */
  datatype PowScale = PowScale(domainEnd: real, rangeStart: real, rangeEnd: real, exponent: real)

  /** `d3.scaleTime()` with domain `[first, last]` and range `[rangeStart, rangeEnd]`. */
  datatype TimeScale = TimeScale(first: Option<int>, last: Option<int>, rangeStart: real, rangeEnd: real)

  /** What every timeline component computes before it draws. */
  datatype Prepared = Prepared(
    events: seq<Event>,
    index: map<string, Place>,
    locations: seq<string>,
    distances: map<string, real>,
    exponent: real)

  /**
   * The preparation, with or without the chronological sort: the events are
   * those of the trajectories (in input order when not sorted), the locations
   * list each endpoint once, and only located places have a distance.
   */
  function Prepare(trajectories: seq<Trajectory>, places: seq<Place>, settings: Option<Settings>,
                   parseDate: string -> Option<int>, parseNumber: string -> real, sortByDate: bool): (p: Prepared)
    ensures |p.events| == |trajectories|
    ensures multiset(p.events) == multiset(PrepareEvents(trajectories, parseDate))
    ensures !sortByDate ==> p.events == PrepareEvents(trajectories, parseDate)
    ensures sortByDate ==> p.events == SortWith(PrepareEvents(trajectories, parseDate), DateOrder)
    ensures p.index == PlaceIndex(places)
    ensures p.locations == Distinct(Endpoints(p.events))
    ensures NoDuplicates(p.locations)
    ensures forall i :: 0 <= i < |p.events| ==> p.events[i].sourceId in p.locations && p.events[i].targetId in p.locations
    ensures forall id :: id in p.distances <==> id in p.locations && id in p.index
    ensures forall id :: id in p.distances ==> p.distances[id] == p.index[id].distance
  {
    var prepared := PrepareEvents(trajectories, parseDate);
    var events := if sortByDate then SortWith(prepared, DateOrder) else prepared;
    var index := PlaceIndex(places);
    var locations := Distinct(Endpoints(events));
    EndpointsListed(events);
    Prepared(events, index, locations, DistanceMap(locations, index), Exponent(settings, parseNumber))
  }

  /** The preparation as the components run it, statement by statement. */
  method PrepareRender(trajectories: seq<Trajectory>, places: seq<Place>, settings: Option<Settings>,
                       parseDate: string -> Option<int>, parseNumber: string -> real, sortByDate: bool)
    returns (p: Prepared)
    ensures p == Prepare(trajectories, places, settings, parseDate, parseNumber, sortByDate)
  {
    var events := PrepareEvents(trajectories, parseDate);
    if sortByDate {
      var parsedData := new Event[|events|](i requires 0 <= i < |events| => events[i]);
      assert parsedData[..] == events;
      SortInPlace(parsedData, DateOrder);
      events := parsedData[..];
    }
    var index := BuildPlaceIndex(places);
    var locations := ExtractLocations(events);
    var distances := DistancesByPlaceId(locations, index);
    p := Prepared(events, index, locations, distances, Exponent(settings, parseNumber));
  }

  /** The upper end of the distance domain: `d3.max(Object.values(distancesByPlaceId)) || 1`. */
  function DistanceDomainEnd(p: Prepared): (top: real)
    ensures top != 0.0
    ensures forall id :: id in p.locations && id in p.distances ==> p.distances[id] <= top
    ensures IsMaxOrOne(top, LocatedDistances(p.locations, p.distances))
  {
    var values := DistanceValues(p.locations, p.distances);
    var top := DomainMax(values);
    assert forall id :: id in p.locations && id in p.distances ==> p.distances[id] <= top by {
      forall id | id in p.locations && id in p.distances ensures p.distances[id] <= top {
        var i :| 0 <= i < |values| && values[i] == p.distances[id];
      }
    }
    top
  }

  /**
   * `placeIndex[id]` reads without throwing. The index is an object literal:
   * an id it does not hold as its own key still finds a member of
   * `Object.prototype` when it is one of `inherited`. A component passes the
   * names of all those members when it only reads properties of what it looks
   * up, and no names when the value it reads goes on to a call that throws.
   */
  predicate Resolves(index: map<string, Place>, inherited: set<string>, id: string) {
    id in index || id in inherited
  }

  /** The prepared data draws without throwing: there is an event and every location resolves. */
  predicate Renders(p: Prepared, inherited: set<string>) {
    p.events != [] && forall i :: 0 <= i < |p.locations| ==> Resolves(p.index, inherited, p.locations[i])
  }

  /** Some place has id `id`. */
  predicate IsPlaceId(places: seq<Place>, id: string) {
    exists j :: 0 <= j < |places| && places[j].id == id
  }

  /** Every trimmed source and target id of the trajectories names a place or is one of `inherited`. */
  predicate EndpointsPlaced(trajectories: seq<Trajectory>, places: seq<Place>, inherited: set<string>) {
    forall i :: 0 <= i < |trajectories| ==>
      && (IsPlaceId(places, Trim(trajectories[i].sourceId)) || Trim(trajectories[i].sourceId) in inherited)
      && (IsPlaceId(places, Trim(trajectories[i].targetId)) || Trim(trajectories[i].targetId) in inherited)
  }

  lemma InIndexIffPlaceId(places: seq<Place>, id: string)
    ensures id in PlaceIndex(places) <==> IsPlaceId(places, id)
  {
    if id in PlaceIndex(places) {
      var j :| 0 <= j < |places| && places[j] == PlaceIndex(places)[id];
    }
  }

  /** The `k`-th listed endpoint belongs to event `k / 2`. */
  lemma EndpointAt(events: seq<Event>, k: int)
    requires 0 <= k < 2 * |events|
    ensures var e := events[k / 2];
            Endpoints(events)[k] == e.sourceId || Endpoints(events)[k] == e.targetId
  {
    var i := k / 2;
    assert k == 2 * i || k == 2 * i + 1;
  }

  /** An event that has `x` as its source or its target. */
  function EndpointOwner(events: seq<Event>, x: string): (i: nat)
    requires x in Endpoints(events)
    ensures i < |events| && (events[i].sourceId == x || events[i].targetId == x)
  {
    var k := IndexOf(Endpoints(events), x);
    EndpointAt(events, k);
    k / 2
  }

  /** Every source and target of the events resolves. */
  predicate EventsPlaced(events: seq<Event>, index: map<string, Place>, inherited: set<string>) {
    forall i :: 0 <= i < |events| ==> Resolves(index, inherited, events[i].sourceId) && Resolves(index, inherited, events[i].targetId)
  }

  lemma EventsPlacedReordered(a: seq<Event>, b: seq<Event>, index: map<string, Place>, inherited: set<string>)
    requires multiset(a) == multiset(b)
    requires EventsPlaced(b, index, inherited)
    ensures EventsPlaced(a, index, inherited)
  {
    forall i | 0 <= i < |a| ensures Resolves(index, inherited, a[i].sourceId) && Resolves(index, inherited, a[i].targetId) {
      assert a[i] in multiset(b);
      var j :| 0 <= j < |b| && b[j] == a[i];
    }
  }

  /** The listed locations all resolve exactly when every event's endpoints do. */
  lemma LocationsPlacedIff(events: seq<Event>, locations: seq<string>, index: map<string, Place>, inherited: set<string>)
    requires locations == Distinct(Endpoints(events))
    ensures (forall k :: 0 <= k < |locations| ==> Resolves(index, inherited, locations[k])) <==> EventsPlaced(events, index, inherited)
  {
    if EventsPlaced(events, index, inherited) {
      forall k | 0 <= k < |locations| ensures Resolves(index, inherited, locations[k]) {
        assert locations[k] in Endpoints(events);
        var i := EndpointOwner(events, locations[k]);
      }
    }
    if forall k :: 0 <= k < |locations| ==> Resolves(index, inherited, locations[k]) {
      forall i | 0 <= i < |events| ensures Resolves(index, inherited, events[i].sourceId) && Resolves(index, inherited, events[i].targetId) {
        EndpointListedAt(events, i);
        var ks := IndexOf(locations, events[i].sourceId);
        var kt := IndexOf(locations, events[i].targetId);
      }
    }
  }

  lemma PreparedEventsPlacedIff(trajectories: seq<Trajectory>, places: seq<Place>, parseDate: string -> Option<int>, inherited: set<string>)
    ensures EventsPlaced(PrepareEvents(trajectories, parseDate), PlaceIndex(places), inherited) <==> EndpointsPlaced(trajectories, places, inherited)
  {
    var events := PrepareEvents(trajectories, parseDate);
    forall i | 0 <= i < |trajectories|
      ensures (events[i].sourceId in PlaceIndex(places) <==> IsPlaceId(places, Trim(trajectories[i].sourceId)))
           && (events[i].targetId in PlaceIndex(places) <==> IsPlaceId(places, Trim(trajectories[i].targetId)))
    {
      InIndexIffPlaceId(places, events[i].sourceId);
      InIndexIffPlaceId(places, events[i].targetId);
    }
  }

  lemma PreparedRendersIff(p: Prepared, trajectories: seq<Trajectory>, places: seq<Place>, parseDate: string -> Option<int>,
                           inherited: set<string>)
    requires p.index == PlaceIndex(places)
    requires p.locations == Distinct(Endpoints(p.events))
    requires |p.events| == |trajectories|
    requires multiset(p.events) == multiset(PrepareEvents(trajectories, parseDate))
    ensures Renders(p, inherited) <==> trajectories != [] && EndpointsPlaced(trajectories, places, inherited)
  {
    var prepared := PrepareEvents(trajectories, parseDate);
    LocationsPlacedIff(p.events, p.locations, p.index, inherited);
    PreparedEventsPlacedIff(trajectories, places, parseDate, inherited);
    if EventsPlaced(p.events, p.index, inherited) {
      EventsPlacedReordered(prepared, p.events, p.index, inherited);
    }
    if EventsPlaced(prepared, p.index, inherited) {
      EventsPlacedReordered(p.events, prepared, p.index, inherited);
    }
  }

  /**
   * A timeline component draws (rather than throwing) exactly when it is given
   * a trajectory and every trimmed source and target id names a place or is
   * one of the names its lookups let through.
   */
  lemma RendersIff(trajectories: seq<Trajectory>, places: seq<Place>, settings: Option<Settings>,
                   parseDate: string -> Option<int>, parseNumber: string -> real, sortByDate: bool, inherited: set<string>)
    ensures Renders(Prepare(trajectories, places, settings, parseDate, parseNumber, sortByDate), inherited)
        <==> trajectories != [] && EndpointsPlaced(trajectories, places, inherited)
  {
    var p := Prepare(trajectories, places, settings, parseDate, parseNumber, sortByDate);
    PreparedRendersIff(p, trajectories, places, parseDate, inherited);
  }

  /** Every trimmed endpoint of the trajectories is a location, whether or not the events were sorted. */
  lemma TrimmedEndpointsListed(p: Prepared, trajectories: seq<Trajectory>, parseDate: string -> Option<int>)
    requires |p.events| == |trajectories|
    requires multiset(p.events) == multiset(PrepareEvents(trajectories, parseDate))
    requires forall i :: 0 <= i < |p.events| ==> p.events[i].sourceId in p.locations && p.events[i].targetId in p.locations
    ensures forall i :: 0 <= i < |trajectories| ==>
              Trim(trajectories[i].sourceId) in p.locations && Trim(trajectories[i].targetId) in p.locations
  {
    var prepared := PrepareEvents(trajectories, parseDate);
    forall i | 0 <= i < |trajectories|
      ensures Trim(trajectories[i].sourceId) in p.locations && Trim(trajectories[i].targetId) in p.locations
    {
      assert prepared[i] in multiset(p.events);
      var j :| 0 <= j < |p.events| && p.events[j] == prepared[i];
    }
  }

  /** `id` is the trimmed source or target of some trajectory. */
  predicate IsTrimmedEndpoint(trajectories: seq<Trajectory>, id: string) {
    exists i :: 0 <= i < |trajectories| && (id == Trim(trajectories[i].sourceId) || id == Trim(trajectories[i].targetId))
  }

  /** The locations are exactly the trimmed endpoints, whether or not the events were sorted. */
  lemma {:induction false} LocationsAreTrimmedEndpoints(p: Prepared, trajectories: seq<Trajectory>, parseDate: string -> Option<int>, id: string)
    requires p.locations == Distinct(Endpoints(p.events))
    requires |p.events| == |trajectories|
    requires multiset(p.events) == multiset(PrepareEvents(trajectories, parseDate))
    ensures id in p.locations <==> IsTrimmedEndpoint(trajectories, id)
  {
    var prepared := PrepareEvents(trajectories, parseDate);
    if id in p.locations {
      var k := EndpointOwner(p.events, id);
      assert p.events[k] in multiset(prepared);
      var i :| 0 <= i < |prepared| && prepared[i] == p.events[k];
      assert id == Trim(trajectories[i].sourceId) || id == Trim(trajectories[i].targetId);
    }
    if IsTrimmedEndpoint(trajectories, id) {
      EndpointsListed(p.events);
      TrimmedEndpointsListed(p, trajectories, parseDate);
    }
  }

  /** The distances of the places that some trimmed endpoint names. */
  function EndpointDistances(trajectories: seq<Trajectory>, places: seq<Place>): set<real> {
    var index := PlaceIndex(places);
    set id | id in index && IsTrimmedEndpoint(trajectories, id) :: index[id].distance
  }

  /**
   * The distance domain ends at `d3.max || 1` over the distances of every
   * trimmed source and target that is a place, whether or not the events
   * were sorted.
   */
  lemma PreparedDomainEnd(trajectories: seq<Trajectory>, places: seq<Place>, settings: Option<Settings>,
                          parseDate: string -> Option<int>, parseNumber: string -> real, sortByDate: bool)
    ensures IsMaxOrOne(DistanceDomainEnd(Prepare(trajectories, places, settings, parseDate, parseNumber, sortByDate)),
                       EndpointDistances(trajectories, places))
  {
    var p := Prepare(trajectories, places, settings, parseDate, parseNumber, sortByDate);
    LocatedAreEndpointDistances(p, trajectories, places, parseDate);
  }

  lemma LocatedAreEndpointDistances(p: Prepared, trajectories: seq<Trajectory>, places: seq<Place>,
                                    parseDate: string -> Option<int>)
    requires p.locations == Distinct(Endpoints(p.events))
    requires |p.events| == |trajectories|
    requires multiset(p.events) == multiset(PrepareEvents(trajectories, parseDate))
    requires p.index == PlaceIndex(places)
    requires forall id :: id in p.distances <==> id in p.locations && id in p.index
    requires forall id :: id in p.distances ==> p.distances[id] == p.index[id].distance
    ensures LocatedDistances(p.locations, p.distances) == EndpointDistances(trajectories, places)
  {
    var located := LocatedDistances(p.locations, p.distances);
    var endpoints := EndpointDistances(trajectories, places);
    forall d | d in located ensures d in endpoints {
      var k :| k in p.locations && k in p.distances && p.distances[k] == d;
      LocationsAreTrimmedEndpoints(p, trajectories, parseDate, k);
    }
    forall d | d in endpoints ensures d in located {
      var k :| k in p.index && IsTrimmedEndpoint(trajectories, k) && p.index[k].distance == d;
      LocationsAreTrimmedEndpoints(p, trajectories, parseDate, k);
    }
  }

  /** Whether every id resolves does not depend on their order. */
  lemma AllIndexedReordered(a: seq<string>, b: seq<string>, index: map<string, Place>, inherited: set<string>)
    requires multiset(a) == multiset(b)
    ensures (forall k :: 0 <= k < |a| ==> Resolves(index, inherited, a[k])) <==> (forall k :: 0 <= k < |b| ==> Resolves(index, inherited, b[k]))
  {
    if forall k :: 0 <= k < |a| ==> Resolves(index, inherited, a[k]) {
      forall k | 0 <= k < |b| ensures Resolves(index, inherited, b[k]) {
        assert b[k] in multiset(a);
      }
    }
    if forall k :: 0 <= k < |b| ==> Resolves(index, inherited, b[k]) {
      forall k | 0 <= k < |a| ensures Resolves(index, inherited, a[k]) {
        assert a[k] in multiset(b);
      }
    }
  }
}
