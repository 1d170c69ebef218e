# Trajectories: the data side of the timeline views, in Dafny

This project models the deterministic core of the C2DH *trajectories* front end. The front end draws the moves of a person between places as timelines. The model covers:

- **Wave paths and path data** (`src/utils.ts`): the directed-wave and beam generators, and `pointsToSvgPath`.
- **Label placement** (`src/components/LinearTimelinePlaces.tsx`): places are sorted by distance, then one sweep pushes each label below its predecessor.
- **Place-type colours** (`src/constants.ts`): the colour table and `getColorByPlace`.
- **Per-render preparation of the three timeline components** (`src/components/LinearTimeline.tsx`, `src/CircularTimeline.tsx`, `src/LinearTimeline.tsx`):
  - ids are trimmed and dates parsed;
  - events are sorted by date or left in input order;
  - the place index, the distinct locations, the distance map, the exponent and the name-to-colour map are built;
  - the parameters of the time and distance scales are fixed;
  - the model records which endpoints each drawn line, arc, curve, dot, guide line and label row connects.
- **Grouping and pages** (`src/App.tsx`, `src/components/Trajectories.tsx`, `src/pages/PersonTrajectories.tsx`):
  - trajectories are grouped by person;
  - the sidebar lists the persons in `Object.keys` order;
  - the two routes show the same page;
  - a person's page selects that person's trajectories and the person's settings row.

**Imperative and pure parts.** The imperative parts of the source are `method`s with loops. Each is proved equal to a specification function, and the properties are proved as lemmas about that function:

- `for` loops that `push`;
- `Set` building and `reduce` accumulators;
- the `forEach` sweeps;
- the in-place `sort` calls.

The pure `map`/`filter`/`find` derivations are functions.

**Drawing.** A view is modelled by what it is drawn from. Every drawn point is an *anchor*, the pair (parsed date, place id) that the d3 scales turn into pixels. The scales are their parameter records: domain end, range and exponent.

**Errors.** A render that throws is an `Err`:

- an empty trajectory list (`NoTrajectories`);
- a location whose place lookup throws (`MissingPlace`): one that is not a place, except that in `src/CircularTimeline.tsx` and `src/LinearTimeline.tsx` a member name of `Object.prototype`, such as `toString`, does not throw;
- a wave call with too few points or too large an offset;
- a grouping that meets an inherited property name.

**Behaviour of the code worth knowing:**

- A date that does not parse does not stop a render. The date comparator returns 0 for it, and it has no radial line, dot or arc. In the model's insertion sort it keeps its position; a runtime's sort may move it (see `Sorting.SortWith` under "Left out").
- A location missing from the place table is dropped from the distance map, because the `catch` swallows the error. It still makes the render throw where the view reads its place: `placeIndex[loc].name`, `.type`, or `getColorByPlace(placeIndex[id])`.
- The place index is an object literal, so a location named like a member of `Object.prototype` (`toString`, `constructor`, ...) finds that member. `src/CircularTimeline.tsx` and `src/LinearTimeline.tsx` only read its `name`, `type` and `id`, which do not throw, and draw. `src/components/LinearTimeline.tsx` passes it to `getColorByPlace`, which trims its `undefined` type and throws.
- The date label asks for a long month only for `month` and for the day only for `day`. Every other accuracy asks for a short month and the year.
- `src/components/LinearTimeline.tsx` keeps the trajectories in input order; the other two components sort them by date.
- `pointsToSvgPath` separates the command letters and the coordinates with single spaces: `M x y L x y`.

## Model

| member | source | states |
|---|---|---|
| WavePath.GenerateDirectedWaveToTargetPath | src/utils.ts:27-103 | fails with `InsufficientPoints` exactly when `numPoints < 2`, with `InvalidOffset` exactly when the offset is at least the source-target distance; otherwise returns exactly `numPoints` points: every point but the last is the wave point of progress `i/(numPoints-1)`, and the last is exactly the target |
| WavePath.GenerateDirectedWaveBeamPath | src/utils.ts:109-174 | the same two failures under the same conditions; otherwise exactly `numPoints` beam points, the last one not pinned to the target |
| WavePath.CoincidentEndpointsRejected | src/utils.ts:44-59 | equal source and target with an offset that is not negative always fail the offset check |
| WavePath.NegativeOffsetAccepted | src/utils.ts:52-59 | a negative offset never fails the offset check |
| WavePath.FirstPointAtOffset | src/utils.ts:64-95 | point 0 has no amplitude: it lies on the source-target line at `startRadiusOffset` from the source |
| WavePath.DistanceAlongLinear | src/utils.ts:66-70 | the distance along the path grows linearly in `i`, from the offset at 0 to the full distance at `numPoints - 1` |
| WavePath.FlatWavePoint | src/utils.ts:69-94 | with `amplitudeGrowthRate = 0` each computed point lies on the source-target line at its distance along the path |
| WavePath.FlatWaveOnLine | src/utils.ts:64-100 | with `amplitudeGrowthRate = 0` every point of a successful result, the pinned last one included, lies on the source-target line |
| WavePath.LastComputedPointOffTarget | src/utils.ts:84-100 | before pinning, the last computed point is off the target by the last oscillation offset along the perpendicular; pinning is what puts it on the target |
| WavePath.BeamWithoutSpreadOrGrowth | src/utils.ts:144-171 | with no spread and no growth the beam computes the same points as the directed wave |
| WavePath.BeamFirstPoint | src/utils.ts:148-168 | the beam starts at the offset along the near edge of the fan, `θ - beamWidth/2` |
| SvgPath.PathTokens | src/utils.ts:179-191 | three words per point |
| SvgPath.PathTokensAt | src/utils.ts:184-188 | point `k` is written as `M` for the first point and `L` after, then its x, then its y |
| SvgPath.TokensWithoutSpace | src/utils.ts:184-188 | when no coordinate is written with a space, no word contains one |
| SvgPath.PointsToSvgPath | src/utils.ts:179-191 | the loop's string is the path words joined by single spaces; no points give the empty string |
| SvgPath.ParseTokensRoundTrip | src/utils.ts:184-188 | reading the words back gives the points |
| SvgPath.SvgPathRoundTrip | src/utils.ts:179-191 | reading the serialised path data back gives exactly the points, in order |
| LabelPlacement.Layout | src/components/LinearTimelinePlaces.tsx:21-43 | one position per place |
| LabelPlacement.LayoutProperties | src/components/LinearTimelinePlaces.tsx:21-43 | entry `i` holds place `i` with `x = xOriginal = 0` and `yOriginal` its scaled distance; the first label stays put; every later one is at `max(yOriginal, previous y + minLabelHeight)`, so consecutive labels are at least `minLabelHeight` apart and no label moves up |
| LabelPlacement.ThirdLabelPushedByShortfall | src/components/LinearTimelinePlaces.tsx:25-34 | a three-place instance: the third label, colliding with an unpushed second, is pushed down by exactly the shortfall |
| LabelPlacement.PlaceLabels | src/components/LinearTimelinePlaces.tsx:13-43 | the sweep with its mutable `yPrevious` computes the layout |
| LabelPlacement.LinearTimelinePlaces | src/components/LinearTimelinePlaces.tsx:13-43 | the places array is reordered in place by the distance sort and the result is the layout of the reordered array |
| LabelPlacement.SweepOrder | src/components/LinearTimelinePlaces.tsx:16-20 | the sweep visits the places by ascending distance, places of equal distance in input order |
| PlaceColors.LookupIn | src/constants.ts:3-42 | a key is found exactly when the literal lists it, and then with a colour written next to it |
| PlaceColors.LookupLastWins | src/constants.ts:3-42 | a key reads as the colour of its last entry in the literal |
| PlaceColors.GetColorByPlace | src/constants.ts:44-53 | the table colour of the trimmed type when the table lists it, black otherwise; always `#` and six hex digits |
| PlaceColors.DefaultColorIsHex | src/constants.ts:52 | the fallback is a hex colour |
| PlaceColors.AllTableColorsHex | src/constants.ts:3-42 | every colour the table lists is a hex colour |
| PlaceColors.TableColorIsHex | src/constants.ts:3-42 | whatever the table finds is a hex colour |
| PlaceColors.PaddingDoesNotChangeColor | src/constants.ts:45 | whitespace around the type never changes the colour |
| PlaceColors.HomeColor | src/constants.ts:4 | `Home` reads as `#009673` |
| PlaceColors.SharedColor | src/constants.ts:35-36 | the table is not one-to-one: `Médecin` and `Médecin traitant` both read as `#3C9DC6` |
| PlaceColors.NoTableKeyIsInherited | src/constants.ts:3-42 | no type the table lists is the name of an inherited member |
| PlaceColors.AsWrittenAgreesOffPrototype | src/constants.ts:44-53 | for every type that is not an inherited member name, the lookup as written gives the table colour or black |
| PlaceColors.ConstructorTypeIsNotAColor | src/constants.ts:45-52 | the type `constructor` gets the inherited `Object` function as written, black from the table |
| Sorting.SortWith | src/CircularTimeline.tsx:69-71 | the sort keeps every element: its result is a permutation of its input |
| Sorting.SortWithSorted | src/CircularTimeline.tsx:69-71 | with a comparator that is a key difference, the result is ordered by key |
| Sorting.SortWithStable | src/CircularTimeline.tsx:69-71 | with such a comparator, elements of equal key keep their input order |
| Sorting.SortWithMap | src/components/LinearTimelinePlaces.tsx:16-20 | sorting the images of a list with an agreeing comparator lists them in the order of the sorted list |
| Sorting.SortInPlace | src/components/LinearTimeline.tsx:201-202 | the array after the in-place sort holds the sorted old contents |
| Sequences.Distinct | src/components/LinearTimeline.tsx:83-88 | the `Set` lists each element of the input once and nothing else |
| Sequences.DistinctInFirstAppearanceOrder | src/components/LinearTimeline.tsx:83-88 | the `Set` lists its elements in order of first appearance |
| Sequences.DistinctSnoc | src/components/LinearTimeline.tsx:84-87 | adding an element appends it exactly when it is new |
| Sequences.CollectDistinct | src/CircularTimeline.tsx:42 | the loop adding to an insertion-ordered set lists the distinct elements |
| Sequences.MaxOf | src/CircularTimeline.tsx:103 | `d3.max`: nothing for no values, otherwise one of them and at least every other |
| Text.Trim | src/components/LinearTimeline.tsx:72-73 | the result has no whitespace at either end and is the infix of the input that only whitespace surrounds |
| Text.TrimUnpadded | src/components/LinearTimeline.tsx:72-73 | trimming changes nothing when no end is whitespace |
| Text.TrimIdempotent | src/components/LinearTimeline.tsx:72-73 | trimming twice is trimming once |
| TimelineData.LabelRequestFor | src/CircularTimeline.tsx:61-67 | the label asks for the day exactly for `day` and for a long month exactly for `month` |
| TimelineData.PrepareEvent | src/CircularTimeline.tsx:56-68 | an event keeps its trajectory and has unpadded ids |
| TimelineData.PrepareEvents | src/components/LinearTimeline.tsx:70-80 | one event per trajectory, in input order, with unpadded ids |
| TimelineData.ChronologicalWhenDated | src/CircularTimeline.tsx:69-71 | with every date parsed, the sort keeps every event, orders them by time and keeps events of the same time in input order |
| TimelineData.SortedWhenAllDatesParse | src/LinearTimeline.tsx:34-50 | when every date parses, the sorted events are all dated and in time order |
| TimelineData.UndatedComparesEqual | src/CircularTimeline.tsx:69-71 | an undated event compares equal to every event |
| TimelineData.PlaceIndex | src/components/LinearTimeline.tsx:60-63 | every place id is a key, and each key maps to a place of that id |
| TimelineData.PlaceIndexLastWins | src/components/LinearTimeline.tsx:60-63 | an id maps to the last place with that id |
| TimelineData.BuildPlaceIndex | src/CircularTimeline.tsx:48-51 | the `reduce` computes the index |
| TimelineData.Endpoints | src/components/LinearTimeline.tsx:84-87 | the ids in the order they are added: each event's source, then its target |
| TimelineData.EndpointsListed | src/components/LinearTimeline.tsx:83-88 | every source and target id is a location |
| TimelineData.ExtractLocations | src/components/LinearTimeline.tsx:83-88 | the `Set` loop lists every source and target id once, in order of first appearance |
| TimelineData.DistanceMap | src/components/LinearTimeline.tsx:89-96 | an id has a distance exactly when it is a location and a place; the distance is the place's (an inherited name's `NaN` is left out, which `d3.max` and the comparator treat alike) |
| TimelineData.DistancesByPlaceId | src/components/LinearTimeline.tsx:89-96 | the `reduce` with its swallowing `catch` computes that map |
| TimelineData.DistanceValues | src/components/LinearTimeline.tsx:116 | the values listed are the map's values, each location's among them |
| TimelineData.DomainMax | src/components/LinearTimeline.tsx:116 | `d3.max(values) \|\| 1`: the largest value, or 1 exactly when there is no value or the largest is 0; never 0 |
| TimelineData.Exponent | src/components/LinearTimeline.tsx:97-99 | 0.5 without settings or with an empty exponent, otherwise the parsed exponent |
| TimelineData.LocationsByDistance | src/components/LinearTimeline.tsx:201-202 | the locations sorted by distance: a permutation, ascending, ties in input order |
| TimelineData.SortedLocationsByPlaceDistance | src/components/LinearTimeline.tsx:201-202 | sorted by the distance map is sorted by the places' distances |
| TimelineData.SortLocations | src/components/LinearTimeline.tsx:201-202 | the in-place sort of `locationArray` |
| TimelineData.PaletteColor | src/CircularTimeline.tsx:24-45 | every assigned colour is one of the fourteen custom colours |
| TimelineData.AssignPaletteColors | src/CircularTimeline.tsx:44-46 | the `forEach` maps exactly the names, the `k`-th to palette colour `k mod 14` |
| TimelineData.NameToColorMap | src/CircularTimeline.tsx:42-46 | every place name has a colour, only place names do, and the `k`-th distinct name gets palette colour `k mod 14` |
| TimelineData.Prepare | src/CircularTimeline.tsx:48-100 | the prepared data: the events are the trajectories', sorted or in input order; the index is the place index; the locations are the distinct endpoints; only located places have a distance |
| TimelineData.PrepareRender | src/CircularTimeline.tsx:48-100 | the statements of the render compute the prepared data |
| TimelineData.DistanceDomainEnd | src/CircularTimeline.tsx:103 | the domain end is the largest distance of a located place, or 1 when there is none or it is 0; never 0 |
| TimelineData.PreparedDomainEnd | src/CircularTimeline.tsx:82-103 | from the trajectories: the domain end is the largest distance of a trimmed endpoint that is a place, or 1 when there is none or it is 0 |
| TimelineData.InIndexIffPlaceId | src/components/LinearTimeline.tsx:60-63 | an id is in the index exactly when some place has it |
| TimelineData.LocationsPlacedIff | src/CircularTimeline.tsx:174-181 | every location is a place exactly when every event's endpoints are |
| TimelineData.PreparedEventsPlacedIff | src/CircularTimeline.tsx:55-59 | the trimmed events are all placed exactly when every trimmed endpoint of the trajectories names a place |
| TimelineData.PreparedRendersIff | src/CircularTimeline.tsx:107-181 | prepared data draws exactly when there is a trajectory and every trimmed endpoint is a place or one of the names the component's lookups let through |
| TimelineData.RendersIff | src/CircularTimeline.tsx:107-181 | the same, for the preparation with or without the sort and for any set of names let through |
| TimelineData.TrimmedEndpointsListed | src/CircularTimeline.tsx:84-89 | every trimmed endpoint is a location, sorted or not |
| TimelineData.LocationsAreTrimmedEndpoints | src/CircularTimeline.tsx:84-89 | the locations are exactly the trimmed endpoints |
| LinearTimelineView.RenderLinearTimeline | src/components/LinearTimeline.tsx:24-285 | the render as run, with its in-place sort, is the view or the error the function defines |
| LinearTimelineView.DrawPrepared | src/components/LinearTimeline.tsx:201-285 | drawing throws exactly when a location is not a place, inherited names included |
| LinearTimelineView.LinearTimelineRendersIff | src/components/LinearTimeline.tsx:106-241 | the component throws on an empty list, throws on an endpoint that is not a place (inherited names included), and draws otherwise |
| LinearTimelineView.InheritedEndpointThrows | src/components/LinearTimeline.tsx:232-240 | a trajectory from a place to `toString` throws `MissingPlace` |
| LinearTimelineView.SegmentsJoinTrail | src/components/LinearTimeline.tsx:231-282 | event `i` with a successor draws a line from its own trail point to the successor's date at its own target; the last event draws none |
| LinearTimelineView.TrailInInputOrder | src/components/LinearTimeline.tsx:106-162 | one trail point per trajectory, in input order: its date and trimmed source; the time domain runs from the first trajectory's date to the last's |
| LinearTimelineView.LinearTimelineScales | src/components/LinearTimeline.tsx:64-118 | time range `[0, width - 200 - 2 xMargin]`; distance range `[0, height - 2 yMargin]`; the settings' exponent; every trimmed source and target is a place; the domain end is the largest of their distances, or 1 when that is 0 |
| LinearTimelineView.GuidesByDistance | src/components/LinearTimeline.tsx:201-209 | the guide lines list each trimmed endpoint once, and nothing else, by ascending distance |
| LinearTimelineView.LabelsInGuideOrder | src/components/LinearTimeline.tsx:171-175 | the label column lists the places of the guide lines in the guide lines' order |
| CircularTimelineView.RenderCircularTimeline | src/CircularTimeline.tsx:15-328 | the render as run is the view or the error the function defines |
| CircularTimelineView.DrawPrepared | src/CircularTimeline.tsx:174-210 | drawing throws exactly when a location is neither a place nor a member of `Object.prototype` |
| CircularTimelineView.LabelRows | src/CircularTimeline.tsx:174-210 | the `map` yields rows exactly when every sorted location is a place or a member of `Object.prototype`, and then the rows of those locations |
| CircularTimelineView.CircularTimelineRendersIff | src/CircularTimeline.tsx:107-181 | the component throws on an empty list, throws on an endpoint that is neither a place nor a member of `Object.prototype`, and draws otherwise |
| CircularTimelineView.InheritedEndpointDraws | src/CircularTimeline.tsx:47-50 | a trajectory from a place to `toString` draws |
| CircularTimelineView.RadialsAndDotsOnTrail | src/CircularTimeline.tsx:138-290 | two trail points per event, source then target at its date; a radial line between exactly those two and a dot on the target exactly when the date parsed; only the first dot is large |
| CircularTimelineView.ArcsJoinTrail | src/CircularTimeline.tsx:240-257 | no arc before the first event; event `i > 0` has one exactly when both dates parsed, from the predecessor's target to the event's source |
| CircularTimelineView.TrailChronological | src/CircularTimeline.tsx:138-141 | for dated, sorted events the trail's dates never decrease |
| CircularTimelineView.TrailInTimeDomain | src/CircularTimeline.tsx:107-141 | every trail date lies between the first and the last event's |
| CircularTimelineView.ChronologicalWhenAllDatesParse | src/CircularTimeline.tsx:55-257 | when every date parses, the trail is in time order inside the time domain, and every event has its radial line and dot, every later one its arc |
| CircularTimelineView.CircularTimelineScales | src/CircularTimeline.tsx:73-116 | radius range `[40, min(width, height)/2 - margin]`; the settings' exponent; a distance domain end that is the largest distance of an endpoint with a place, or 1 when there is none or it is 0; the angle range `[π/6 - π/2, 2π - π/6 - π/2]`, the circle but for a sixth of a turn; the time domain from the first to the last date-sorted event's date |
| CircularTimelineView.RowsOnCanvas | src/CircularTimeline.tsx:142-178 | one label row per trimmed endpoint, by ascending distance when every endpoint is a place, 40 apart, all above the outer circle and, for a margin and radius that are not negative, on the canvas that grows by 40 per location |
| LinearCurveView.BezierCurveShape | src/LinearTimeline.tsx:76-80 | the curve starts and ends at its two points, moves along x at a constant rate, and bulges up to half the 50-pixel lift at its middle |
| LinearCurveView.PairRoundTrip | src/LinearTimeline.tsx:79 | a point written as `x,y` reads back as itself |
| LinearCurveView.BezierPathRoundTrip | src/LinearTimeline.tsx:76-80 | the path data reads back as the two end points and the control point `((x1+x2)/2, (y1+y2)/2 - 50)` |
| LinearCurveView.RenderLinearCurveTimeline | src/LinearTimeline.tsx:16-176 | the render as run is the view or the error the function defines |
| LinearCurveView.DrawPrepared | src/LinearTimeline.tsx:114-137 | drawing throws exactly when a location is neither a place nor a member of `Object.prototype` |
| LinearCurveView.GuideLines | src/LinearTimeline.tsx:114-137 | the guide lines are drawn exactly when every location is a place or a member of `Object.prototype` |
| LinearCurveView.LinearCurveRendersIff | src/LinearTimeline.tsx:82-137 | the component throws on an empty list, throws on an endpoint that is neither a place nor a member of `Object.prototype`, and draws otherwise |
| LinearCurveView.CurvesJoinMarkers | src/LinearTimeline.tsx:138-173 | every event but the last curves from its marker (date, target) to the next one's, so consecutive curves meet; only the first marker is large; only the two ends are numbered, with their 1-based position |
| LinearCurveView.MarkersChronological | src/LinearTimeline.tsx:34-150 | when every date parses the markers are in time order inside the time domain |
| LinearCurveView.LinearCurveScales | src/LinearTimeline.tsx:73-94 | time range `[0, width - 2 xMargin]`; distance range `[0, height - 2 yMargin]`; the settings' exponent; a domain end that is the largest distance of an endpoint with a place, or 1 when there is none or it is 0 |
| LinearCurveView.CurveGuidesByDistance | src/LinearTimeline.tsx:59-118 | the guide lines list each trimmed endpoint once, and nothing else, by ascending distance when every endpoint is a place |
| Grouping.ByPerson | src/pages/PersonTrajectories.tsx:16-18 | the selected trajectories all belong to the person |
| Grouping.ByPersonNonEmpty | src/pages/PersonTrajectories.tsx:16-19 | a person's selection is empty exactly when no trajectory names them |
| Grouping.FirstInherited | src/App.tsx:19-25 | the first trajectory whose id names an inherited member, or none when no id does |
| Grouping.CollectedByPerson | src/App.tsx:19-25 | the object built holds one property per distinct person, in order of first appearance, each holding exactly that person's trajectories in input order |
| Grouping.GroupByPerson | src/App.tsx:19-25 | the `reduce` as run computes the grouping or its error |
| Grouping.GroupFailsIff | src/App.tsx:20-23 | the grouping fails exactly when some id names an inherited member, at the first such trajectory |
| Grouping.ConstructorIdCrashes | src/App.tsx:20-23 | a person with id `constructor` crashes the grouping, where a dictionary would give them a group of one |
| Grouping.GroupSizesSum | src/components/Trajectories.tsx:13-19 | the group sizes add up to the number of trajectories |
| Grouping.GroupsPartition | src/components/Trajectories.tsx:13-19 | a successful grouping partitions the trajectories: one non-empty group per distinct person, holding exactly that person's trajectories in input order, sizes adding up |
| Grouping.ObjectKeys | src/App.tsx:34 | `Object.keys` lists exactly the created properties |
| Grouping.ObjectKeysOrder | src/App.tsx:34 | each property once, array indices first in ascending numeric order, then the others in creation order |
| PersonPage.FindIndex | src/pages/PersonTrajectories.tsx:33 | `find` gives the first settings row of the person, or none when no row is theirs |
| PersonPage.DumpIffNotArray | src/pages/PersonTrajectories.tsx:15-38 | the page only dumps the data exactly when the trajectories are not an array, and then draws no timeline |
| PersonPage.TimelineIffPersonKnown | src/pages/PersonTrajectories.tsx:15-34 | the page draws a timeline exactly when some trajectory names the person, from exactly their trajectories in input order with their first settings row; otherwise it says there is no data |
| PersonPage.PageTimelineRenders | src/pages/PersonTrajectories.tsx:28-34 | the page's timeline never meets an empty list, draws exactly when the person's endpoints are places or members of `Object.prototype`, and takes the person's exponent |
| App.LinkRoundTrip | src/App.tsx:36-67 | a link `/trajectory/<kind>/<id>` matches its own route with its id, for an id that fills one path segment |
| App.RouteKindIgnored | src/App.tsx:50-67 | the two routes of a person show the same page |
| App.SidebarOutcome | src/App.tsx:16-26 | without an array the sidebar is empty; with one it fails exactly when some id names an inherited member |
| App.EntriesOfKeys | src/App.tsx:34-44 | the entries follow `Object.keys` of the grouping, each with its group's size and its two links |
| App.SidebarListsEachPerson | src/App.tsx:34-44 | the sidebar lists every person once and nobody else, with the number of their trajectories, never 0 |
| App.SidebarLinksRoundTrip | src/App.tsx:36-67 | both links of every entry lead back to that person's routes |
| TrajectoriesView.TimelinesOfKeys | src/components/Trajectories.tsx:26-32 | one circular timeline per key of the grouping, with the default size, all places and no settings |
| TrajectoriesView.TrajectoriesOutcome | src/components/Trajectories.tsx:11-36 | the data is dumped exactly when it is not an array, and the component crashes exactly when the grouping throws |
| TrajectoriesView.OneTimelinePerPerson | src/components/Trajectories.tsx:13-32 | one timeline per distinct person and no other |
| TrajectoriesView.TimelineOfEachPerson | src/components/Trajectories.tsx:26-32 | each timeline draws all and only its person's trajectories, so it never meets an empty list and draws exactly when its endpoints are places or members of `Object.prototype` |

## Left out

- Arithmetic is exact real arithmetic. JavaScript numbers are IEEE-754 doubles, and their rounding is not modelled. Equalities such as the minimum label gap, the flat wave staying on its line and the path reaching exactly the target distance are proved for reals.
- A place whose id is `__proto__` becomes the prototype of the place index, so ids such as `name` or `distance` then also resolve without throwing. The model's index does not capture this.
- Trigonometry and square roots in the wave generators are a `MathLib` record of function values. Lemmas that need geometry assume the direction laws only at the points used (`UnitDirection`). No numeric value of `sin`, `cos`, `atan2` or `sqrt` is proved.
- WavePath.GenerateDirectedWaveToTargetPath: `numPoints` is an integer. The loop's behaviour for a fractional `numPoints` is not modelled.
- WavePath.GenerateDirectedWaveBeamPath: `numPoints` is an integer, as above.
- Number-to-text formatting in `pointsToSvgPath` and `createBezierPath` is a parameter `fmt`. The round trips assume a matching `parse`.
- d3 and luxon are not modelled:
  - the scales are kept as their parameters;
  - `d3.timeParse` is the `parseDate` parameter;
  - `parseFloat` is the `parseNumber` parameter, and a `Place` holds its distance already parsed;
  - `NaN` is not modelled: the pixel position of an inherited name's `NaN` distance is not given;
  - `toLocaleString` is not modelled; only the requested label fields are.
- The Catmull-Rom trail line, the `d3.arc` geometry, the year ticks, the axes drawn in `useEffect`, and the date-label leader lines with their `sin(i) * 100` offsets are not modelled. The model gives the anchors these are drawn from, not the pixels.
- The vertical line per event in `src/LinearTimeline.tsx` is not modelled.
- Colours are not tracked per drawn element: which stroke uses `nameToColorMap`, `colorScale` or `getColorByPlace`. The maps themselves are modelled.
- Sorting.SortWith: `Array.prototype.sort` is modelled as a stable insertion sort; any stable sort gives the same order when the comparator is consistent. Order and stability are proved only for comparators that are key differences. With an inconsistent comparator, the engine's order may differ from the model's. Examples: undated events mixed with dated ones, or locations without a distance.
- The markup is not modelled: JSX, CSS classes, `console` output, `downloadAsSVG` (Blob and DOM), and the connector geometry of the label list in `src/components/LinearTimelinePlaces.tsx`.
- App.LinkRoundTrip: routes are matched on plain paths, with no percent-decoding, query or fragment. The round trip holds for ids that are non-empty and have no `/`.
- PersonPage.FindIndex: settings are always a list. A `settings` value that is not an array is not modelled.
- Legends are passed to the page but never read, so they are left out.
- The JSON dumps are the `Dump` and `DataDump` outcomes. Their text is not modelled.
- CSV loading (`src/CsvLoader.tsx`), bootstrapping (`src/main.tsx`) and `src/components/HeaderTimeline.tsx` are not part of this model.

## Findings

| source | as written | input that shows it | evidently intended | confidence | as-written member | corrected member |
|---|---|---|---|---|---|---|
| src/constants.ts:44-53 | `ColorByPlaceType[place.type.trim()]` reads a property of an object literal, so it also finds the members every object inherits | a place whose type is `constructor` (or `toString`, `valueOf`, ...) gets a function, not a colour | black for every type the table does not list | not executed | PlaceColors.ConstructorTypeIsNotAColor | PlaceColors.GetColorByPlace |
| src/App.tsx:19-25 | `acc[d.personId]` on an object literal finds inherited members, so no array is created and `push` is called on a function (also in src/components/Trajectories.tsx:13-19) | one trajectory whose `personId` is `constructor` | one group per person whatever the id | not executed | Grouping.ConstructorIdCrashes | Grouping.CollectedByPerson |
