// src/pages/PersonTrajectories.tsx: the page of one person, which the routes
// `trajectory/linear/:personId` and `trajectory/circular/:personId` both
// show. It keeps that person's trajectories and draws them with the timeline
// of src/LinearTimeline.tsx, using the first settings row for the person; with
// no trajectory for the person it says so, and when the data is not an array
// it dumps it.

module PersonPage {
  import opened Common
  import opened Records
  import opened TimelineData
  import opened Grouping
  import LinearCurveView
  import PlaceColors

  /** The index of the first settings row for `personId`: `Array.prototype.find`. */
  function FindIndex(settings: seq<Settings>, personId: string): (r: Option<nat>)
    ensures r.None? <==> forall i :: 0 <= i < |settings| ==> settings[i].personId != personId
    ensures r.Some? ==> && r.value < |settings|
                        && settings[r.value].personId == personId
                        && forall j :: 0 <= j < r.value ==> settings[j].personId != personId
  {
    if settings == [] then None
    else if settings[0].personId == personId then Some(0)
    else
      match FindIndex(settings[1..], personId)
      case None => None
      case Some(i) => Some(i + 1)
  }

  /** `settings.find(s => s.personId === personId)`. */
  function FindSettings(settings: seq<Settings>, personId: string): Option<Settings> {
    match FindIndex(settings, personId)
    case None => None
    case Some(i) => Some(settings[i])
  }

  /** What the page shows: the data as text, the no-data notice, or the timeline with its props. */
  datatype Page =
    | DataDump
    | NoData(personId: string)
    | Timeline(trajectories: seq<Trajectory>, settings: Option<Settings>)

  /** The page; `None` stands for trajectories that are not an array. */
  function PersonPage(trajectories: Option<seq<Trajectory>>, settings: seq<Settings>, personId: string): Page {
    match trajectories
    case None => DataDump
    case Some(t) =>
      var mine := ByPerson(t, personId);
      if mine == [] then NoData(personId) else Timeline(mine, FindSettings(settings, personId))
  }

  /** What the timeline on the page renders, when there is one. */
  function Render(page: Page, places: seq<Place>, parseDate: string -> Option<int>, parseNumber: string -> real)
    : Option<Result<LinearCurveView.View, RenderError>>
  {
    match page
    case Timeline(mine, s) =>
      Some(LinearCurveView.LinearCurveTimeline(mine, places, s, LinearCurveView.DefaultFrame, parseDate, parseNumber))
    case _ => None
  }

  /** The page only dumps the data, and draws no timeline, exactly when the trajectories are not an array. */
  lemma DumpIffNotArray(trajectories: Option<seq<Trajectory>>, settings: seq<Settings>, personId: string,
                        places: seq<Place>, parseDate: string -> Option<int>, parseNumber: string -> real)
    ensures PersonPage(trajectories, settings, personId).DataDump? <==> trajectories.None?
    ensures trajectories.None? ==> Render(PersonPage(trajectories, settings, personId), places, parseDate, parseNumber).None?
  {
  }

  /**
   * With an array of trajectories the page draws a timeline exactly when
   * some trajectory names the person, and then draws exactly that person's
   * trajectories, in input order, with the person's first settings row.
   */
  lemma TimelineIffPersonKnown(t: seq<Trajectory>, settings: seq<Settings>, personId: string)
    ensures var page := PersonPage(Some(t), settings, personId);
            && (page.Timeline? <==> personId in PersonIds(t))
            && (page.NoData? <==> personId !in PersonIds(t))
            && (page.Timeline? ==> && page.trajectories == ByPerson(t, personId)
                                   && page.trajectories != []
                                   && (forall i :: 0 <= i < |page.trajectories| ==> page.trajectories[i].personId == personId)
                                   && page.settings == FindSettings(settings, personId))
  {
    ByPersonNonEmpty(t, personId);
  }

  /**
   * The timeline on the page never meets an empty list; it draws exactly when
   * every trimmed endpoint of the person's trajectories is a place or a member
   * of `Object.prototype`, and its
   * distance scale takes the exponent of the person's settings.
   */
  lemma PageTimelineRenders(t: seq<Trajectory>, places: seq<Place>, settings: seq<Settings>, personId: string,
                            parseDate: string -> Option<int>, parseNumber: string -> real,
                            r: Result<LinearCurveView.View, RenderError>)
    requires PersonPage(Some(t), settings, personId).Timeline?
    requires Render(PersonPage(Some(t), settings, personId), places, parseDate, parseNumber) == Some(r)
    ensures && r != Err(NoTrajectories)
            && (r.Ok? <==> EndpointsPlaced(ByPerson(t, personId), places, PlaceColors.ObjectPrototypeMembers))
            && (r.Ok? ==> r.value.distanceScale.exponent == Exponent(FindSettings(settings, personId), parseNumber))
  {
    var mine := ByPerson(t, personId);
    var s := FindSettings(settings, personId);
    var frame := LinearCurveView.DefaultFrame;
    assert r == LinearCurveView.LinearCurveTimeline(mine, places, s, frame, parseDate, parseNumber);
    LinearCurveView.LinearCurveRendersIff(mine, places, s, frame, parseDate, parseNumber);
    if r.Ok? {
      LinearCurveView.LinearCurveScales(mine, places, s, frame, parseDate, parseNumber, r.value);
    }
  }
}
