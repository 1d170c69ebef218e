// src/components/Trajectories.tsx: the trajectories are grouped by person and
// each group is drawn as its own circular timeline, in the order
// `Object.keys` gives; when the trajectories are not an array the data is
// dumped as text instead.

module TrajectoriesView {
  import opened Common
  import opened Records
  import opened Sequences
  import opened TimelineData
  import opened Grouping
  import CircularTimelineView
  import PlaceColors

  /** What the component shows. */
  datatype Output =
    | Dump                                    // the `<pre>` JSON dump of the data
    | Crash(error: GroupError)                // the grouping threw
    | Timelines(personIds: seq<string>,
                renders: seq<Result<CircularTimelineView.View, RenderError>>)

  /** One circular timeline per key of the grouped object, with default size and no settings. */
  function Timelines(g: Grouped, places: seq<Place>, parseDate: string -> Option<int>, parseNumber: string -> real): Output
    requires forall k :: k in g.keys ==> k in g.members
  {
    var ids := ObjectKeys(g.keys);
    KeysHaveMembers(g);
    Output.Timelines(ids, seq(|ids|, i requires 0 <= i < |ids| =>
      CircularTimelineView.CircularTimeline(g.members[ids[i]], places, None, CircularTimelineView.DefaultFrame,
                                            parseDate, parseNumber)))
  }

  /** Every key `Object.keys` lists for the grouped object holds a group. */
  lemma KeysHaveMembers(g: Grouped)
    requires forall k :: k in g.keys ==> k in g.members
    ensures forall i :: 0 <= i < |ObjectKeys(g.keys)| ==> ObjectKeys(g.keys)[i] in g.members
  {
    var ids := ObjectKeys(g.keys);
    forall i | 0 <= i < |ids| ensures ids[i] in g.members {
      assert ids[i] in multiset(ids);
    }
  }

  function Trajectories(trajectories: Option<seq<Trajectory>>, places: seq<Place>,
                        parseDate: string -> Option<int>, parseNumber: string -> real): Output
  {
    match trajectories
    case None => Dump
    case Some(t) =>
      match Group(t)
      case Err(e) => Crash(e)
      case Ok(g) =>
        CollectedByPerson(t);
        Timelines(g, places, parseDate, parseNumber)
  }

  /** Which person each timeline shows, and that each draws exactly that person's group. */
  lemma TimelinesOfKeys(g: Grouped, places: seq<Place>, parseDate: string -> Option<int>, parseNumber: string -> real)
    requires forall k :: k in g.keys ==> k in g.members
    ensures var o := Timelines(g, places, parseDate, parseNumber);
            && o.personIds == ObjectKeys(g.keys)
            && |o.renders| == |o.personIds|
            && forall i :: 0 <= i < |o.renders| ==>
                 && o.personIds[i] in g.keys
                 && o.personIds[i] in g.members
                 && o.renders[i] == CircularTimelineView.CircularTimeline(g.members[o.personIds[i]], places, None,
                                      CircularTimelineView.DefaultFrame, parseDate, parseNumber)
  {
    var ids := ObjectKeys(g.keys);
    forall i | 0 <= i < |ids| ensures ids[i] in g.keys {
      assert ids[i] in multiset(g.keys);
    }
  }

  /** The component dumps the data exactly when the trajectories are not an array, and crashes exactly when the grouping throws. */
  lemma TrajectoriesOutcome(trajectories: Option<seq<Trajectory>>, places: seq<Place>,
                            parseDate: string -> Option<int>, parseNumber: string -> real)
    ensures var o := Trajectories(trajectories, places, parseDate, parseNumber);
            && (o == Dump <==> trajectories.None?)
            && (o.Crash? <==> trajectories.Some? && FirstInherited(trajectories.value).Some?)
            && (o.Crash? ==> o.error.index < |trajectories.value|
                             && o.error.personId == trajectories.value[o.error.index].personId
                             && o.error.personId in PlaceColors.ObjectPrototypeMembers)
  {
  }

  /** One timeline per distinct person and no other. */
  lemma OneTimelinePerPerson(t: seq<Trajectory>, places: seq<Place>,
                             parseDate: string -> Option<int>, parseNumber: string -> real,
                             ids: seq<string>, renders: seq<Result<CircularTimelineView.View, RenderError>>)
    requires Trajectories(Some(t), places, parseDate, parseNumber) == Output.Timelines(ids, renders)
    ensures NoDuplicates(ids)
    ensures forall id :: id in ids <==> id in PersonIds(t)
    ensures |renders| == |ids|
  {
    var g := Group(t).value;
    GroupsPartition(t, g);
    TimelinesOfKeys(g, places, parseDate, parseNumber);
    assert ids == ObjectKeys(g.keys);
    ObjectKeysOrder(g.keys);
    forall id ensures id in ids <==> id in PersonIds(t) {
      assert id in ids <==> id in multiset(g.keys);
    }
  }

  /**
   * Each timeline is drawn from all and only its person's trajectories; so
   * none of them lacks trajectories, and each one draws exactly when its
   * endpoints are all known places or members of `Object.prototype`.
   */
  lemma TimelineOfEachPerson(t: seq<Trajectory>, places: seq<Place>,
                             parseDate: string -> Option<int>, parseNumber: string -> real,
                             ids: seq<string>, renders: seq<Result<CircularTimelineView.View, RenderError>>, i: int)
    requires Trajectories(Some(t), places, parseDate, parseNumber) == Output.Timelines(ids, renders)
    requires 0 <= i < |renders|
    ensures i < |ids|
    ensures renders[i] == CircularTimelineView.CircularTimeline(ByPerson(t, ids[i]), places, None,
                            CircularTimelineView.DefaultFrame, parseDate, parseNumber)
    ensures renders[i] != Err(NoTrajectories)
    ensures renders[i].Ok? <==> EndpointsPlaced(ByPerson(t, ids[i]), places, PlaceColors.ObjectPrototypeMembers)
  {
    var g := Group(t).value;
    GroupsPartition(t, g);
    TimelinesOfKeys(g, places, parseDate, parseNumber);
    assert ids[i] in g.keys;
    CircularTimelineView.CircularTimelineRendersIff(ByPerson(t, ids[i]), places, None,
      CircularTimelineView.DefaultFrame, parseDate, parseNumber);
  }
}
