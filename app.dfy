// src/App.tsx: the sidebar lists each person of the grouping, in the order
// `Object.keys` gives, with the size of their group and a link to each of the
// two routes; the two routes show the same person page, whatever their kind.
// The router's matching is modelled on plain paths: no query, no fragment and
// no percent-decoding.

module App {
  import opened Common
  import opened Records
  import opened Text
  import opened Sequences
  import opened Grouping
  import PersonPage
  import PlaceColors

  datatype RouteKind = Linear | Circular

  function KindSegment(kind: RouteKind): string {
    match kind
    case Linear => "linear"
    case Circular => "circular"
  }

  /** The link target `/trajectory/<kind>/<personId>`. */
  function LinkTo(kind: RouteKind, personId: string): string {
    "/trajectory/" + KindSegment(kind) + "/" + personId
  }

  /** A matched route: `trajectory/linear/:personId` or `trajectory/circular/:personId`. */
  datatype Route = Route(kind: RouteKind, personId: string)

  /** Matches a path against the two routes; a parameter must be a non-empty segment. */
  function MatchRoute(path: string): Option<Route> {
    var segments := Split(path, '/');
    if |segments| != 4 || segments[0] != "" || segments[1] != "trajectory" || segments[3] == "" then None
    else if segments[2] == "linear" then Some(Route(Linear, segments[3]))
    else if segments[2] == "circular" then Some(Route(Circular, segments[3]))
    else None
  }

  lemma SplitPath(a: string, b: string, c: string)
    requires '/' !in a && '/' !in b && '/' !in c
    ensures Split("/" + a + "/" + b + "/" + c, '/') == ["", a, b, c]
  {
    assert "/" + a + "/" + b + "/" + c == "" + ['/'] + (a + ['/'] + (b + ['/'] + c));
    SplitWithoutSeparator(c, '/');
    SplitAfterFirstPart(b, '/', c);
    SplitAfterFirstPart(a, '/', b + ['/'] + c);
    SplitAfterFirstPart("", '/', a + ['/'] + (b + ['/'] + c));
  }

  /** Both links of a person lead back to their route, for an id that fills one path segment. */
  lemma {:induction false} LinkRoundTrip(kind: RouteKind, personId: string)
    requires personId != [] && '/' !in personId
    ensures MatchRoute(LinkTo(kind, personId)) == Some(Route(kind, personId))
  {
    var k := KindSegment(kind);
    assert LinkTo(kind, personId) == "/" + "trajectory" + "/" + k + "/" + personId;
    SplitPath("trajectory", k, personId);
  }

  /** The element a route renders: the person page, given the same data on both routes. */
  function RoutedPage(route: Route, trajectories: Option<seq<Trajectory>>, settings: seq<Settings>): PersonPage.Page {
    PersonPage.PersonPage(trajectories, settings, route.personId)
  }

  /** The two routes of a person show the same page: the route's kind is passed on but never read. */
  lemma RouteKindIgnored(personId: string, trajectories: Option<seq<Trajectory>>, settings: seq<Settings>)
    ensures RoutedPage(Route(Linear, personId), trajectories, settings)
         == RoutedPage(Route(Circular, personId), trajectories, settings)
  {
  }

  /** A sidebar entry: the person, the size of their group, and the two links. */
  datatype Entry = Entry(personId: string, count: nat, linearLink: string, circularLink: string)

  function Entries(g: Grouped): seq<Entry>
    requires forall k :: k in g.keys ==> k in g.members
  {
    var ids := ObjectKeys(g.keys);
    seq(|ids|, i requires 0 <= i < |ids| =>
      assert ids[i] in multiset(g.keys);
      Entry(ids[i], |g.members[ids[i]]|, LinkTo(Linear, ids[i]), LinkTo(Circular, ids[i])))
  }

  /**
   * The sidebar: nothing when the trajectories are not an array, the error
   * the grouping throws, or one entry per key of the grouped object.
   */
  function Sidebar(trajectories: Option<seq<Trajectory>>): Result<seq<Entry>, GroupError> {
    match trajectories
    case None => Ok([])
    case Some(t) =>
      match Group(t)
      case Err(e) => Err(e)
      case Ok(g) =>
        CollectedByPerson(t);
        Ok(Entries(g))
  }

  /**
   * Without an array of trajectories the sidebar is empty; with one, it
   * fails exactly when some `personId` names an inherited member.
   */
  lemma SidebarOutcome(trajectories: Option<seq<Trajectory>>)
    ensures trajectories.None? ==> Sidebar(trajectories) == Ok([])
    ensures trajectories.Some? ==>
              (Sidebar(trajectories).Err? <==>
               exists i :: 0 <= i < |trajectories.value| && trajectories.value[i].personId in PlaceColors.ObjectPrototypeMembers)
  {
    if trajectories.Some? {
      GroupFailsIff(trajectories.value);
    }
  }

  /** The person ids of the sidebar entries, top to bottom. */
  function EntryIds(entries: seq<Entry>): seq<string> {
    seq(|entries|, i requires 0 <= i < |entries| => entries[i].personId)
  }

  /** The entries follow the keys of the grouped object, each with its group's size and its two links. */
  lemma {:induction false} EntriesOfKeys(g: Grouped, entries: seq<Entry>)
    requires forall k :: k in g.keys ==> k in g.members
    requires entries == Entries(g)
    ensures EntryIds(entries) == ObjectKeys(g.keys)
    ensures forall i :: 0 <= i < |entries| ==>
              && entries[i].personId in g.keys
              && entries[i].personId in g.members
              && entries[i].count == |g.members[entries[i].personId]|
              && entries[i].linearLink == LinkTo(Linear, entries[i].personId)
              && entries[i].circularLink == LinkTo(Circular, entries[i].personId)
  {
    var ids := ObjectKeys(g.keys);
    forall i | 0 <= i < |ids| ensures ids[i] in g.keys {
      assert ids[i] in multiset(g.keys);
    }
  }

  /**
   * The sidebar lists every person once and nobody else, with the number of
   * their trajectories, which is never 0.
   */
  lemma SidebarListsEachPerson(t: seq<Trajectory>, entries: seq<Entry>)
    requires Sidebar(Some(t)) == Ok(entries)
    ensures NoDuplicates(EntryIds(entries))
    ensures forall id :: id in EntryIds(entries) <==> id in PersonIds(t)
    ensures forall i :: 0 <= i < |entries| ==> entries[i].count == |ByPerson(t, entries[i].personId)| > 0
  {
    var g := Group(t).value;
    GroupsPartition(t, g);
    assert entries == Entries(g);
    EntriesOfKeys(g, entries);
    ObjectKeysOrder(g.keys);
    var ids := ObjectKeys(g.keys);
    forall id ensures id in ids <==> id in PersonIds(t) {
      assert id in ids <==> id in multiset(g.keys);
    }
    forall i | 0 <= i < |entries| ensures entries[i].personId in g.keys {
      assert entries[i].personId == ids[i];
      assert ids[i] in multiset(g.keys);
    }
  }

  /** Both links of every entry lead back to that person's routes, for an id that fills one path segment. */
  lemma SidebarLinksRoundTrip(t: seq<Trajectory>, entries: seq<Entry>, i: int)
    requires Sidebar(Some(t)) == Ok(entries)
    requires 0 <= i < |entries| && entries[i].personId != [] && '/' !in entries[i].personId
    ensures MatchRoute(entries[i].linearLink) == Some(Route(Linear, entries[i].personId))
    ensures MatchRoute(entries[i].circularLink) == Some(Route(Circular, entries[i].personId))
  {
    var g := Group(t).value;
    CollectedByPerson(t);
    EntriesOfKeys(g, entries);
    LinkRoundTrip(Linear, entries[i].personId);
    LinkRoundTrip(Circular, entries[i].personId);
  }
}
