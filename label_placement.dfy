// The label placement of src/components/LinearTimelinePlaces.tsx: the places
// are sorted in place by distance, then one sweep pushes each label down just
// enough to keep `minLabelHeight` between consecutive labels. `yScaleFn` is the
// caller's scale and stays abstract.

module LabelPlacement {
  import opened Records
  import opened Sorting

  /** A place with its natural (`yOriginal`) and displayed (`y`) label position. */
  datatype OffsettedPosition = OffsettedPosition(item: Place, x: real, y: real, xOriginal: real, yOriginal: real)

  /** The sort comparator `parseFloat(a.distance) - parseFloat(b.distance)`. */
  function ByDistance(a: Place, b: Place): real {
    a.distance - b.distance
  }

  function DistanceOf(p: Place): real {
    p.distance
  }

  /** The positions the sweep emits for `places`, taken in the given order. */
  function Layout(places: seq<Place>, yScale: real -> real, minLabelHeight: real): (r: seq<OffsettedPosition>)
    ensures |r| == |places|
  {
    if places == [] then []
    else
      var before := Layout(places[..|places| - 1], yScale, minLabelHeight);
      var place := places[|places| - 1];
      var yOriginal := yScale(place.distance);
      var y :=
        if |before| > 0 && yOriginal < before[|before| - 1].y + minLabelHeight
        then before[|before| - 1].y + minLabelHeight
        else yOriginal;
      before + [OffsettedPosition(place, 0.0, y, 0.0, yOriginal)]
  }

  function Max(a: real, b: real): real {
    if a >= b then a else b
  }

  /**
   * What the sweep promises: one entry per place, in order, with `x` and
   * `xOriginal` 0 and `yOriginal` the scaled distance; the first label stays
   * where it is; every later one is at `max(yOriginal, previous y + minLabelHeight)`,
   * so consecutive labels are at least `minLabelHeight` apart and no label
   * moves up (the leader offset `yOriginal - y` is never positive).
   */
  lemma {:induction false} LayoutProperties(places: seq<Place>, yScale: real -> real, minLabelHeight: real, i: int)
    requires 0 <= i < |places|
    ensures var r := Layout(places, yScale, minLabelHeight);
            && r[i].item == places[i] && r[i].x == 0.0 && r[i].xOriginal == 0.0
            && r[i].yOriginal == yScale(places[i].distance)
            && (i == 0 ==> r[i].y == r[i].yOriginal)
            && (i > 0 ==> r[i].y == Max(r[i].yOriginal, r[i - 1].y + minLabelHeight))
            && (i > 0 ==> r[i].y >= r[i - 1].y + minLabelHeight)
            && r[i].yOriginal - r[i].y <= 0.0
  {
    if i < |places| - 1 {
      var prefix := places[..|places| - 1];
      LayoutProperties(prefix, yScale, minLabelHeight, i);
      if i > 0 {
        LayoutProperties(prefix, yScale, minLabelHeight, i - 1);
      }
    }
  }

  /**
   * A label that collides with its predecessor is pushed down by exactly the
   * shortfall: three places whose second and third natural positions are
   * closer than `minLabelHeight`, while the first two are not.
   */
  lemma ThirdLabelPushedByShortfall(places: seq<Place>, yScale: real -> real, minLabelHeight: real)
    requires |places| == 3
    requires yScale(places[1].distance) >= yScale(places[0].distance) + minLabelHeight
    requires yScale(places[1].distance) <= yScale(places[2].distance) < yScale(places[1].distance) + minLabelHeight
    ensures var r := Layout(places, yScale, minLabelHeight);
            && r[1].y == r[1].yOriginal
            && r[2].y - r[2].yOriginal == r[1].y + minLabelHeight - r[2].yOriginal
            && r[2].y - r[1].y == minLabelHeight
  {
    LayoutProperties(places, yScale, minLabelHeight, 0);
    LayoutProperties(places, yScale, minLabelHeight, 1);
    LayoutProperties(places, yScale, minLabelHeight, 2);
  }

  /** The sweep: `yPrevious` always holds the last emitted `y`. */
  method PlaceLabels(sorted: seq<Place>, yScale: real -> real, minLabelHeight: real)
    returns (offsettedPositions: seq<OffsettedPosition>)
    ensures offsettedPositions == Layout(sorted, yScale, minLabelHeight)
  {
    offsettedPositions := [];
    var yPrevious := 0.0;
    for i := 0 to |sorted|
      invariant offsettedPositions == Layout(sorted[..i], yScale, minLabelHeight)
      invariant i > 0 ==> yPrevious == offsettedPositions[i - 1].y
    {
      assert sorted[..i + 1][..i] == sorted[..i];
      var place := sorted[i];
      var yOriginal := yScale(place.distance);
      var y := yOriginal;
      if i > 0 && yOriginal < yPrevious + minLabelHeight {
        y := yPrevious + minLabelHeight;
        yPrevious := y;
      } else {
        yPrevious := yOriginal;
      }
      offsettedPositions := offsettedPositions + [OffsettedPosition(place, 0.0, y, 0.0, yOriginal)];
    }
    assert sorted[..|sorted|] == sorted;
  }

  /** The component's computation: sort `places` in place by distance, then sweep. */
  method LinearTimelinePlaces(places: array<Place>, yScale: real -> real, minLabelHeight: real)
    returns (offsettedPositions: seq<OffsettedPosition>)
    modifies places
    ensures places[..] == SortWith(old(places[..]), ByDistance)
    ensures offsettedPositions == Layout(places[..], yScale, minLabelHeight)
  {
    SortInPlace(places, ByDistance);
    offsettedPositions := PlaceLabels(places[..], yScale, minLabelHeight);
  }

  /** The sweep visits the places by ascending distance, equal distances in input order. */
  lemma SweepOrder(places: seq<Place>, k: real)
    ensures SortedByKey(SortWith(places, ByDistance), DistanceOf)
    ensures WithKey(SortWith(places, ByDistance), DistanceOf, k) == WithKey(places, DistanceOf, k)
  {
    SortWithSorted(places, ByDistance, DistanceOf);
    SortWithStable(places, ByDistance, DistanceOf, k);
  }
}
