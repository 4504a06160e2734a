/**
 * A cluster marker: a group of shelters drawn as one pin at the mean of
 * their positions, with a fallback position for an empty group.
 */
module HierarchicalAnnotations {
  import opened Wrappers
  import opened Shelters
  import opened ClusteringLevels

  /** The designated initialiser stores each argument as given; the title
      passed in is never absent, so it is stored as `Some`. */
  datatype HierarchicalAnnotation = HierarchicalAnnotation(
    coordinate: Coordinate,
    title: Option<string>,
    subtitle: Option<string>,
    level: ClusteringLevel,
    count: int,
    identifier: string,
    shelters: seq<Shelter>)

  /** Position used for a group with no shelters (Tokyo). */
  const FallbackCenter := Coordinate(35.6895, 139.6917)

  /** Sum of the latitudes, folded from the left. */
  function SumLatitudes(shelters: seq<Shelter>): real {
    if shelters == [] then 0.0
    else SumLatitudes(shelters[..|shelters| - 1]) + shelters[|shelters| - 1].latitude
  }

  /** Sum of the longitudes, folded from the left. */
  function SumLongitudes(shelters: seq<Shelter>): real {
    if shelters == [] then 0.0
    else SumLongitudes(shelters[..|shelters| - 1]) + shelters[|shelters| - 1].longitude
  }

  /** `calculateCenterCoordinate`: the fallback for no shelters, otherwise
      the arithmetic mean of the latitudes and of the longitudes. */
  function CenterCoordinate(shelters: seq<Shelter>): (c: Coordinate)
    ensures shelters == [] ==> c == FallbackCenter
    ensures shelters != [] ==>
      c.latitude * |shelters| as real == SumLatitudes(shelters) &&
      c.longitude * |shelters| as real == SumLongitudes(shelters)
  {
    if shelters == [] then FallbackCenter
    else
      var n := |shelters| as real;
      Coordinate(SumLatitudes(shelters) / n, SumLongitudes(shelters) / n)
  }

  /** The convenience initialiser: the position is the centre of the
      shelters and the count is their number. */
  function FromShelters(title: string, subtitle: Option<string>, level: ClusteringLevel,
                        identifier: string, shelters: seq<Shelter>): (a: HierarchicalAnnotation)
    ensures a.coordinate == CenterCoordinate(shelters)
    ensures a.count == |shelters| && a.shelters == shelters
    ensures a.title == Some(title) && a.subtitle == subtitle
    ensures a.level == level && a.identifier == identifier
  {
    HierarchicalAnnotation(CenterCoordinate(shelters), Some(title), subtitle, level,
                           |shelters|, identifier, shelters)
  }

  /** A group of one is drawn at that shelter's own position. */
  lemma CenterOfOne(s: Shelter)
    ensures CenterCoordinate([s]) == Position(s)
  {
    assert [s][..0] == [];
    assert SumLatitudes([s]) == s.latitude;
    assert SumLongitudes([s]) == s.longitude;
  }

  /** If every latitude lies in [lo, hi], the sum of n of them lies in
      [n * lo, n * hi]. */
  lemma {:induction false} SumLatitudesBounded(shelters: seq<Shelter>, lo: real, hi: real)
    requires forall i :: 0 <= i < |shelters| ==> lo <= shelters[i].latitude <= hi
    ensures |shelters| as real * lo <= SumLatitudes(shelters) <= |shelters| as real * hi
  {
    if shelters != [] {
      var init := shelters[..|shelters| - 1];
      assert forall i :: 0 <= i < |init| ==> init[i] == shelters[i];
      SumLatitudesBounded(init, lo, hi);
      StepBound(|init|, lo, hi, SumLatitudes(init), shelters[|shelters| - 1].latitude);
    }
  }

  /** If every longitude lies in [lo, hi], the sum of n of them lies in
      [n * lo, n * hi]. */
  lemma {:induction false} SumLongitudesBounded(shelters: seq<Shelter>, lo: real, hi: real)
    requires forall i :: 0 <= i < |shelters| ==> lo <= shelters[i].longitude <= hi
    ensures |shelters| as real * lo <= SumLongitudes(shelters) <= |shelters| as real * hi
  {
    if shelters != [] {
      var init := shelters[..|shelters| - 1];
      assert forall i :: 0 <= i < |init| ==> init[i] == shelters[i];
      SumLongitudesBounded(init, lo, hi);
      StepBound(|init|, lo, hi, SumLongitudes(init), shelters[|shelters| - 1].longitude);
    }
  }

  /** Adding one value in [lo, hi] to a sum of n such values. */
  lemma StepBound(n: nat, lo: real, hi: real, sum: real, x: real)
    requires n as real * lo <= sum <= n as real * hi
    requires lo <= x <= hi
    ensures (n + 1) as real * lo <= sum + x <= (n + 1) as real * hi
  {
    assert (n + 1) as real * lo == n as real * lo + lo;
    assert (n + 1) as real * hi == n as real * hi + hi;
  }

  /** The centre of a non-empty group lies within any box that holds all
      of its members, in particular between their least and greatest
      latitude and longitude. */
  lemma {:induction false} CenterWithinBounds(shelters: seq<Shelter>, lo: Coordinate, hi: Coordinate)
    requires shelters != []
    requires forall i :: 0 <= i < |shelters| ==>
      lo.latitude <= shelters[i].latitude <= hi.latitude &&
      lo.longitude <= shelters[i].longitude <= hi.longitude
    ensures var c := CenterCoordinate(shelters);
      lo.latitude <= c.latitude <= hi.latitude && lo.longitude <= c.longitude <= hi.longitude
  {
    CenterLatitudeWithin(shelters, lo.latitude, hi.latitude);
    CenterLongitudeWithin(shelters, lo.longitude, hi.longitude);
  }

  /** The latitude half of the bound above. */
  lemma {:induction false} CenterLatitudeWithin(shelters: seq<Shelter>, lo: real, hi: real)
    requires shelters != []
    requires forall i :: 0 <= i < |shelters| ==> lo <= shelters[i].latitude <= hi
    ensures lo <= CenterCoordinate(shelters).latitude <= hi
  {
    SumLatitudesBounded(shelters, lo, hi);
    ScaleBack(CenterCoordinate(shelters).latitude, |shelters| as real, lo, hi);
  }

  /** The longitude half of the bound above. */
  lemma {:induction false} CenterLongitudeWithin(shelters: seq<Shelter>, lo: real, hi: real)
    requires shelters != []
    requires forall i :: 0 <= i < |shelters| ==> lo <= shelters[i].longitude <= hi
    ensures lo <= CenterCoordinate(shelters).longitude <= hi
  {
    SumLongitudesBounded(shelters, lo, hi);
    ScaleBack(CenterCoordinate(shelters).longitude, |shelters| as real, lo, hi);
  }

  /** Dividing the bounds n * lo <= x * n <= n * hi by a positive n. */
  lemma ScaleBack(x: real, n: real, lo: real, hi: real)
    requires n > 0.0
    requires n * lo <= x * n <= n * hi
    ensures lo <= x <= hi
  {
  }

  /** Every position in a group equal to one point gives that point back. */
  lemma {:induction false} CenterOfCoincident(shelters: seq<Shelter>, p: Coordinate)
    requires shelters != []
    requires forall i :: 0 <= i < |shelters| ==> Position(shelters[i]) == p
    ensures CenterCoordinate(shelters) == p
  {
    CenterWithinBounds(shelters, p, p);
  }
}
