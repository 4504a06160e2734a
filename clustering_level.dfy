/**
 * The four aggregation levels of the map and the zoom policy between them:
 * a half-open interval table from zoom to level, and one recommended zoom
 * per level used when the user drills into an aggregate.
 */
module ClusteringLevels {
  import opened Wrappers

  datatype ClusteringLevel = Country | Prefecture | Municipality | Individual

  /** The enum's integer raw value. */
  function RawValue(l: ClusteringLevel): int {
    match l
    case Country => 0
    case Prefecture => 1
    case Municipality => 2
    case Individual => 3
  }

  /** The failable initialiser from a raw value (`ClusteringLevel(rawValue:)`). */
  function FromRawValue(raw: int): (r: Option<ClusteringLevel>)
    ensures r.Some? <==> 0 <= raw <= 3
    ensures r.Some? ==> RawValue(r.value) == raw
  {
    if raw == 0 then Some(Country)
    else if raw == 1 then Some(Prefecture)
    else if raw == 2 then Some(Municipality)
    else if raw == 3 then Some(Individual)
    else None
  }

  /** The level shown at a zoom value: [0,6) country, [6,9) prefecture,
      [9,12) municipality, anything else individual. */
  function ForZoomLevel(zoom: real): ClusteringLevel {
    if 0.0 <= zoom < 6.0 then Country
    else if 6.0 <= zoom < 9.0 then Prefecture
    else if 9.0 <= zoom < 12.0 then Municipality
    else Individual
  }

  /** The zoom to animate to when the user opens an aggregate of this level. */
  function RecommendedZoomLevel(l: ClusteringLevel): real {
    match l
    case Country => 5.0
    case Prefecture => 7.5
    case Municipality => 10.5
    case Individual => 14.0
  }

  /** Raw values run from 0 to 3 and identify the level: the enum round-trips
      through them, and they are strictly ordered from country to individual. */
  lemma RawValueRoundTrip(l: ClusteringLevel)
    ensures 0 <= RawValue(l) <= 3
    ensures FromRawValue(RawValue(l)) == Some(l)
    ensures RawValue(Country) < RawValue(Prefecture) < RawValue(Municipality) < RawValue(Individual)
  {
  }

  /** The zoom table, read as which zoom values select each level. */
  lemma ZoomTable(zoom: real)
    ensures ForZoomLevel(zoom) == Country <==> 0.0 <= zoom < 6.0
    ensures ForZoomLevel(zoom) == Prefecture <==> 6.0 <= zoom < 9.0
    ensures ForZoomLevel(zoom) == Municipality <==> 9.0 <= zoom < 12.0
    ensures ForZoomLevel(zoom) == Individual <==> zoom < 0.0 || 12.0 <= zoom
  {
  }

  /** A negative zoom is not caught by the first interval and falls through
      to the default branch: it selects the finest level, not the coarsest. */
  lemma NegativeZoomIsIndividual(zoom: real)
    requires zoom < 0.0
    ensures ForZoomLevel(zoom) == Individual
  {
  }

  /** Zooming in never selects a coarser level (for non-negative zoom). */
  lemma ForZoomLevelMonotone(z1: real, z2: real)
    requires 0.0 <= z1 <= z2
    ensures RawValue(ForZoomLevel(z1)) <= RawValue(ForZoomLevel(z2))
  {
  }

  /** The recommended zoom of a level lies inside that level's interval,
      so animating to it shows the level it was recommended for. */
  lemma RecommendedZoomRoundTrip(l: ClusteringLevel)
    ensures ForZoomLevel(RecommendedZoomLevel(l)) == l
  {
  }
}
