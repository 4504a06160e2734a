/**
 * The viewport rectangle (MKCoordinateRegion) and its inclusive
 * bounding-box containment test. Longitudes are compared as plain numbers:
 * there is no wrap-around at the antimeridian.
 */
module CoordinateRegions {
  import opened Shelters

  /** Full height and width of the viewport, in degrees. */
  datatype CoordinateSpan = CoordinateSpan(latitudeDelta: real, longitudeDelta: real)

  datatype CoordinateRegion = CoordinateRegion(center: Coordinate, span: CoordinateSpan)

  /** The closed ranges `minLat...maxLat` and `minLon...maxLon` can only be
      formed when both spans are non-negative; a negative span traps. */
  predicate ValidRegion(region: CoordinateRegion) {
    region.span.latitudeDelta >= 0.0 && region.span.longitudeDelta >= 0.0
  }

  /** Distance between two numbers. */
  function Distance(a: real, b: real): real {
    if a <= b then b - a else a - b
  }

  /** Whether the coordinate lies in the region, both bounds included. */
  predicate Contains(region: CoordinateRegion, coordinate: Coordinate)
    requires ValidRegion(region)
    ensures Contains(region, coordinate) <==>
      2.0 * Distance(coordinate.latitude, region.center.latitude) <= region.span.latitudeDelta &&
      2.0 * Distance(coordinate.longitude, region.center.longitude) <= region.span.longitudeDelta
  {
    var latitudeDelta := region.span.latitudeDelta / 2.0;
    var longitudeDelta := region.span.longitudeDelta / 2.0;
    var minLat := region.center.latitude - latitudeDelta;
    var maxLat := region.center.latitude + latitudeDelta;
    var minLon := region.center.longitude - longitudeDelta;
    var maxLon := region.center.longitude + longitudeDelta;
    minLat <= coordinate.latitude <= maxLat && minLon <= coordinate.longitude <= maxLon
  }

  /** Both edges of both bands belong to the region. */
  lemma EdgesAreContained(region: CoordinateRegion, dLat: real, dLon: real)
    requires ValidRegion(region)
    requires dLat == region.span.latitudeDelta / 2.0 || dLat == -region.span.latitudeDelta / 2.0
    requires dLon == region.span.longitudeDelta / 2.0 || dLon == -region.span.longitudeDelta / 2.0
    ensures Contains(region, Coordinate(region.center.latitude + dLat, region.center.longitude + dLon))
  {
  }

  /** The center of a valid region is always inside it. */
  lemma CenterIsContained(region: CoordinateRegion)
    requires ValidRegion(region)
    ensures Contains(region, region.center)
  {
  }

  /** Widening either span around the same center never drops a point. */
  lemma WideningKeepsPoints(region: CoordinateRegion, wider: CoordinateRegion, c: Coordinate)
    requires ValidRegion(region)
    requires wider.center == region.center
    requires wider.span.latitudeDelta >= region.span.latitudeDelta
    requires wider.span.longitudeDelta >= region.span.longitudeDelta
    requires Contains(region, c)
    ensures ValidRegion(wider) && Contains(wider, c)
  {
  }

  /** No wrap-around: a view centred just west of the antimeridian does not
      contain a point just east of it, although the two are 2 degrees apart. */
  lemma NoAntimeridianWraparound()
    ensures ValidRegion(CoordinateRegion(Coordinate(0.0, 179.0), CoordinateSpan(10.0, 4.0)))
    ensures !Contains(CoordinateRegion(Coordinate(0.0, 179.0), CoordinateSpan(10.0, 4.0)), Coordinate(0.0, -179.0))
  {
  }
}
