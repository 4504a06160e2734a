/**
 * The shelter record and the coordinate value it is drawn at.
 *
 * `Shelter` carries the six decoded fields (name, address, latitude,
 * longitude, disasters, designated flag) and the optional enrichment
 * fields that the data enhancer writes and the favourites store reads.
 */
module Shelters {
  import opened Wrappers

  /** A point on the map (CLLocationCoordinate2D), in degrees. */
  datatype Coordinate = Coordinate(latitude: real, longitude: real)

  /** Equipment a shelter may offer. */
  datatype Facility = Toilet | Wifi | Power | Water | Medical | BarrierFree | OtherFacility(facilityName: string)

  /** Opening status of a shelter; `Unknown` is the only status the enhancer assigns. */
  datatype ShelterStatus = Unknown | ReportedStatus(statusName: string)

  /** A point in time, as seconds from a fixed reference date. */
  datatype Timestamp = Timestamp(seconds: real)

  datatype Shelter = Shelter(
    id: string,
    name: string,
    address: string,
    latitude: real,
    longitude: real,
    disasters: seq<string>,
    designatedShelter: bool,
    capacity: Option<int>,
    facilities: Option<seq<Facility>>,
    accessInfo: Option<string>,
    phoneNumber: Option<string>,
    notes: Option<string>,
    status: Option<ShelterStatus>,
    lastUpdated: Option<Timestamp>)

  /** The shelter's own position. */
  function Position(s: Shelter): Coordinate {
    Coordinate(s.latitude, s.longitude)
  }
}
