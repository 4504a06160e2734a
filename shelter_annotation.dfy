/**
 * The pin for a single shelter.
 */
module ShelterAnnotations {
  import opened Wrappers
  import opened Shelters

  datatype ShelterAnnotation = ShelterAnnotation(shelter: Shelter, coordinate: Coordinate, title: Option<string>)

  /** `init(shelter:)`: keeps the shelter, draws it at its own position and
      titles it with its name. */
  function ShelterAnnotationOf(s: Shelter): (a: ShelterAnnotation)
    ensures a.shelter == s
    ensures a.coordinate.latitude == s.latitude && a.coordinate.longitude == s.longitude
    ensures a.title == Some(s.name)
  {
    ShelterAnnotation(s, Position(s), Some(s.name))
  }

  /** Distinct shelters get distinct pins. */
  lemma ShelterAnnotationOfInjective(s: Shelter, t: Shelter)
    ensures ShelterAnnotationOf(s) == ShelterAnnotationOf(t) ==> s == t
  {
  }
}
