/**
 * Demo enrichment of the decoded shelters: designated shelters get a
 * capacity guessed from their name, the six basic facilities and an
 * unknown status; every other shelter is passed through untouched.
 */
module ShelterDataEnhancer {
  import opened Wrappers
  import opened Shelters
  import opened AddressParser

  /** `String.contains` with a string argument: `t` occurs in `s`. */
  predicate ContainsText(s: string, t: string) {
    OccursIn(t, s)
  }

  /** `determineCapacity(name:)`: keyword groups checked in priority order. */
  function DetermineCapacity(name: string): (r: Option<int>)
    ensures r.Some? ==> r.value in {200, 500, 1000}
    ensures r == Some(500) <==>
      ContainsText(name, "学校") || ContainsText(name, "体育館") || ContainsText(name, "センター")
    ensures r == Some(200) <==>
      !(ContainsText(name, "学校") || ContainsText(name, "体育館") || ContainsText(name, "センター")) &&
      (ContainsText(name, "公民館") || ContainsText(name, "会館"))
    ensures r == Some(1000) <==>
      !(ContainsText(name, "学校") || ContainsText(name, "体育館") || ContainsText(name, "センター")) &&
      !(ContainsText(name, "公民館") || ContainsText(name, "会館")) &&
      ContainsText(name, "公園")
  {
    if ContainsText(name, "学校") || ContainsText(name, "体育館") || ContainsText(name, "センター") then Some(500)
    else if ContainsText(name, "公民館") || ContainsText(name, "会館") then Some(200)
    else if ContainsText(name, "公園") then Some(1000)
    else None
  }

  /** `getBasicFacilities()`: the six representative facilities. */
  const BasicFacilities: seq<Facility> := [Toilet, Wifi, Power, Water, Medical, BarrierFree]

  /** Whether the capacity of a designated shelter is (re)assigned. */
  predicate InCityOrWard(address: string) {
    ContainsText(address, "市") || ContainsText(address, "区")
  }

  /** The enrichment of one shelter. */
  function EnhanceShelter(s: Shelter): (e: Shelter)
    ensures !s.designatedShelter ==> e == s
    ensures e.id == s.id && e.name == s.name && e.address == s.address
    ensures e.latitude == s.latitude && e.longitude == s.longitude
    ensures e.disasters == s.disasters && e.designatedShelter == s.designatedShelter
    ensures s.designatedShelter ==>
      e.facilities == Some(BasicFacilities) && e.status == Some(Unknown) &&
      e.accessInfo.None? && e.phoneNumber.None? && e.notes.None? && e.lastUpdated.None? &&
      e.capacity == (if InCityOrWard(s.address) then DetermineCapacity(s.name) else s.capacity)
  {
    if s.designatedShelter then
      var withCapacity := if InCityOrWard(s.address) then s.(capacity := DetermineCapacity(s.name)) else s;
      withCapacity.(facilities := Some(BasicFacilities), accessInfo := None, phoneNumber := None,
                    notes := None, status := Some(Unknown), lastUpdated := None)
    else s
  }

  /** `enhanceShelterData`: the enrichment applied to each shelter. */
  function EnhanceShelterData(shelters: seq<Shelter>): (r: seq<Shelter>)
    ensures |r| == |shelters|
    ensures forall i :: 0 <= i < |r| ==> r[i] == EnhanceShelter(shelters[i])
  {
    seq(|shelters|, i requires 0 <= i < |shelters| => EnhanceShelter(shelters[i]))
  }

  /** Enriching an enriched shelter changes nothing more: every field it
      writes depends only on fields it never writes. */
  lemma EnhanceShelterIdempotent(s: Shelter)
    ensures EnhanceShelter(EnhanceShelter(s)) == EnhanceShelter(s)
  {
  }

  /** Enriching the list twice is enriching it once. */
  lemma {:induction false} EnhanceShelterDataIdempotent(shelters: seq<Shelter>)
    ensures EnhanceShelterData(EnhanceShelterData(shelters)) == EnhanceShelterData(shelters)
  {
    var once := EnhanceShelterData(shelters);
    forall i | 0 <= i < |shelters|
      ensures EnhanceShelterData(once)[i] == once[i]
    {
      EnhanceShelterIdempotent(shelters[i]);
    }
  }

  /** Example: "センター" outranks "公園" in a name holding both. */
  lemma CenterOutranksPark()
    ensures DetermineCapacity("中央公園センター") == Some(500)
  {
    var name := "中央公園センター";
    assert "センター" <= name[4..];
  }
}
