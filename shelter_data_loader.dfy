/**
 * Loading the bundled shelter list, with a cache that is set once. Reading
 * the bundle and decoding JSON are outside the model: each call receives
 * what that step would produce.
 */
module ShelterDataLoader {
  import opened Wrappers
  import opened Shelters
  import opened ShelterDataEnhancer

  /** What locating and decoding `shelters_data.json` yields: no resource,
      a read or decode error, or the decoded dictionary. */
  datatype DecodeOutcome = ResourceMissing | DecodeFailed | Decoded(dictionary: map<string, seq<Shelter>>)

  /** Whether the outcome carries a shelter list under "shelters". */
  predicate HasShelters(outcome: DecodeOutcome) {
    outcome.Decoded? && "shelters" in outcome.dictionary
  }

  /** One call of the loader on a cache state: the list returned and the
      cache afterwards. */
  function Load(cache: Option<seq<Shelter>>, outcome: DecodeOutcome): (r: (seq<Shelter>, Option<seq<Shelter>>))
    ensures cache.Some? ==> r == (cache.value, cache)
    ensures cache.None? && HasShelters(outcome) ==>
      var raw := outcome.dictionary["shelters"];
      r == (EnhanceShelterData(raw), Some(raw))
    ensures cache.None? && !HasShelters(outcome) ==> r == ([], None)
  {
    match cache
    case Some(cached) => (cached, cache)
    case None =>
      match outcome
      case ResourceMissing => ([], None)
      case DecodeFailed => ([], None)
      case Decoded(dictionary) =>
        if "shelters" in dictionary then
          var shelters := dictionary["shelters"];
          (EnhanceShelterData(shelters), Some(shelters))
        else ([], None)
  }

  /** `Array(xs.prefix(min(limit, xs.count)))`. */
  function Prefix(xs: seq<Shelter>, limit: nat): (r: seq<Shelter>)
    ensures |r| == if limit < |xs| then limit else |xs|
    ensures r <= xs
  {
    xs[..if limit < |xs| then limit else |xs|]
  }

  /** The cache after a run of calls: a set cache is never replaced, and an
      unset one is set by the first call that decodes a list, to that raw
      list. */
  function LoadAll(cache: Option<seq<Shelter>>, outcomes: seq<DecodeOutcome>): (r: Option<seq<Shelter>>)
    ensures cache.Some? ==> r == cache
    ensures r.None? <==> cache.None? && forall i :: 0 <= i < |outcomes| ==> !HasShelters(outcomes[i])
    ensures cache.None? && r.Some? ==>
      exists i :: 0 <= i < |outcomes| && HasShelters(outcomes[i]) &&
        (forall j :: 0 <= j < i ==> !HasShelters(outcomes[j])) &&
        r.value == outcomes[i].dictionary["shelters"]
    decreases |outcomes|
  {
    if outcomes == [] then cache
    else
      var r := LoadAll(Load(cache, outcomes[0]).1, outcomes[1..]);
      assert forall i :: 1 <= i < |outcomes| ==> outcomes[i] == outcomes[1..][i - 1];
      if cache.None? && r.Some? && !HasShelters(outcomes[0]) then
        var k :| 0 <= k < |outcomes[1..]| && HasShelters(outcomes[1..][k]) &&
          (forall j :: 0 <= j < k ==> !HasShelters(outcomes[1..][j])) &&
          r.value == outcomes[1..][k].dictionary["shelters"];
        assert forall j :: 0 <= j < k + 1 ==> !HasShelters(outcomes[j]);
        r
      else r
  }

  /** The first successful decode returns the enriched list but caches the
      raw one, so every later call returns the list without enrichment. */
  lemma LaterCallsReturnRawList(outcome: DecodeOutcome, later: DecodeOutcome)
    requires HasShelters(outcome)
    ensures var raw := outcome.dictionary["shelters"];
      var (first, cache) := Load(None, outcome);
      first == EnhanceShelterData(raw) && Load(cache, later).0 == raw
  {
  }

  /** A failed call leaves nothing cached, so the next call decodes again. */
  lemma FailureRetries(outcome: DecodeOutcome, next: DecodeOutcome)
    requires !HasShelters(outcome)
    ensures Load(None, outcome).1 == None
    ensures Load(Load(None, outcome).1, next) == Load(None, next)
  {
  }

  class ShelterDataLoader {
    /** The static `cachedShelters`. */
    var cachedShelters: Option<seq<Shelter>>

    constructor()
      ensures cachedShelters == None
    {
      cachedShelters := None;
    }

    /** `loadSheltersFromJSON()`: the cached list when there is one;
        otherwise the decoded list, cached raw and returned enriched, or []
        on any failure. */
    method LoadSheltersFromJSON(outcome: DecodeOutcome) returns (shelters: seq<Shelter>)
      modifies this
      ensures (shelters, cachedShelters) == Load(old(cachedShelters), outcome)
    {
      if cachedShelters.Some? {
        return cachedShelters.value;
      }
      match outcome {
        case ResourceMissing =>
          return [];
        case DecodeFailed =>
          return [];
        case Decoded(dictionary) =>
          if "shelters" in dictionary {
            var raw := dictionary["shelters"];
            cachedShelters := Some(raw);
            return EnhanceShelterData(raw);
          } else {
            return [];
          }
      }
    }

    /** `loadLimitedSheltersFromJSON(limit:)`: the first `limit` shelters of
        a full load. A negative limit is refused, as `prefix` traps on it. */
    method LoadLimitedSheltersFromJSON(outcome: DecodeOutcome, limit: int) returns (shelters: seq<Shelter>)
      requires limit >= 0
      modifies this
      ensures var (all, cache) := Load(old(cachedShelters), outcome);
        shelters == Prefix(all, limit) && cachedShelters == cache
    {
      var allShelters := LoadSheltersFromJSON(outcome);
      shelters := allShelters[..if limit < |allShelters| then limit else |allShelters|];
    }
  }
}
