/**
 * The grouping index behind the map. It keeps every shelter, files each
 * one under its prefecture and under its "prefecture_municipality" key, and
 * answers a query per zoom level: one pin for the whole country, one
 * cluster pin per prefecture or municipality bucket whose centre is in
 * view, or up to 300 single pins for the shelters in view.
 */
module ClusteringManager {
  import opened Wrappers
  import opened Shelters
  import opened CoordinateRegions
  import opened ClusteringLevels
  import opened AddressParser
  import opened Decimal
  import opened HierarchicalAnnotations
  import opened ShelterAnnotations

  /* ---------------------------------------------------------------------
   * Buckets
   * --------------------------------------------------------------------- */

  /** Key of a municipality bucket: the prefecture, "_", the municipality. */
  function MunicipalityKey(c: AddressComponents): string {
    c.prefecture + "_" + c.municipality
  }

  /** The key of the prefecture dictionary. */
  function PrefectureOf(s: Shelter): string {
    ParseJapaneseAddress(s.address).prefecture
  }

  /** The key of the municipality dictionary. */
  function MunicipalityKeyOf(s: Shelter): string {
    MunicipalityKey(ParseJapaneseAddress(s.address))
  }

  /** The keys of a list of shelters. */
  function Keys(xs: seq<Shelter>, keyOf: Shelter -> string): (ks: set<string>)
    ensures forall i :: 0 <= i < |xs| ==> keyOf(xs[i]) in ks
  {
    if xs == [] then {}
    else
      var init := xs[..|xs| - 1];
      assert forall i :: 0 <= i < |init| ==> init[i] == xs[i];
      Keys(init, keyOf) + {keyOf(xs[|xs| - 1])}
  }

  /** The shelters of `xs` filed under `key`, in their order in `xs`. */
  function Members(xs: seq<Shelter>, keyOf: Shelter -> string, key: string): (r: seq<Shelter>)
    ensures r != [] <==> key in Keys(xs, keyOf)
  {
    if xs == [] then []
    else
      var init := xs[..|xs| - 1];
      var last := xs[|xs| - 1];
      Members(init, keyOf, key) + (if keyOf(last) == key then [last] else [])
  }

  /** A bucket holds every shelter with its key, as often as it occurs in
      the list, and nothing else. */
  lemma {:induction false} MembersCount(xs: seq<Shelter>, keyOf: Shelter -> string, key: string)
    ensures forall y :: multiset(Members(xs, keyOf, key))[y] == if keyOf(y) == key then multiset(xs)[y] else 0
  {
    if xs != [] {
      var init := xs[..|xs| - 1];
      assert xs == init + [xs[|xs| - 1]];
      MembersCount(init, keyOf, key);
    }
  }

  /** A dictionary as it should be: one bucket per key that occurs,
      holding the shelters with that key in list order. */
  function Grouped(xs: seq<Shelter>, keyOf: Shelter -> string): map<string, seq<Shelter>> {
    map k | k in Keys(xs, keyOf) :: Members(xs, keyOf, k)
  }

  /** One filing step: create bucket `k` empty when it is missing, then
      append `x` to it. */
  function AddToBucket(m: map<string, seq<Shelter>>, k: string, x: Shelter): (r: map<string, seq<Shelter>>)
    ensures r == m[k := (if k in m then m[k] else []) + [x]]
  {
    var created := if k !in m then m[k := []] else m;
    created[k := created[k] + [x]]
  }

  /** Appending a shelter appends it to its own bucket, creating the bucket
      when it is new, and leaves every other bucket alone. */
  lemma {:induction false} GroupedSnoc(xs: seq<Shelter>, x: Shelter, keyOf: Shelter -> string)
    ensures Grouped(xs + [x], keyOf) == AddToBucket(Grouped(xs, keyOf), keyOf(x), x)
  {
    var expected := AddToBucket(Grouped(xs, keyOf), keyOf(x), x);
    var actual := Grouped(xs + [x], keyOf);
    assert actual.Keys == expected.Keys by {
      KeysSnoc(xs, x, keyOf);
    }
    forall j | j in actual
      ensures actual[j] == expected[j]
    {
      BucketSnoc(xs, x, keyOf, j);
    }
  }

  /** One bucket of the extended list, as the filing step leaves it. */
  lemma {:induction false} BucketSnoc(xs: seq<Shelter>, x: Shelter, keyOf: Shelter -> string, j: string)
    requires j in Grouped(xs + [x], keyOf)
    ensures var expected := AddToBucket(Grouped(xs, keyOf), keyOf(x), x);
      j in expected && Grouped(xs + [x], keyOf)[j] == expected[j]
  {
    var m := Grouped(xs, keyOf);
    KeysSnoc(xs, x, keyOf);
    MembersSnoc(xs, x, keyOf, j);
    if j != keyOf(x) {
      assert j in m;
    } else if j !in m {
      assert Members(xs, keyOf, j) == [];
    }
  }

  /** The keys of an extended list gain the new shelter's key. */
  lemma {:induction false} KeysSnoc(xs: seq<Shelter>, x: Shelter, keyOf: Shelter -> string)
    ensures Keys(xs + [x], keyOf) == Keys(xs, keyOf) + {keyOf(x)}
  {
    var ys := xs + [x];
    assert ys[..|ys| - 1] == xs;
  }

  /** A bucket of an extended list gains the new shelter iff it has the
      bucket's key. */
  lemma {:induction false} MembersSnoc(xs: seq<Shelter>, x: Shelter, keyOf: Shelter -> string, key: string)
    ensures Members(xs + [x], keyOf, key) == Members(xs, keyOf, key) + (if keyOf(x) == key then [x] else [])
  {
    var ys := xs + [x];
    assert ys[..|ys| - 1] == xs;
  }

  /** Every bucket is non-empty and holds only shelters with its own key,
      so a shelter is in no bucket but its own; and each occurrence of a
      shelter in the list is in its own bucket. */
  lemma {:induction false} GroupsPartition(xs: seq<Shelter>, keyOf: Shelter -> string)
    ensures forall k :: k in Grouped(xs, keyOf) ==> Grouped(xs, keyOf)[k] != []
    ensures forall k, y :: k in Grouped(xs, keyOf) && y in Grouped(xs, keyOf)[k] ==> keyOf(y) == k
    ensures forall i :: 0 <= i < |xs| ==>
      keyOf(xs[i]) in Grouped(xs, keyOf) &&
      multiset(Grouped(xs, keyOf)[keyOf(xs[i])])[xs[i]] == multiset(xs)[xs[i]]
  {
    var m := Grouped(xs, keyOf);
    forall k, y | k in m && y in m[k]
      ensures keyOf(y) == k
    {
      MembersCount(xs, keyOf, k);
      assert multiset(m[k])[y] > 0;
    }
    forall i | 0 <= i < |xs|
      ensures keyOf(xs[i]) in m && multiset(m[keyOf(xs[i])])[xs[i]] == multiset(xs)[xs[i]]
    {
      MembersCount(xs, keyOf, keyOf(xs[i]));
    }
  }

  /** Sum of the sizes of the buckets named in `keys`. */
  function SizeSum(m: map<string, seq<Shelter>>, keys: seq<string>): nat {
    if keys == [] then 0
    else (if keys[0] in m then |m[keys[0]]| else 0) + SizeSum(m, keys[1..])
  }

  predicate Distinct(keys: seq<string>) {
    forall i, j :: 0 <= i < j < |keys| ==> keys[i] != keys[j]
  }

  /** Replacing one bucket named once in `keys` changes the sum by the
      difference in its size. */
  lemma {:induction false} SizeSumUpdate(m: map<string, seq<Shelter>>, k: string, v: seq<Shelter>, keys: seq<string>)
    requires Distinct(keys) && k in keys
    ensures SizeSum(m[k := v], keys) + (if k in m then |m[k]| else 0) == SizeSum(m, keys) + |v|
  {
    if keys[0] == k {
      assert k !in keys[1..];
      SizeSumUnchanged(m, k, v, keys[1..]);
    } else {
      SizeSumUpdate(m, k, v, keys[1..]);
    }
  }

  /** Replacing a bucket not named in `keys` leaves the sum alone. */
  lemma {:induction false} SizeSumUnchanged(m: map<string, seq<Shelter>>, k: string, v: seq<Shelter>, keys: seq<string>)
    requires k !in keys
    ensures SizeSum(m[k := v], keys) == SizeSum(m, keys)
  {
    if keys != [] {
      assert keys[0] != k;
      SizeSumUnchanged(m, k, v, keys[1..]);
    }
  }

  /** The bucket sizes of each dictionary add up to the number of
      shelters, counted over any duplicate-free listing of its keys. */
  lemma {:induction false} BucketSizesSum(xs: seq<Shelter>, keyOf: Shelter -> string, keys: seq<string>)
    requires Distinct(keys)
    requires forall k :: k in Grouped(xs, keyOf) ==> k in keys
    ensures SizeSum(Grouped(xs, keyOf), keys) == |xs|
  {
    if xs == [] {
      EmptySizeSum(keys);
    } else {
      var init := xs[..|xs| - 1];
      var x := xs[|xs| - 1];
      assert xs == init + [x];
      GroupedSnoc(init, x, keyOf);
      var m := Grouped(init, keyOf);
      var k := keyOf(x);
      assert k in Grouped(xs, keyOf);
      forall j | j in m ensures j in keys {
        assert j in Grouped(xs, keyOf);
      }
      BucketSizesSum(init, keyOf, keys);
      SizeSumUpdate(m, k, (if k in m then m[k] else []) + [x], keys);
      assert Grouped(xs, keyOf) == m[k := (if k in m then m[k] else []) + [x]];
    }
  }

  /** An empty dictionary has size sum 0. */
  lemma {:induction false} EmptySizeSum(keys: seq<string>)
    ensures SizeSum(map[], keys) == 0
  {
    if keys != [] {
      EmptySizeSum(keys[1..]);
    }
  }

  /* ---------------------------------------------------------------------
   * Splitting a municipality key
   * --------------------------------------------------------------------- */

  /** `split(separator:)`: the pieces between separators, empty pieces
      omitted. */
  function SplitOmittingEmpty(s: string, sep: char): (parts: seq<string>)
    ensures forall i :: 0 <= i < |parts| ==> parts[i] != "" && sep !in parts[i]
    decreases |s|
  {
    match FirstIndex(s, sep)
    case None => if s == "" then [] else [s]
    case Some(i) => (if i == 0 then [] else [s[..i]]) + SplitOmittingEmpty(s[i + 1..], sep)
  }

  /** Splitting at a separator that is the first in the string splits the
      two sides independently. */
  lemma {:induction false} SplitAtFirst(a: string, b: string, sep: char)
    requires sep !in a
    ensures SplitOmittingEmpty(a + [sep] + b, sep) == SplitOmittingEmpty(a, sep) + SplitOmittingEmpty(b, sep)
  {
    var s := a + [sep] + b;
    assert s[..|a|] == a;
    assert s[|a| + 1..] == b;
  }

  /** Title of a municipality pin: the second piece of the key, or "". */
  function MunicipalityTitle(key: string): (title: string)
    ensures '_' !in title
  {
    var parts := SplitOmittingEmpty(key, '_');
    if |parts| > 1 then parts[1] else ""
  }

  /** For names without "_", the title is the municipality when the
      prefecture is known, and "" when it is not, because the empty piece
      before "_" is dropped and the municipality becomes the first piece. */
  lemma {:induction false} MunicipalityTitleOfKey(prefecture: string, municipality: string)
    requires '_' !in prefecture && '_' !in municipality
    ensures MunicipalityTitle(prefecture + "_" + municipality) == if prefecture != "" then municipality else ""
  {
    SplitAtFirst(prefecture, municipality, '_');
  }

  /** Example: the bucket of an address with no known prefecture is titled "". */
  lemma UnknownPrefectureTitle()
    ensures MunicipalityTitle("_八王子市") == ""
    ensures MunicipalityTitle("東京都_八王子市") == "八王子市"
  {
    MunicipalityTitleOfKey("", "八王子市");
    assert "" + "_" + "八王子市" == "_八王子市";
    MunicipalityTitleOfKey("東京都", "八王子市");
    assert "東京都" + "_" + "八王子市" == "東京都_八王子市";
  }

  /* ---------------------------------------------------------------------
   * Pins
   * --------------------------------------------------------------------- */

  /** The heterogeneous result list of `getAnnotations`. */
  datatype MapAnnotation = Cluster(cluster: HierarchicalAnnotation) | Single(single: ShelterAnnotation)

  /** Fixed position of the country pin, near the middle of Japan. */
  const JapanCenter := Coordinate(36.2048, 138.2529)

  /** Most single pins drawn at once. */
  const MaxAnnotations := 300

  /** Subtitle of a cluster pin: "<n>箇所の避難所". */
  function BucketSubtitle(shelters: seq<Shelter>): string {
    NatToString(|shelters|) + "箇所の避難所"
  }

  function PrefectureAnnotation(key: string, shelters: seq<Shelter>): HierarchicalAnnotation {
    FromShelters(key, Some(BucketSubtitle(shelters)), Prefecture, key, shelters)
  }

  function MunicipalityAnnotation(key: string, shelters: seq<Shelter>): HierarchicalAnnotation {
    FromShelters(MunicipalityTitle(key), Some(BucketSubtitle(shelters)), Municipality, key, shelters)
  }

  /** `filterAnnotationsInRegion`: the pins drawn inside the region. */
  function InRegion(annotations: set<HierarchicalAnnotation>, region: CoordinateRegion): (r: set<HierarchicalAnnotation>)
    requires ValidRegion(region)
    ensures r <= annotations
    ensures forall a :: a in annotations ==> (a in r <==> Contains(region, a.coordinate))
  {
    set a | a in annotations && Contains(region, a.coordinate)
  }

  /** The shelters of `xs` inside the region, in list order. */
  function SheltersInRegion(xs: seq<Shelter>, region: CoordinateRegion): (r: seq<Shelter>)
    requires ValidRegion(region)
    ensures |r| <= |xs|
  {
    if xs == [] then []
    else
      var init := xs[..|xs| - 1];
      var last := xs[|xs| - 1];
      SheltersInRegion(init, region) + (if Contains(region, Position(last)) then [last] else [])
  }

  /** The filter keeps every shelter in view, as often as the list holds
      it, and no other. */
  lemma {:induction false} SheltersInRegionCount(xs: seq<Shelter>, region: CoordinateRegion)
    requires ValidRegion(region)
    ensures forall y :: multiset(SheltersInRegion(xs, region))[y] == if Contains(region, Position(y)) then multiset(xs)[y] else 0
  {
    if xs != [] {
      var init := xs[..|xs| - 1];
      assert xs == init + [xs[|xs| - 1]];
      SheltersInRegionCount(init, region);
    }
  }

  /** A list's first `n` elements, or all of it when it is shorter. */
  function Limited(xs: seq<Shelter>, n: nat): (r: seq<Shelter>)
    ensures |r| == if |xs| > n then n else |xs|
    ensures r <= xs
  {
    if |xs| > n then xs[..n] else xs
  }

  /** The filter keeps list order: filtering a concatenation filters each
      part, so the first 300 in view are the first 300 of the list that
      are in view. */
  lemma {:induction false} SheltersInRegionAppend(a: seq<Shelter>, b: seq<Shelter>, region: CoordinateRegion)
    requires ValidRegion(region)
    ensures SheltersInRegion(a + b, region) == SheltersInRegion(a, region) + SheltersInRegion(b, region)
    decreases |b|
  {
    if b == [] {
      assert a + b == a;
    } else {
      var ab := a + b;
      var init := b[..|b| - 1];
      assert ab[..|ab| - 1] == a + init;
      var last := b[|b| - 1];
      assert ab[|ab| - 1] == last;
      var tail := if Contains(region, Position(last)) then [last] else [];
      assert SheltersInRegion(ab, region) == SheltersInRegion(a + init, region) + tail;
      assert SheltersInRegion(b, region) == SheltersInRegion(init, region) + tail;
      SheltersInRegionAppend(a, init, region);
    }
  }

  /** Single pins as entries of the mixed result list. */
  function Singles(pins: seq<ShelterAnnotation>): (r: seq<MapAnnotation>)
    ensures |r| == |pins|
    ensures forall i :: 0 <= i < |pins| ==> r[i] == Single(pins[i])
  {
    if pins == [] then [] else [Single(pins[0])] + Singles(pins[1..])
  }

  /** The mixed list holds each single pin as often as the pin list does,
      and nothing else. */
  lemma {:induction false} SinglesCount(pins: seq<ShelterAnnotation>)
    ensures forall x :: x in multiset(Singles(pins)) ==> x.Single?
    ensures forall p :: multiset(Singles(pins))[Single(p)] == multiset(pins)[p]
  {
    if pins != [] {
      SinglesCount(pins[1..]);
      assert pins == [pins[0]] + pins[1..];
    }
  }

  /** Nothing filtered out is drawn, and everything kept is in view. */
  lemma {:induction false} InViewSheltersAreContained(xs: seq<Shelter>, region: CoordinateRegion)
    requires ValidRegion(region)
    ensures forall y :: y in SheltersInRegion(xs, region) <==> y in xs && Contains(region, Position(y))
  {
    var r := SheltersInRegion(xs, region);
    SheltersInRegionCount(xs, region);
    forall y
      ensures y in r <==> y in xs && Contains(region, Position(y))
    {
      assert y in r <==> multiset(r)[y] > 0;
      assert y in xs <==> multiset(xs)[y] > 0;
    }
  }

  /** One step of the rebuild: filing the next shelter under its two keys
      gives the grouping of the longer prefix. */
  lemma {:induction false} FiledUnderOwnKeys(done: seq<Shelter>, shelter: Shelter)
    ensures Grouped(done + [shelter], PrefectureOf) == AddToBucket(Grouped(done, PrefectureOf), PrefectureOf(shelter), shelter)
    ensures Grouped(done + [shelter], MunicipalityKeyOf) ==
      AddToBucket(Grouped(done, MunicipalityKeyOf), MunicipalityKeyOf(shelter), shelter)
  {
    GroupedSnoc(done, shelter, PrefectureOf);
    GroupedSnoc(done, shelter, MunicipalityKeyOf);
  }

  /* ---------------------------------------------------------------------
   * The index
   * --------------------------------------------------------------------- */

  class HierarchicalClusteringManager {
    var allShelters: seq<Shelter>
    var sheltersByPrefecture: map<string, seq<Shelter>>
    var sheltersByMunicipality: map<string, seq<Shelter>>

    /** Both dictionaries are the grouping of the current list. */
    ghost predicate Valid()
      reads this
    {
      sheltersByPrefecture == Grouped(allShelters, PrefectureOf) &&
      sheltersByMunicipality == Grouped(allShelters, MunicipalityKeyOf)
    }

    constructor()
      ensures allShelters == [] && sheltersByPrefecture == map[] && sheltersByMunicipality == map[]
      ensures Valid()
    {
      allShelters := [];
      sheltersByPrefecture := map[];
      sheltersByMunicipality := map[];
    }

    /** Replace the list and rebuild both dictionaries from scratch. */
    method SetShelters(shelters: seq<Shelter>)
      modifies this
      ensures allShelters == shelters
      ensures sheltersByPrefecture == Grouped(shelters, PrefectureOf)
      ensures sheltersByMunicipality == Grouped(shelters, MunicipalityKeyOf)
    {
      allShelters := shelters;
      OrganizeByHierarchy();
    }

    function GetShelters(): seq<Shelter>
      reads this
    {
      allShelters
    }

    /** Clear both dictionaries, then file each shelter in list order. */
    method OrganizeByHierarchy()
      modifies this
      ensures allShelters == old(allShelters)
      ensures Valid()
    {
      var byPrefecture: map<string, seq<Shelter>> := map[];
      var byMunicipality: map<string, seq<Shelter>> := map[];
      var shelters := allShelters;
      var i := 0;
      while i < |shelters|
        invariant 0 <= i <= |shelters|
        invariant allShelters == shelters
        invariant byPrefecture == Grouped(shelters[..i], PrefectureOf)
        invariant byMunicipality == Grouped(shelters[..i], MunicipalityKeyOf)
      {
        var shelter := shelters[i];
        assert shelters[..i + 1] == shelters[..i] + [shelter];
        var components := ParseJapaneseAddress(shelter.address);
        var prefecture := components.prefecture;
        var municipalityKey := MunicipalityKey(components);
        FiledUnderOwnKeys(shelters[..i], shelter);
        byPrefecture := AddToBucket(byPrefecture, prefecture, shelter);
        byMunicipality := AddToBucket(byMunicipality, municipalityKey, shelter);
        i := i + 1;
      }
      assert shelters[..i] == shelters;
      sheltersByPrefecture := byPrefecture;
      sheltersByMunicipality := byMunicipality;
    }

    /** The single pin for the whole country. */
    function CountryAnnotation(): (a: HierarchicalAnnotation)
      reads this
      ensures a.identifier == "japan" && a.level == Country
      ensures a.coordinate == JapanCenter
      ensures a.count == |allShelters| && a.shelters == allShelters
      ensures a.title == Some("日本")
      ensures a.subtitle == Some("全国の避難所: " + NatToString(|allShelters|) + "箇所")
    {
      HierarchicalAnnotation(JapanCenter, Some("日本"), Some("全国の避難所: " + NatToString(|allShelters|) + "箇所"),
                             Country, |allShelters|, "japan", allShelters)
    }

    /** One pin per prefecture bucket whose centre is in view. */
    function PrefectureAnnotations(region: CoordinateRegion): (r: set<HierarchicalAnnotation>)
      reads this
      requires ValidRegion(region)
      ensures forall a :: a in r ==>
        a.identifier in sheltersByPrefecture &&
        a == PrefectureAnnotation(a.identifier, sheltersByPrefecture[a.identifier]) &&
        Contains(region, a.coordinate)
      ensures forall k ::
        k in sheltersByPrefecture && Contains(region, CenterCoordinate(sheltersByPrefecture[k])) ==>
        PrefectureAnnotation(k, sheltersByPrefecture[k]) in r
    {
      InRegion(set k | k in sheltersByPrefecture :: PrefectureAnnotation(k, sheltersByPrefecture[k]), region)
    }

    /** One pin per municipality bucket whose centre is in view. */
    function MunicipalityAnnotations(region: CoordinateRegion): (r: set<HierarchicalAnnotation>)
      reads this
      requires ValidRegion(region)
      ensures forall a :: a in r ==>
        a.identifier in sheltersByMunicipality &&
        a == MunicipalityAnnotation(a.identifier, sheltersByMunicipality[a.identifier]) &&
        Contains(region, a.coordinate)
      ensures forall k ::
        k in sheltersByMunicipality && Contains(region, CenterCoordinate(sheltersByMunicipality[k])) ==>
        MunicipalityAnnotation(k, sheltersByMunicipality[k]) in r
    {
      InRegion(set k | k in sheltersByMunicipality :: MunicipalityAnnotation(k, sheltersByMunicipality[k]), region)
    }

    /** Single pins for the first 300 shelters in view, in list order. */
    function IndividualAnnotations(region: CoordinateRegion): (r: seq<ShelterAnnotation>)
      reads this
      requires ValidRegion(region)
      ensures var inView := SheltersInRegion(allShelters, region);
        |r| == (if |inView| > MaxAnnotations then MaxAnnotations else |inView|) &&
        forall i :: 0 <= i < |r| ==> r[i] == ShelterAnnotationOf(inView[i])
      ensures forall i :: 0 <= i < |r| ==> r[i].shelter in allShelters && Contains(region, r[i].coordinate)
    {
      var limited := Limited(SheltersInRegion(allShelters, region), MaxAnnotations);
      InViewSheltersAreContained(allShelters, region);
      seq(|limited|, i requires 0 <= i < |limited| => ShelterAnnotationOf(limited[i]))
    }

    /** `getAnnotations(for:in:)`, as a multiset because the order of the
        cluster levels is the unspecified order of a dictionary. */
    function GetAnnotations(level: ClusteringLevel, region: CoordinateRegion): (r: multiset<MapAnnotation>)
      reads this
      requires level != Country ==> ValidRegion(region)
      ensures level == Country ==> r == multiset{Cluster(CountryAnnotation())}
      ensures level == Prefecture || level == Municipality ==>
        forall x :: x in r ==> x.Cluster? && x.cluster.level == level && Contains(region, x.cluster.coordinate)
      ensures level == Prefecture ==>
        forall a :: r[Cluster(a)] == if a in PrefectureAnnotations(region) then 1 else 0
      ensures level == Municipality ==>
        forall a :: r[Cluster(a)] == if a in MunicipalityAnnotations(region) then 1 else 0
      ensures level == Individual ==>
        |r| == |IndividualAnnotations(region)| <= MaxAnnotations &&
        (forall x :: x in r ==> x.Single? && Contains(region, x.single.coordinate)) &&
        forall p :: r[Single(p)] == multiset(IndividualAnnotations(region))[p]
    {
      match level
      case Country => multiset{Cluster(CountryAnnotation())}
      case Prefecture => multiset(set a | a in PrefectureAnnotations(region) :: Cluster(a))
      case Municipality => multiset(set a | a in MunicipalityAnnotations(region) :: Cluster(a))
      case Individual =>
        var singles := IndividualAnnotations(region);
        SinglesCount(singles);
        multiset(Singles(singles))
    }
  }
}
