# AnzenNavi shelter aggregation, in Dafny

AnzenNavi is an iOS app that shows evacuation shelters in Japan on a map.
Depending on the zoom, the map shows one of four things:

- a single pin for the whole country;
- one pin per prefecture;
- one pin per municipality;
- the individual shelters in view, capped at 300.

This project models the engine behind that map and the small stateful
helpers around it. It proves what each of them promises.

| module | models |
|---|---|
| `Shelters` | the shelter record and its coordinate |
| `ClusteringLevels` | the four aggregation levels, the zoom-to-level table and the recommended zoom of each level |
| `CoordinateRegions` | the viewport containment test: an inclusive bounding box with no antimeridian wraparound |
| `AddressParser` | the classifier that splits a Japanese address into prefecture, municipality and detail |
| `HierarchicalAnnotations` | the aggregate pin: its fields, and the centroid of its shelters with the Tokyo fallback |
| `ShelterAnnotations` | the single-shelter pin |
| `ClusteringManager` | the grouping index (`HierarchicalClusteringManager`), a class whose list and two dictionaries are rebuilt in a loop, and its level-specific queries |
| `ShelterDataEnhancer` | the per-shelter enrichment rule and its capacity-by-keyword table |
| `ShelterDataLoader` | the set-once shelter cache and the limited loader, as a class with the cache as its field |
| `FavoriteShelters` | the favourites list with add, remove, toggle and membership, as a class with the stored list as its field |
| `PhoneNumberFormat` | the phone-number formatter of the login view, as a loop proved against a recursive definition, and the country selection |
| `SlideUpMenu` | the closed / half-open / open state machine of the slide-up menu |
| `Decimal` | decimal rendering of counts, used in the pin subtitles |
| `Wrappers` | `Option` |

The imperative parts of the source are classes in the model:

- the clustering manager's fields;
- the loader's cache;
- the favourites store;
- the login view's state;
- the menu state.

Their methods are proved against pure functions. The properties of those
functions are proved as lemmas.

Coordinates, spans, zoom values and drag amounts are exact reals.

Removing a prefecture name from an address does not always leave a
remainder free of that name. The address "東京都東京東京都都" is found to
be in 東京都; deleting both occurrences of the name joins the pieces around
the second one into a new 東京都, which is the whole remainder
(`AddressParser.RemovalCanRejoinName`).

## Model

| member | source | states |
|---|---|---|
| `ClusteringLevels.FromRawValue` | AnzenNavi/AnzenNavi/Models/ClusteringLevel.swift:11-15 | the raw-value initialiser succeeds exactly for 0 to 3 and yields the level with that raw value |
| `ClusteringLevels.RawValue` | AnzenNavi/AnzenNavi/Models/ClusteringLevel.swift:11-15 | the raw value of each case as declared, 0 to 3; `RawValueRoundTrip` states its range and its inverse |
| `ClusteringLevels.RawValueRoundTrip` | AnzenNavi/AnzenNavi/Models/ClusteringLevel.swift:11-15 | raw values lie in 0 to 3, round-trip through the initialiser, and are strictly ordered from country to individual |
| `ClusteringLevels.ZoomTable` | AnzenNavi/AnzenNavi/Models/ClusteringLevel.swift:17-24 | country exactly on [0,6), prefecture on [6,9), municipality on [9,12), individual exactly for negative zoom or zoom of at least 12 |
| `ClusteringLevels.ForZoomLevel` | AnzenNavi/AnzenNavi/Models/ClusteringLevel.swift:17-24 | the switch over the zoom value; `ZoomTable` states which zoom values select each level |
| `ClusteringLevels.NegativeZoomIsIndividual` | AnzenNavi/AnzenNavi/Models/ClusteringLevel.swift:19-22 | a negative zoom falls through to the default branch and selects individual, not country |
| `ClusteringLevels.ForZoomLevelMonotone` | AnzenNavi/AnzenNavi/Models/ClusteringLevel.swift:11-24 | for non-negative zoom, zooming in never lowers the level's raw value |
| `ClusteringLevels.RecommendedZoomRoundTrip` | AnzenNavi/AnzenNavi/Models/ClusteringLevel.swift:17-33 | the recommended zoom of every level (5.0, 7.5, 10.5, 14.0) selects that same level |
| `ClusteringLevels.RecommendedZoomLevel` | AnzenNavi/AnzenNavi/Models/ClusteringLevel.swift:26-33 | the zoom animated to for each level; `RecommendedZoomRoundTrip` states that it selects its own level |
| `CoordinateRegions.Contains` | AnzenNavi/AnzenNavi/Extensions/MKCoordinateRegion.swift:11-21 | containment holds iff latitude and longitude are each within half a span of the center, bounds inclusive; spans must be non-negative |
| `CoordinateRegions.EdgesAreContained` | AnzenNavi/AnzenNavi/Extensions/MKCoordinateRegion.swift:21 | a point exactly at center plus or minus half of each span is contained |
| `CoordinateRegions.CenterIsContained` | AnzenNavi/AnzenNavi/Extensions/MKCoordinateRegion.swift:12-21 | the center of a region with non-negative spans is contained |
| `CoordinateRegions.WideningKeepsPoints` | AnzenNavi/AnzenNavi/Extensions/MKCoordinateRegion.swift:13-21 | widening the spans around the same center never removes a contained point |
| `CoordinateRegions.NoAntimeridianWraparound` | AnzenNavi/AnzenNavi/Extensions/MKCoordinateRegion.swift:18-21 | a region centred at longitude 179 does not contain longitude -179, because longitudes are compared as plain numbers |
| `AddressParser.HeadsIdentifyEntries` | AnzenNavi/AnzenNavi/Utilities/AddressParser.swift:20-28 | the table has 47 names of at least three characters, each determined by its first two characters |
| `AddressParser.PrefecturesPrefixFree` | AnzenNavi/AnzenNavi/Utilities/AddressParser.swift:20-28 | no prefecture name is a prefix of another |
| `AddressParser.FirstPrefixIndex` | AnzenNavi/AnzenNavi/Utilities/AddressParser.swift:31-37 | the search stops at the first entry that is a prefix of the address, and no earlier entry is one |
| `AddressParser.FindPrefecture` | AnzenNavi/AnzenNavi/Utilities/AddressParser.swift:31-37 | the entry at the first matching index, or "" when none matches; `PrefectureIsUniqueMatch` states the result independently of table order |
| `AddressParser.MatchedEntryIsFound` | AnzenNavi/AnzenNavi/Utilities/AddressParser.swift:20-37 | any table entry that is a prefix of the address is the prefecture found, whatever its position in the table |
| `AddressParser.PrefectureIsUniqueMatch` | AnzenNavi/AnzenNavi/Utilities/AddressParser.swift:20-37 | the prefecture is "" iff no entry is a prefix of the address; otherwise it is the one entry that is, so table order does not matter |
| `AddressParser.RemoveAll` | AnzenNavi/AnzenNavi/Utilities/AddressParser.swift:40-43 | removing every non-overlapping occurrence, left to right, never lengthens the string; `RemoveAllStep` and `RemoveAllAbsent` state which text is removed |
| `AddressParser.RemoveAllAbsent` | AnzenNavi/AnzenNavi/Utilities/AddressParser.swift:40-43 | removing a name that does not occur leaves the string unchanged |
| `AddressParser.RemoveAllStep` | AnzenNavi/AnzenNavi/Utilities/AddressParser.swift:42 | when the first occurrence of the name follows a text `a` in which none starts, removal keeps `a`, drops that occurrence and goes on with the rest; with `RemoveAllAbsent` this fixes the result for every string |
| `AddressParser.Remainder` | AnzenNavi/AnzenNavi/Utilities/AddressParser.swift:39-43 | the address with every occurrence of a found prefecture deleted, or the address itself when none was found; `RemainderOfPlainAddress` and `RemovalCanRejoinName` state its results |
| `AddressParser.RemainderOfPlainAddress` | AnzenNavi/AnzenNavi/Utilities/AddressParser.swift:40-43 | when the prefecture occurs only at the front, the remainder is the address without that prefix |
| `AddressParser.RemovalCanRejoinName` | AnzenNavi/AnzenNavi/Utilities/AddressParser.swift:40-43 | the address "東京都東京東京都都" is found to be in 東京都, and deleting every 東京都 from it leaves "東京都": the remainder can still contain the name |
| `AddressParser.FirstIndex` | AnzenNavi/AnzenNavi/Utilities/AddressParser.swift:50-71 | a marker is found iff it occurs, at a position holding it with no earlier occurrence |
| `AddressParser.SplitAfter` | AnzenNavi/AnzenNavi/Utilities/AddressParser.swift:50-71 | the municipality ends with the chosen marker and holds no earlier occurrence of it; municipality plus rest is the input |
| `AddressParser.ChosenMarker` | AnzenNavi/AnzenNavi/Utilities/AddressParser.swift:49-72 | the first of 市, 区, 町, 村 that occurs, in that priority; `MarkerPriority` states the split it leads to |
| `AddressParser.SplitMunicipality` | AnzenNavi/AnzenNavi/Utilities/AddressParser.swift:46-72 | municipality plus untrimmed detail is the remainder; with no marker the municipality is "" and the detail is the whole remainder |
| `AddressParser.MarkerPriority` | AnzenNavi/AnzenNavi/Utilities/AddressParser.swift:50-72 | the split is at the first 市 if any, else the first 区, else the first 町, else the first 村; the municipality is "" iff none of them occurs |
| `AddressParser.SkipLeading` | AnzenNavi/AnzenNavi/Utilities/AddressParser.swift:75 | the detail starts at the first character that is not white space or newline; everything before it is |
| `AddressParser.SkipTrailing` | AnzenNavi/AnzenNavi/Utilities/AddressParser.swift:75 | the detail ends after the last character that is not white space or newline; everything after it is |
| `AddressParser.TrimIsSlice` | AnzenNavi/AnzenNavi/Utilities/AddressParser.swift:75 | the trimmed detail is one contiguous slice of the untrimmed detail, only white space or newlines are cut on either side, and neither of its ends is white space or newline |
| `AddressParser.Trim` | AnzenNavi/AnzenNavi/Utilities/AddressParser.swift:75 | the trimmed detail has no white space or newline at either end |
| `AddressParser.ParseJapaneseAddress` | AnzenNavi/AnzenNavi/Utilities/AddressParser.swift:18-81 | the function is total; the prefecture is "" or a table entry that prefixes the address; municipality plus untrimmed detail is the remainder |
| `AddressParser.ParseParts` | AnzenNavi/AnzenNavi/Utilities/AddressParser.swift:18-81 | the components are the found prefecture, the split municipality and the trimmed detail, and the detail is trimmed |
| `AddressParser.TownBeforeCityExample` | AnzenNavi/AnzenNavi/Utilities/AddressParser.swift:50-66 | in "東京都本町1丁目八王子市元本郷町3" the split is at 市 even though 町 comes first |
| `Decimal.NatToString` | AnzenNavi/AnzenNavi/Utilities/HierarchicalClusteringManager.swift:85 | a count renders as a non-empty digit string with no leading zero whose decimal value is the count |
| `Decimal.NatToStringInjective` | AnzenNavi/AnzenNavi/Utilities/HierarchicalClusteringManager.swift:98 | different counts render differently |
| `HierarchicalAnnotations.CenterCoordinate` | AnzenNavi/AnzenNavi/Models/HierarchicalAnnotation.swift:59-71 | an empty list gives (35.6895, 139.6917); otherwise the latitude times the count is the sum of latitudes, and the same for longitude |
| `HierarchicalAnnotations.FromShelters` | AnzenNavi/AnzenNavi/Models/HierarchicalAnnotation.swift:19-56 | the convenience initialiser sets the count to the list length, the coordinate to the centroid, keeps the list, and stores the other arguments verbatim |
| `HierarchicalAnnotations.CenterOfOne` | AnzenNavi/AnzenNavi/Models/HierarchicalAnnotation.swift:64-70 | a single shelter's centroid is its own coordinate |
| `HierarchicalAnnotations.SumLatitudesBounded` | AnzenNavi/AnzenNavi/Models/HierarchicalAnnotation.swift:64-67 | the latitude sum lies between count times the lower bound and count times the upper bound |
| `HierarchicalAnnotations.SumLongitudesBounded` | AnzenNavi/AnzenNavi/Models/HierarchicalAnnotation.swift:64-68 | the longitude sum lies between count times the lower bound and count times the upper bound |
| `HierarchicalAnnotations.CenterWithinBounds` | AnzenNavi/AnzenNavi/Models/HierarchicalAnnotation.swift:64-70 | the centroid of a non-empty list lies within any bounds that hold for all its members |
| `HierarchicalAnnotations.CenterOfCoincident` | AnzenNavi/AnzenNavi/Models/HierarchicalAnnotation.swift:64-70 | shelters that all sit at one point have that point as centroid |
| `ShelterAnnotations.ShelterAnnotationOf` | AnzenNavi/AnzenNavi/Models/ShelterAnnotation.swift:15-20 | the pin keeps the shelter, copies its latitude and longitude, and takes its name as title |
| `ShelterAnnotations.ShelterAnnotationOfInjective` | AnzenNavi/AnzenNavi/Models/ShelterAnnotation.swift:15-20 | different shelters give different pins |
| `ClusteringManager.Keys` | AnzenNavi/AnzenNavi/Utilities/HierarchicalClusteringManager.swift:33-50 | every shelter's key is among the dictionary keys |
| `ClusteringManager.MunicipalityKey` | AnzenNavi/AnzenNavi/Utilities/HierarchicalClusteringManager.swift:46 | the bucket key is the prefecture, "_" and the municipality; `MunicipalityTitleOfKey` states how the title is recovered from it |
| `ClusteringManager.Members` | AnzenNavi/AnzenNavi/Utilities/HierarchicalClusteringManager.swift:33-50 | a bucket is non-empty iff some shelter has its key |
| `ClusteringManager.MembersCount` | AnzenNavi/AnzenNavi/Utilities/HierarchicalClusteringManager.swift:33-50 | a bucket holds every shelter with its key, as often as it occurs in the list, and nothing else |
| `ClusteringManager.AddToBucket` | AnzenNavi/AnzenNavi/Utilities/HierarchicalClusteringManager.swift:37-50 | filing a shelter creates its bucket if missing and appends it there, changing no other bucket |
| `ClusteringManager.KeysSnoc` | AnzenNavi/AnzenNavi/Utilities/HierarchicalClusteringManager.swift:40-48 | filing one more shelter adds exactly its key to the dictionary's keys |
| `ClusteringManager.MembersSnoc` | AnzenNavi/AnzenNavi/Utilities/HierarchicalClusteringManager.swift:43-50 | filing one more shelter appends it to the bucket of its key and to no other |
| `ClusteringManager.GroupedSnoc` | AnzenNavi/AnzenNavi/Utilities/HierarchicalClusteringManager.swift:33-51 | grouping a list extended by one shelter is grouping the list, then filing that shelter under its key |
| `ClusteringManager.GroupsPartition` | AnzenNavi/AnzenNavi/Utilities/HierarchicalClusteringManager.swift:30-51 | no bucket is empty, every member has its bucket's key, and every occurrence of a shelter is counted in the bucket of its key |
| `ClusteringManager.BucketSizesSum` | AnzenNavi/AnzenNavi/Utilities/HierarchicalClusteringManager.swift:30-51 | the bucket sizes add up to the number of shelters |
| `ClusteringManager.SplitAtFirst` | AnzenNavi/AnzenNavi/Utilities/HierarchicalClusteringManager.swift:111-112 | splitting at the first separator is the pieces before it followed by the pieces after it |
| `ClusteringManager.SplitOmittingEmpty` | AnzenNavi/AnzenNavi/Utilities/HierarchicalClusteringManager.swift:111 | every piece is non-empty and holds no separator |
| `ClusteringManager.MunicipalityTitleOfKey` | AnzenNavi/AnzenNavi/Utilities/HierarchicalClusteringManager.swift:111-112 | for a prefecture and a municipality that contain no "_", the title of their "pref_muni" key is the municipality when the prefecture is known, and "" when it is empty |
| `ClusteringManager.UnknownPrefectureTitle` | AnzenNavi/AnzenNavi/Utilities/HierarchicalClusteringManager.swift:111-112 | the key "_八王子市" has title "", while "東京都_八王子市" has title "八王子市" |
| `ClusteringManager.MunicipalityTitle` | AnzenNavi/AnzenNavi/Utilities/HierarchicalClusteringManager.swift:111-112 | the title is the second piece of the key, so it holds no "_" |
| `ClusteringManager.BucketSubtitle` | AnzenNavi/AnzenNavi/Utilities/HierarchicalClusteringManager.swift:98 | the cluster subtitle is the bucket size followed by 箇所の避難所; `Decimal.NatToStringInjective` makes it tell sizes apart |
| `ClusteringManager.PrefectureAnnotation` | AnzenNavi/AnzenNavi/Utilities/HierarchicalClusteringManager.swift:95-103 | the prefecture pin of a bucket: title and identifier are the key, built by the convenience initialiser whose fields `HierarchicalAnnotations.FromShelters` states |
| `ClusteringManager.MunicipalityAnnotation` | AnzenNavi/AnzenNavi/Utilities/HierarchicalClusteringManager.swift:110-121 | the municipality pin of a bucket: the title is `MunicipalityTitle` of the key, the identifier is the key, built by the convenience initialiser |
| `ClusteringManager.InRegion` | AnzenNavi/AnzenNavi/Utilities/HierarchicalClusteringManager.swift:72-76 | the filter keeps exactly the pins whose coordinate is in the region |
| `ClusteringManager.SheltersInRegion` | AnzenNavi/AnzenNavi/Utilities/HierarchicalClusteringManager.swift:129-131 | the in-view list is never longer than the list; `SheltersInRegionCount` and `SheltersInRegionAppend` state which shelters it keeps and in what order |
| `ClusteringManager.Limited` | AnzenNavi/AnzenNavi/Utilities/HierarchicalClusteringManager.swift:134-137 | the cap keeps the prefix of length min(n, cap) |
| `ClusteringManager.SheltersInRegionCount` | AnzenNavi/AnzenNavi/Utilities/HierarchicalClusteringManager.swift:129-132 | the in-view list keeps every shelter whose own coordinate is in the region, as often as it occurs, and no other |
| `ClusteringManager.SheltersInRegionAppend` | AnzenNavi/AnzenNavi/Utilities/HierarchicalClusteringManager.swift:129-137 | the filter keeps list order: filtering a concatenation is filtering each part, which fixes which 300 shelters the cap keeps |
| `ClusteringManager.InViewSheltersAreContained` | AnzenNavi/AnzenNavi/Utilities/HierarchicalClusteringManager.swift:129-131 | a shelter is in view iff it is in the list and its coordinate is in the region |
| `ClusteringManager.FiledUnderOwnKeys` | AnzenNavi/AnzenNavi/Utilities/HierarchicalClusteringManager.swift:33-50 | one loop step files the shelter under its parsed prefecture and under its "pref_muni" key, keeping both dictionaries the grouping of the shelters seen so far |
| `ClusteringManager.HierarchicalClusteringManager.constructor` | AnzenNavi/AnzenNavi/Utilities/HierarchicalClusteringManager.swift:12-16 | a new index has no shelters and empty dictionaries |
| `ClusteringManager.HierarchicalClusteringManager.SetShelters` | AnzenNavi/AnzenNavi/Utilities/HierarchicalClusteringManager.swift:19-27 | after setting a list the index holds exactly that list, which the getter returns, and both dictionaries are its grouping |
| `ClusteringManager.HierarchicalClusteringManager.OrganizeByHierarchy` | AnzenNavi/AnzenNavi/Utilities/HierarchicalClusteringManager.swift:30-52 | rebuilding from empty dictionaries leaves the list alone and makes both dictionaries the grouping of the list |
| `ClusteringManager.HierarchicalClusteringManager.GetShelters` | AnzenNavi/AnzenNavi/Utilities/HierarchicalClusteringManager.swift:24-27 | the getter returns the stored list, which `SetShelters` states is the list last set |
| `ClusteringManager.HierarchicalClusteringManager.CountryAnnotation` | AnzenNavi/AnzenNavi/Utilities/HierarchicalClusteringManager.swift:79-91 | the country pin has identifier "japan", coordinate (36.2048, 138.2529), title 日本, count and shelters equal to the whole list |
| `ClusteringManager.HierarchicalClusteringManager.PrefectureAnnotations` | AnzenNavi/AnzenNavi/Utilities/HierarchicalClusteringManager.swift:94-106 | exactly one pin per prefecture bucket whose centroid is in the region, identified by the bucket key and counting the bucket |
| `ClusteringManager.HierarchicalClusteringManager.MunicipalityAnnotations` | AnzenNavi/AnzenNavi/Utilities/HierarchicalClusteringManager.swift:109-124 | exactly one pin per municipality bucket whose centroid is in the region, identified by the bucket key and counting the bucket |
| `ClusteringManager.HierarchicalClusteringManager.IndividualAnnotations` | AnzenNavi/AnzenNavi/Utilities/HierarchicalClusteringManager.swift:127-142 | the pins are the first min(300, n) in-view shelters in list order, each in the list and in the region |
| `ClusteringManager.HierarchicalClusteringManager.GetAnnotations` | AnzenNavi/AnzenNavi/Utilities/HierarchicalClusteringManager.swift:55-69 | the region need only be valid below country level; country gives the single country pin; prefecture and municipality give each pin of the in-view buckets exactly once and nothing else; individual gives the capped in-view single pins, each as often as it occurs, and nothing else |
| `ShelterDataEnhancer.DetermineCapacity` | AnzenNavi/AnzenNavi/Utilities/ShelterDataEnhancer.swift:50-61 | 500 iff the name has 学校, 体育館 or センター; else 200 iff it has 公民館 or 会館; else 1000 iff it has 公園; else none |
| `ShelterDataEnhancer.EnhanceShelter` | AnzenNavi/AnzenNavi/Utilities/ShelterDataEnhancer.swift:16-47 | non-designated shelters are unchanged; designated ones get the six basic facilities, unknown status, no access, phone, notes or update time, and a new capacity only in a city or ward; identity and position never change |
| `ShelterDataEnhancer.InCityOrWard` | AnzenNavi/AnzenNavi/Utilities/ShelterDataEnhancer.swift:22 | a capacity is assigned only when the address contains 市 or 区; `EnhanceShelter` states its use |
| `ShelterDataEnhancer.EnhanceShelterData` | AnzenNavi/AnzenNavi/Utilities/ShelterDataEnhancer.swift:12-16 | the output has the input's length and element i is the enhancement of input element i |
| `ShelterDataEnhancer.EnhanceShelterIdempotent` | AnzenNavi/AnzenNavi/Utilities/ShelterDataEnhancer.swift:16-46 | enhancing a shelter twice is enhancing it once |
| `ShelterDataEnhancer.EnhanceShelterDataIdempotent` | AnzenNavi/AnzenNavi/Utilities/ShelterDataEnhancer.swift:12-47 | enhancing a list twice is enhancing it once |
| `ShelterDataEnhancer.CenterOutranksPark` | AnzenNavi/AnzenNavi/Utilities/ShelterDataEnhancer.swift:50-61 | a name with both センター and 公園 gets 500, by priority |
| `ShelterDataLoader.Load` | AnzenNavi/AnzenNavi/Utilities/ShelterDataLoader.swift:14-45 | a set cache is returned as is; a successful decode returns the enhanced list and caches the raw one; any failure returns [] and leaves the cache unset |
| `ShelterDataLoader.LaterCallsReturnRawList` | AnzenNavi/AnzenNavi/Utilities/ShelterDataLoader.swift:33-36 | after a successful first call, the next call returns the raw, unenhanced list |
| `ShelterDataLoader.LoadAll` | AnzenNavi/AnzenNavi/Utilities/ShelterDataLoader.swift:14-45 | after a run of calls the cache is unset iff it was unset and every call failed; a set cache is never replaced; an unset one ends up holding the raw list of the first successful call |
| `ShelterDataLoader.FailureRetries` | AnzenNavi/AnzenNavi/Utilities/ShelterDataLoader.swift:20-44 | a failed load leaves the cache unset, so the next call behaves as a first call |
| `ShelterDataLoader.Prefix` | AnzenNavi/AnzenNavi/Utilities/ShelterDataLoader.swift:48-51 | the result is the prefix of length min(limit, n) |
| `ShelterDataLoader.ShelterDataLoader.LoadSheltersFromJSON` | AnzenNavi/AnzenNavi/Utilities/ShelterDataLoader.swift:12-45 | the returned list and the new cache are those of the load rule applied to the old cache |
| `ShelterDataLoader.ShelterDataLoader.LoadLimitedSheltersFromJSON` | AnzenNavi/AnzenNavi/Utilities/ShelterDataLoader.swift:48-51 | the result is the prefix of length min(limit, n) of what the full loader returns, with the same effect on the cache |
| `FavoriteShelters.Without` | AnzenNavi/AnzenNavi/Utilities/FavoriteSheltersManager.swift:30-36 | removal drops every occurrence of the id and keeps every other id as often as it occurred; `WithoutAppend` states that their order is kept |
| `FavoriteShelters.WithoutMembership` | AnzenNavi/AnzenNavi/Utilities/FavoriteSheltersManager.swift:30-36 | after removal, an id is listed iff it was listed and is not the removed one |
| `FavoriteShelters.WithoutAppend` | AnzenNavi/AnzenNavi/Utilities/FavoriteSheltersManager.swift:34 | removal works element by element: removing from a concatenation removes from each part, so the remaining ids keep their order |
| `FavoriteShelters.Added` | AnzenNavi/AnzenNavi/Utilities/FavoriteSheltersManager.swift:20-28 | the list after adding extends the old one, and its members are the old members plus the id |
| `FavoriteShelters.Toggled` | AnzenNavi/AnzenNavi/Utilities/FavoriteSheltersManager.swift:43-51 | after a toggle the id is listed iff it was not listed before |
| `FavoriteShelters.AddedKeepsNoDuplicates` | AnzenNavi/AnzenNavi/Utilities/FavoriteSheltersManager.swift:20-28 | adding keeps a duplicate-free list duplicate-free and adds exactly the id to its members |
| `FavoriteShelters.WithoutKeepsNoDuplicates` | AnzenNavi/AnzenNavi/Utilities/FavoriteSheltersManager.swift:30-36 | removing keeps a duplicate-free list duplicate-free |
| `FavoriteShelters.ToggleTwiceRestoresMembership` | AnzenNavi/AnzenNavi/Utilities/FavoriteSheltersManager.swift:43-51 | toggling the same id twice restores the set of listed ids |
| `FavoriteShelters.FavoriteSheltersManager.GetFavorites` | AnzenNavi/AnzenNavi/Utilities/FavoriteSheltersManager.swift:16-18 | [] when nothing is stored, the stored list otherwise |
| `FavoriteShelters.FavoriteSheltersManager.AddFavorite` | AnzenNavi/AnzenNavi/Utilities/FavoriteSheltersManager.swift:20-28 | an absent id is appended and stored; a present one leaves the store untouched |
| `FavoriteShelters.FavoriteSheltersManager.RemoveFavorite` | AnzenNavi/AnzenNavi/Utilities/FavoriteSheltersManager.swift:30-36 | the stored list becomes the old list without the id |
| `FavoriteShelters.FavoriteSheltersManager.IsFavorite` | AnzenNavi/AnzenNavi/Utilities/FavoriteSheltersManager.swift:38-41 | true iff the id is in the stored list |
| `FavoriteShelters.FavoriteSheltersManager.ToggleFavorite` | AnzenNavi/AnzenNavi/Utilities/FavoriteSheltersManager.swift:43-51 | returns the negation of the old membership, which is the new membership, and the list is the old one with the id added or removed |
| `PhoneNumberFormat.Digits` | AnzenNavi/AnzenNavi/Views/Auth/PhoneNumberLoginView.swift:206 | the first step yields only digit characters and never lengthens the input; `DigitsCount` and `DigitsOfOne` state that it keeps exactly the digits |
| `PhoneNumberFormat.ApplyPatternOnNumbers` | AnzenNavi/AnzenNavi/Views/Auth/PhoneNumberLoginView.swift:205-218 | the loop with its early return computes the recursive definition of the formatter |
| `PhoneNumberFormat.FormatFrom` | AnzenNavi/AnzenNavi/Views/Auth/PhoneNumberLoginView.swift:207-217 | the loop from one pattern position on, as a recursive definition; `FormatLengthBounds`, `LiteralsInPlace` and `FormatKeepsLast` state its results |
| `PhoneNumberFormat.ApplyPattern` | AnzenNavi/AnzenNavi/Views/Auth/PhoneNumberLoginView.swift:205-218 | the formatter applied to the digits of the input; the lemmas below state its properties |
| `PhoneNumberFormat.DigitsAppend` | AnzenNavi/AnzenNavi/Views/Auth/PhoneNumberLoginView.swift:206 | keeping digits distributes over concatenation, so digits keep their order |
| `PhoneNumberFormat.DigitsCount` | AnzenNavi/AnzenNavi/Views/Auth/PhoneNumberLoginView.swift:206 | every digit of the input is kept as often as it occurs, and every other character is dropped |
| `PhoneNumberFormat.DigitsOfOne` | AnzenNavi/AnzenNavi/Views/Auth/PhoneNumberLoginView.swift:206 | a single character is kept iff it is a digit; with `DigitsAppend` this fixes the filter on every string |
| `PhoneNumberFormat.DigitsOfDigits` | AnzenNavi/AnzenNavi/Views/Auth/PhoneNumberLoginView.swift:206 | a digit string is its own digit string |
| `PhoneNumberFormat.OnlyDigitsMatter` | AnzenNavi/AnzenNavi/Views/Auth/PhoneNumberLoginView.swift:206-217 | the result depends only on the input's digits |
| `PhoneNumberFormat.ResultDigitsAreInputDigits` | AnzenNavi/AnzenNavi/Views/Auth/PhoneNumberLoginView.swift:206-217 | when the pattern's literals are not digits, deleting them from the result gives back the input's digits, including those past the pattern |
| `PhoneNumberFormat.FormatIdempotent` | AnzenNavi/AnzenNavi/Views/Auth/PhoneNumberLoginView.swift:206-217 | when the pattern's literals are not digits, formatting a formatted number changes nothing |
| `PhoneNumberFormat.LiteralsInPlace` | AnzenNavi/AnzenNavi/Views/Auth/PhoneNumberLoginView.swift:212-215 | at every processed pattern position holding a literal, the result holds that literal |
| `PhoneNumberFormat.EndsWithLastDigit` | AnzenNavi/AnzenNavi/Views/Auth/PhoneNumberLoginView.swift:208-215 | a result with digits ends with the input's last digit, never with an inserted literal |
| `PhoneNumberFormat.ResultLength` | AnzenNavi/AnzenNavi/Views/Auth/PhoneNumberLoginView.swift:207-215 | the result is at least as long as the digits and at most the number of pattern literals longer |
| `PhoneNumberFormat.SmallPatternExample` | AnzenNavi/AnzenNavi/Views/Auth/PhoneNumberLoginView.swift:205-218 | "12345" with pattern "##-##" formats as "12-345": the dash is placed and the digit past the pattern is kept |
| `PhoneNumberFormat.PhoneLoginState.constructor` | AnzenNavi/AnzenNavi/Views/Auth/PhoneNumberLoginView.swift:15-20 | the login view starts with +1, the US flag, the pattern "### ### ####", an empty number and a closed sheet |
| `PhoneNumberFormat.PhoneLoginState.SelectCountry` | AnzenNavi/AnzenNavi/Views/Auth/PhoneNumberLoginView.swift:197-203 | flag, code and pattern come from the chosen country, the sheet closes, the search clears, and the number is kept |
| `PhoneNumberFormat.PhoneLoginState.ReformatNumber` | AnzenNavi/AnzenNavi/Views/Auth/PhoneNumberLoginView.swift:91-93 | the number is replaced by its formatting under the current pattern and nothing else changes |
| `SlideUpMenu.AfterDragChange` | AnzenNavi/Views/ContentView.swift:119-123 | the state changes iff the drag is upward while closed, and then becomes half-open |
| `SlideUpMenu.AfterDragEnd` | AnzenNavi/Views/ContentView.swift:125-131 | below -200 closed opens halfway and anything else opens fully; above 200 open goes half-open and anything else closes; otherwise no change |
| `SlideUpMenu.TwoUpwardDragsOpen` | AnzenNavi/Views/ContentView.swift:126-127 | two drag ends below -200 reach open from any state, and open stays open |
| `SlideUpMenu.DragEndIsMonotone` | AnzenNavi/Views/ContentView.swift:125-131 | an upward drag end never closes the menu further, and a downward one never opens it further |
| `SlideUpMenu.OffsetsOrdered` | AnzenNavi/Views/ContentView.swift:133-142 | on a screen taller than 360, open sits above half-open, which sits above closed |
| `SlideUpMenu.Offset` | AnzenNavi/Views/ContentView.swift:133-142 | the menu offset of each state; `OffsetsOrdered` states that open sits above half-open, which sits above closed |
| `SlideUpMenu.MenuController.HandleDragChange` | AnzenNavi/Views/ContentView.swift:119-123 | the new state is the drag-change transition of the old one |
| `SlideUpMenu.MenuController.HandleDragEnd` | AnzenNavi/Views/ContentView.swift:125-131 | the new state is the drag-end transition of the old one |
| `SlideUpMenu.MenuController.MenuOffset` | AnzenNavi/Views/ContentView.swift:133-142 | closed gives h - 100, half-open gives h - 300, open gives 60 |

## Left out

- Floating point: coordinates, spans, zoom and drag amounts are exact reals. NaN, infinities and rounding in the centroid sums and divisions are not modelled.
- Strings are sequences of Unicode scalars. Swift's `hasPrefix`, `range(of:)` and `replacingOccurrences` compare by canonical equivalence over grapheme clusters; the model compares characters exactly.
- Dictionary iteration order is unspecified in Swift. `GetAnnotations` therefore returns a multiset of pins rather than an ordered array, and the prefecture and municipality queries return sets.
- `ClusteringManager.HierarchicalClusteringManager.OrganizeByHierarchy` builds both dictionaries in local variables and stores them once at the end. The intermediate dictionaries that other code could observe between appends are not modelled; nothing in the class runs concurrently with the loop.
- `ClusteringManager.Members`: order within a bucket is kept by construction, as an order-preserving filter of the list that the loop is proved to produce; `MembersSnoc` states the append order, and no separate lemma restates the order of a whole bucket.
- The zoom-from-map-width computation (`currentZoomLevel`, a `log2` formula) is floating-point numerics, and it is defined in the map views, which are not part of this model.
- The duplicate `contains` in AnzenNavi/AnzenNavi/Views/Map/MapView.swift:95-108 is identical to the extension and is modelled once.
- `getAllFacilities` (ShelterDataEnhancer.swift:70-72) returns `Facility.allCases`; the declaration of the `Facility` enum is not part of this model, so its case list is unknown.
- JSON and bundle I/O: `Bundle.main.url`, `Data(contentsOf:)` and `JSONDecoder` are abstracted as a `DecodeOutcome` input (resource missing, decode failed, or a decoded dictionary).
- `ShelterDataLoader.ShelterDataLoader.LoadLimitedSheltersFromJSON` requires a non-negative limit: with a negative one, `prefix` receives a negative length and traps, and the model does not represent the trap.
- `ShelterDataLoader.ShelterDataLoader.LoadLimitedSheltersFromJSON` takes the limit as an explicit argument; the source's default value of 1000 is not modelled, because Dafny has no default arguments.
- The shelter cache is a per-loader field in the model; in the source it is a static field shared by the whole process.
- UserDefaults persistence is a field holding the stored list, or nothing when no list was ever stored.
- `PhoneNumberFormat.ApplyPatternOnNumbers`: the source inserts at an index computed from a UTF-16 offset into the pattern. The model assumes one UTF-16 unit per character in the pattern and the number. This holds for patterns made of digits and ASCII punctuation; the country list that supplies the patterns is not part of this model, so this is an assumption about it.
- `filteredCountries` depends on locale-aware `localizedCaseInsensitiveContains`, and the country list is loaded from a bundle file; neither is modelled.
- Authentication (Firebase, Sign in with Apple), Firestore profiles, location services, MapKit delegates, routing and all pure view layout are foreign calls or presentation and are left out.
