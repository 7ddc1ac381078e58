# Groupie tracker: artist cache, search and request checks

A model, in Dafny, of the logic inside a small Go web application that shows
music artists from an upstream REST API. The model covers three parts.

- **Search engine** (`handlers/search.go`). Five field scanners run over the
  in-memory artist cache `AllArtistInfo`: artist name, location, creation
  year, first album and members. They test a lower-cased query for
  substring containment. `SearchHandler` merges their outputs in a fixed
  order. It deduplicates on (type, id, context), keeps at most ten results
  and stops as soon as ten are in.
- **Page handlers** (`handlers/handlers.go`).
  - `DateHandler` and `LocationHandler` check the path, then the method, then
    the id, and only then ask the upstream. The id must lie in 1..52.
  - `HomepageHandler` fills the empty cache once from the artist list.
  - `ArtistHandler` fetches the artist's relation map and writes it into one
    cache entry in place.
- **Record selection** (`src/fetch.go`).
  - `FetchLocations` picks the first decoded record with the parsed id.
  - `FetchDates` and `FetchDatesAndConcerts` pick the last record whose
    id, written out by `strconv.Itoa`, equals the id string.
  - `FetchDates` strips a leading `*` from each date.

The Dafny modules follow the Go packages:

- `Wrappers` holds `Option`, and `Result` with a `Panic` outcome for a Go
  runtime panic.
- `Strings` holds ASCII `ToLower` and `Contains`.
- `Strconv` holds `Itoa` and `Atoi`. `Atoi` follows Go's digit scan: text
  that is not an optional sign and digits gives 0, a value outside int64
  clamps to its nearest end, and a leading digit run that overflows uint64
  (exceeds 2^64-1) before a later bad character still clamps.
- `Models` holds the records of `models/structs.go`.
- `Fetch`, `Search` and `Handlers` hold the operations.

Loops in the source are methods with loop invariants. Each is proved equal
to a specification function, and the properties are lemmas about those
functions.

- **The cache.** `AllArtistInfo` is the field of class `Handlers.Server`.
  Its handlers are methods that change it. Search only reads the cache, so
  the search methods receive its current value as a parameter.
- **Go maps.** A Go map (`DatesLocations`) is the sequence of its entries.
  The order of that sequence stands for Go's unspecified iteration order.
- **Upstream.** Every upstream download arrives already decoded, as a
  parameter of type `Result`.
- **Replies.** A handler's reply is the page it would render (with the value
  its template receives) or the error status it answers.

Behaviour of the code worth noting:

- A query made only of blanks is searched. Only an empty `q` returns the
  empty success.
- A search that finds nothing for a non-empty query returns `"results":
  null`, because a nil Go slice encodes as `null`. Only the empty query gets
  `[]`.
- The per-scanner cap of 10 does not hold for `searchMembers`
  (`Search.MemberCapLeaks`). The global cap still holds.
- `ArtistHandler` fetches the relations before it validates the id. An
  upstream failure therefore answers 500 even for an id that is out of
  range or not a number.
- Nothing checks the id against the cache length. With a cache shorter than
  the id, `ArtistHandler` panics on the index.
- An id whose leading digit run overflows uint64 (exceeds 2^64-1) reads
  as MaxInt64 (or MinInt64 with a minus sign) even when a non-digit
  follows, so it is refused as out of range rather than as non-numeric. A
  run between MaxInt64 and 2^64-1 followed by a non-digit reads as 0.
  Either way the answer is 400.
- The scanners produce the types "artist", "location", "creation",
  "First Album" and "member". No date scanner exists.

## Model

| member | source | states |
|---|---|---|
| Strings.ToLower | handlers/search.go:52 | ASCII lower-casing keeps the length |
| Strings.ToLowerAt | handlers/search.go:52 | lower-casing lowers each character where it stands, independently of the others |
| Strings.Contains | handlers/search.go:52 | a needle occurs in a string when it starts at some offset; the empty needle occurs everywhere and a longer one nowhere |
| Strings.ToLowerIdempotent | handlers/search.go:52 | lower-casing twice is lower-casing once |
| Strings.ContainsLowered | handlers/search.go:95 | a case-sensitive occurrence is also a case-insensitive one |
| Strconv.Atoi | handlers/handlers.go:34 | Atoi's value always lies within int64 |
| Strconv.ScanUintSpec | handlers/handlers.go:34 | the digit scan fails with a range error as soon as the leading digit run exceeds 2^64-1, else with a syntax error when a non-digit follows the run, else gives the run's value |
| Strconv.AtoiWellFormed | handlers/handlers.go:34 | an optional sign followed by digits reads as its value clamped to int64 |
| Strconv.AtoiMalformed | handlers/handlers.go:34 | any other text reads as 0, unless its leading digit run after the sign already exceeds 2^64-1, which clamps by the sign |
| Strconv.NinesThenJunk | handlers/handlers.go:34 | twenty nines and then a non-digit read as MaxInt64, not 0 |
| Strconv.AtoiOverflowBeforeJunk | handlers/handlers.go:34 | the id "99999999999999999999x" reads as MaxInt64 |
| Strconv.NineteenNinesThenJunk | handlers/handlers.go:34 | nineteen nines (above MaxInt64, within uint64) and then a non-digit read as 0 |
| Strconv.AtoiUintRangeThenJunk | handlers/handlers.go:34 | the id "9999999999999999999x" reads as 0 although its digits exceed MaxInt64 |
| Strconv.Itoa | src/fetch.go:91 | Itoa writes a minus sign exactly for negative numbers, followed by decimal digits only |
| Strconv.AtoiItoa | handlers/handlers.go:34 | Atoi inverts Itoa on the int64 range |
| Strconv.ItoaInjective | src/fetch.go:91-92 | distinct ids have distinct decimal strings |
| Strconv.ItoaCanonical | src/fetch.go:91-92 | Itoa never writes a leading '+', a leading '0' other than "0" itself, or "-0" |
| Fetch.FirstIndex | src/fetch.go:54-60 | the first position holding the value, or none when no position does |
| Fetch.LastIndex | src/fetch.go:90-95 | the last position holding the value, or none when no position does |
| Fetch.LastCanonical | src/fetch.go:90-95 | compared through Itoa, the canonical string of n selects the last position holding n |
| Fetch.LastCanonicalMissing | src/fetch.go:90-95 | compared through Itoa, the canonical string of n selects nothing when no position holds n |
| Fetch.FetchLocations | src/fetch.go:29-62 | the loop with its break returns the first decoded record with artist id Atoi(id), the zero Location when there is none, and passes a download or decode failure through |
| Fetch.FetchDates | src/fetch.go:64-104 | the selection loop keeps the last record whose Itoa(id) equals the id string, then strips its dates; a failure passes through |
| Fetch.StripStarsInPlace | src/fetch.go:97-101 | the in-place loop panics exactly when some date is empty, and otherwise leaves the array equal to StripStars of its old contents |
| Fetch.FetchDatesAndConcerts | src/fetch.go:106-140 | the selection loop keeps the places of the last relation record whose Itoa(id) equals the id string, and nil when there is none |
| Fetch.StripStars | src/fetch.go:97-101 | stripping keeps the number of dates |
| Fetch.StripStarsAt | src/fetch.go:97-101 | every date starting with '*' loses exactly its first character, and every other date is unchanged |
| Fetch.RestoreStrippedStars | src/fetch.go:97-101 | putting '*' back on the marked dates recovers the upstream list (round trip) |
| Fetch.DoubleStarKeepsOne | src/fetch.go:98-99 | "**x" becomes "*x": only one marker is removed |
| Fetch.LocationForSpec | src/fetch.go:52-61 | FetchLocations selects the first record with the parsed id |
| Fetch.LocationForMissing | src/fetch.go:50-61 | with no such record FetchLocations selects the zero Location, so "not found" looks like "empty" |
| Fetch.DateForCanonical | src/fetch.go:86-95 | for a canonical id, FetchDates selects the last record with that id |
| Fetch.PlacesForCanonical | src/fetch.go:130-139 | for a canonical id, FetchDatesAndConcerts selects the places of the last relation with that id |
| Fetch.CanonicalIdMissing | src/fetch.go:86-95 | with no record for the id, the zero Date and the nil map are selected |
| Fetch.NonCanonicalIdSelectsNothing | src/fetch.go:91-92 | an id string Itoa never writes selects nothing, whatever the upstream lists hold |
| Fetch.LeadingZeroId | src/fetch.go:52-58 | "01" reads as 1 and finds artist 1's locations, but finds no dates and no relations |
| Search.NameById | handlers/search.go:28-35 | getArtistNameById gives the name of the first entry with the id, and "" when there is none |
| Search.CreationById | handlers/search.go:38-45 | getArtistCreationbyId gives the decimal creation year of the first entry with the id, and "" when there is none |
| Search.GetArtistNameById | handlers/search.go:28-35 | the early-return loop computes NameById |
| Search.GetArtistCreationById | handlers/search.go:38-45 | the early-return loop computes CreationById |
| Search.LookupsOnEmptyCache | handlers/search_test.go:17-18 | on an empty cache both lookups give "" |
| Search.ScanField | handlers/search.go:48-110 | the shared scan loop returns the first ten hits of the field, in cache order |
| Search.SearchArtists | handlers/search.go:48-66 | searchArtists returns the capped name hits |
| Search.SearchCreations | handlers/search.go:69-88 | searchCreations returns the capped creation-year hits |
| Search.SearchFirstAlbum | handlers/search.go:91-110 | searchFirstAlbum returns the capped first-album hits |
| Search.Cap | handlers/search.go:60-62 | the capped list is a prefix of the hits, of length min(10, number of hits) |
| Search.FieldHitsExactly | handlers/search.go:51-59 | a result is a field hit exactly when some cache entry produces it |
| Search.FieldHitsSound | handlers/search.go:51-59 | every field hit is produced by some cache entry |
| Search.FieldHitsComplete | handlers/search.go:51-59 | every cache entry that matches has its result among the field hits |
| Search.ArtistHits | handlers/search.go:51-59 | name hits are exactly the entries whose lower-cased name contains the lower-cased query, as ("artist", Id, Name, "") |
| Search.CreationHits | handlers/search.go:72-81 | creation hits are exactly the entries whose decimal year contains the query, with that year as context |
| Search.FirstAlbumHits | handlers/search.go:94-103 | album hits are exactly the entries whose album, not lower-cased, contains the query, with the album as context |
| Search.FirstAlbumCaseSensitive | handlers/search.go:95 | every album hit is also a case-insensitive match, but the album "Queen" is missed by the query "Queen" |
| Search.FieldHitsAppend | handlers/search.go:51-64 | the hits of a concatenated cache are the concatenated hits |
| Search.ArtistSearchEen | handlers/search_test.go:52-83 | on the three test artists, "een" finds exactly Queen |
| Search.ArtistSearchBeatles | handlers/search_test.go:52-83 | "beatles" finds exactly The Beatles |
| Search.ArtistSearchUnknown | handlers/search_test.go:52-83 | "unknown" finds nothing |
| Search.SearchMembers | handlers/search.go:113-136 | the nested loop, whose break leaves only the member loop, computes MemberScan |
| Search.MemberStepShape | handlers/search.go:118-131 | one artist's member loop appends a prefix of that artist's member hits (all of them below the cap) and, started below the cap, stops at ten |
| Search.MemberStepAfterCap | handlers/search.go:118-131 | once ten results are in, an artist adds at most its first member, and only if that member matches |
| Search.MemberScanExtends | handlers/search.go:116-133 | searchMembers only appends |
| Search.MemberScanPrefix | handlers/search.go:113-136 | up to the cap the output is exactly the (artist, matching member) pairs in cache then member order; below the cap it is all of them |
| Search.MemberScanBound | handlers/search.go:113-136 | the output is bounded only by 9 plus one per artist |
| Search.MemberCapLeaks | handlers/search.go:128-131 | ten matching members and one more artist with a matching first member give 11 results |
| Search.SearchLocations | handlers/search.go:139-207 | searchLocations over the two decoded lists computes LocationsOutput; either failure fails the scanner |
| Search.ScanRelations | handlers/search.go:155-168 | the relation loop appends every matching place of every record, with no dedup |
| Search.ScanPlaces | handlers/search.go:157-166 | one record's place loop appends exactly that record's matching places, in order |
| Search.ScanLocationRecords | handlers/search.go:182-204 | the locations loop computes LocationScan |
| Search.HasLocation | handlers/search.go:187-193 | the duplicate test is true exactly when an earlier result has the same artist id and location |
| Search.RelationHitsExactly | handlers/search.go:155-168 | a relation hit is exactly a matching place of some relation record, named by NameById |
| Search.LocationScanSpec | handlers/search.go:182-204 | the locations half only appends, never repeats an (id, location) already present, appends only matching locations of some record, and represents every matching location |
| Search.LocationStepSpec | handlers/search.go:183-201 | one record's location loop only appends, never repeats an (id, location), appends only matching locations of that record, and represents each of its matching locations |
| Search.SearchLocationsSpec | handlers/search.go:139-207 | relation hits come first and unfiltered; the locations-list hits after them repeat no (id, location); nothing is capped |
| Search.RunScanner | handlers/search.go:228-239 | each entry of the scanner list runs its scanner |
| Search.MergeResults | handlers/search.go:246-264 | the inner merge loop computes MergeInto |
| Search.HasKey | handlers/search.go:247-255 | the duplicate test is true exactly when an earlier result has the same (type, id, context) |
| Search.SearchHandler | handlers/search.go:210-281 | the handler's loops compute SearchReply |
| Search.MergeIntoSpec | handlers/search.go:246-264 | one scanner's merge keeps what was there, then appends a subsequence of that scanner's results: no duplicate key, never past ten, and, ending below ten, every result of the scanner represented |
| Search.MergeIntoExtends | handlers/search.go:246-264 | the merge keeps what was there and appends a subsequence of the scanner's results |
| Search.MergeIntoBound | handlers/search.go:246-264 | started below ten, the merge never passes ten |
| Search.MergeIntoUnique | handlers/search.go:247-258 | the merge keeps (type, id, context) keys unique |
| Search.MergeIntoCoversAll | handlers/search.go:246-264 | ending below ten, every result of the scanner has its key in the output |
| Search.DedupKeysSpec | handlers/search.go:246-258 | keeping the first result per (type, id, context) yields unique keys, represents every key of the input, and keeps input order |
| Search.DedupKeysPrefix | handlers/search.go:246-258 | results read later never change the ones kept earlier |
| Search.DedupKeysOfUnique | handlers/search.go:246-258 | a sequence with unique keys is kept whole |
| Search.MergeIntoDedup | handlers/search.go:246-264 | one scanner's merge yields the first ten of the deduplicated results read so far |
| Search.MergeDedup | handlers/search.go:237-269 | the whole merge yields the first ten of the deduplicated concatenation of the successful outputs |
| Search.MergeShape | handlers/search.go:237-269 | the whole merge keeps at most ten results with unique keys, a subsequence of the outputs in order; ending below ten, every candidate is represented |
| Search.MergeSpec | handlers/search.go:237-269 | the merge's results are exactly the first ten of the starting results followed by the scanner outputs in order, after dropping each result whose key appeared earlier; hence at most ten, unique keys, in order, and every candidate represented when fewer than ten |
| Search.SearchResultsSpec | handlers/search.go:228-274 | a successful reply to a non-empty query holds exactly the first ten of the deduplicated concatenation of artists, locations, creations, first album and members (null when there are none): unique keys, in scanner order, and every candidate represented when fewer than ten; the final truncation cuts nothing |
| Search.SearchEntryChecks | handlers/search.go:211-223 | non-GET answers 405 before any search; an empty q answers success with an empty list; a non-empty q never gets that empty list |
| Search.SearchFailure | handlers/search.go:237-243 | the search answers 500 exactly when searchLocations fails and the name results had not already filled ten places |
| Search.SearchStopsAtCap | handlers/search.go:266-268 | once the name scanner fills ten places, the reply is those ten and does not depend on the upstream lists at all |
| Search.NothingFoundIsNull | handlers/search.go:225-281 | a non-empty query on an empty cache gives "results": null; the empty query gives [] |
| Search.SearchReadsOnlyView | handlers/search.go:28-207 | two caches that agree on name, id, members, creation year and first album get the same reply to every search |
| Handlers.Server.HomepageHandler | handlers/handlers.go:177-207 | the handler's checks and its append loop leave the page and the new cache that Home gives for the old cache |
| Handlers.Server.ArtistHandler | handlers/handlers.go:120-160 | the handler's steps leave the page and the new cache that ArtistVisit gives for the old cache |
| Handlers.ValidIdSpec | handlers/handlers.go:32-39 | the id check accepts exactly ids that parse to a number from 1 to 52; a non-numeric id is refused |
| Handlers.ValidItoa | handlers/handlers.go:34-36 | on canonical ids the check accepts exactly 1..52 |
| Handlers.DateHandler | handlers/handlers.go:21-66 | a dates page is rendered exactly when path, method and id pass and the upstream list arrives with no empty date in the selected record; it shows a record whose Itoa(id) is the requested id (or the zero Date), whose dates come back when the stripped markers are restored |
| Handlers.DateChecksFirst | handlers/handlers.go:21-46 | 404 exactly on a wrong path; 405 exactly on a non-GET to /dates; 400 exactly on a bad id; 500 exactly on an upstream error after all checks pass; a failed check never depends on the upstream |
| Handlers.DatesPageShowsLastMatch | handlers/handlers.go:41-61 | the dates page shows the last record with the id, its starred dates stripped |
| Handlers.DatesPageForMissingArtist | handlers/handlers.go:41-61 | a valid id with no record renders an empty dates page with status 200 |
| Handlers.LocationHandler | handlers/handlers.go:68-118 | a locations page is rendered exactly when path, method and id pass and the upstream list arrives; it shows an upstream record of the artist Atoi reads from the id, or the zero Location |
| Handlers.LocationChecksFirst | handlers/handlers.go:68-97 | the same order as DateHandler; the explicit empty-id check refuses nothing the number check would accept |
| Handlers.LocationsPageShowsFirstMatch | handlers/handlers.go:92-113 | the locations page shows the first record with the parsed id |
| Handlers.LocationsPageForMissingArtist | handlers/handlers.go:92-113 | a valid id with no record renders the zero Location |
| Handlers.LeadingZeroIdPages | handlers/handlers.go:32-41 | "01" passes both checks; the locations page shows artist 1, and the dates page is empty |
| Handlers.DateHandlerCases | handlers/handlers_test.go:14-93 | the six rows of TestDateHandler: 200, 404, 405, 400, 400, 500 |
| Handlers.LocationHandlerCases | handlers/handlers_test.go:95-175 | the six rows of TestLocationHandler: 200, 404, 405, 400, 400, 500 |
| Handlers.PopulateFromEmpty | handlers/handlers.go:188-207 | an empty cache and a successful fetch: one entry per artist in fetch order, six fields copied, the three enrichment fields empty |
| Handlers.PopulateOnlyWhenEmpty | handlers/handlers.go:178-188 | a non-empty cache, or a wrong path or method, means no fetch and no change to the cache |
| Handlers.PopulateRetries | handlers/handlers.go:188-195 | a failed or empty fetch leaves the cache empty, so the next request fetches again as if nothing had happened |
| Handlers.PopulateOnce | handlers/handlers.go:188 | once filled, the cache is left as it is by later homepage requests |
| Handlers.ArtistFetchesBeforeValidating | handlers/handlers.go:131-144 | an upstream error answers 500 even for the id "100", which DateHandler refuses with 400 |
| Handlers.ArtistEnrichesOneEntry | handlers/handlers.go:145-160 | with a valid id within the cache, only DateAndLocation of entry id-1 changes, to the fetched map; every other entry and field stays; the page shows that entry |
| Handlers.ArtistShowsLastRelation | handlers/handlers.go:133-157 | for a canonical id n, entry n-1 receives the places of the last relation record with id n |
| Handlers.ArtistPastCacheEndPanics | handlers/handlers.go:157 | an id beyond the cache length panics and leaves the cache unchanged |
| Handlers.ArtistOnEmptyCache | handlers/handlers.go:149-155 | with an empty cache the request is answered by the homepage, which fills the cache, and no entry is enriched |
| Handlers.ArtistRevisitOverwrites | handlers/handlers.go:157 | two visits leave the cache as the second alone would (when its fetch succeeds): overwrite, not accumulate |
| Handlers.ArtistVisitsCommute | handlers/handlers.go:157 | visits to different ids commute on the cache |
| Handlers.ArtistVisitInvisibleToSearch | handlers/handlers.go:157 | on a non-empty cache, an artist visit never changes the reply to any search |

## Left out

- Network and decoding. The HTTP GETs, body reads and JSON decoding in src/fetch.go and in searchLocations are not modelled. Their outcome is a `Result` parameter, so "unreachable" and "malformed" are the same `Err`.
- FetchArtists is not modelled beyond its outcome. It has no logic besides the download.
- Go map iteration order. A relation record's places are a sequence in some fixed order, so nothing is stated about the order among relation hits beyond that order.
- Rendering. Template parsing and execution, renderErrorPage and its helpers, the TEST_MODE branch, the JSON encoding and the Content-Type header are not modelled. A page is the value its template would receive, and an error page is its status.
- Template errors after a successful check (500 from a missing template, a logged execution error) are not modelled.
- The package-level `Data` variable of src/fetch.go. It is written and never read.
- The slice aliasing in FetchDates is not modelled. The strip loop writes into the decoded list's backing array, which nothing reads afterwards. The model copies the selected dates into a fresh array and strips them there.
- Concurrency. Requests are sequential. Races on `AllArtistInfo` during population or enrichment are not modelled.
- Unicode. `strings.ToLower` is modelled on ASCII letters only; every other character is kept.
- `r.FormValue("id")` in DateHandler also reads a POST body. The handler refuses non-GET requests first, so it is modelled as the query parameter.
- Routing. main.go only wires routes and never registers `/search`. static/script.js is browser code.
- Panics. net/http recovering a panicking request is reduced to the `Aborted` reply, with no status code.
