/** The page handlers of handlers/handlers.go: the checks that choose
    between the error pages and a rendered page, and the artist cache
    `AllArtistInfo` that the homepage fills and the artist page enriches.
    Each handler receives what its upstream call would return, already
    decoded, as a parameter; rendering is reduced to the value a template
    would be given. */
module Handlers {
  import opened Wrappers
  import opened Strconv
  import opened Models
  import opened Fetch
  import Search

  /** The parts of a request the handlers read; `id` is the query
      parameter "id" ("" when it is absent). */
  datatype Request = Request(path: string, httpMethod: string, id: string)

  /** What a handler answers: an error page with its status, a rendered
      page with the value its template receives, or `Aborted` when the
      request's goroutine panicked. */
  datatype Page =
    | NotFound            // 404
    | MethodNotAllowed    // 405
    | BadRequest          // 400
    | InternalError       // 500
    | Aborted
    | DatesPage(date: Date)
    | LocationsPage(location: Location)
    | ArtistPage(artist: Data)
    | HomePage(artists: seq<Data>)

  /** The upstream API numbers its artists 1 to 52. */
  const MaxArtistId: int := 52

  /** The id check of the three detail handlers on `strconv.Atoi`'s value,
      which is 0 for an id that does not parse. */
  predicate ValidId(id: string) {
    0 < Atoi(id) <= MaxArtistId
  }

  // ---------------------------------------------------------------------
  // DateHandler and LocationHandler

  /** DateHandler: path, then method, then id, then the upstream dates. A
      page is rendered exactly when the three checks pass and the upstream
      list arrives with no empty date in the selected record; the page
      shows the record whose id Itoa writes as the requested id (the zero
      Date when there is none), each date with its `*` marker removed. */
  function DateHandler(req: Request, decoded: Result<seq<Date>>): (p: Page)
    ensures p.DatesPage? <==>
              req.path == "/dates" && req.httpMethod == "GET" && ValidId(req.id)
              && decoded.Ok? && NoEmptyDate(DateFor(decoded.value, req.id).dates)
    ensures p.DatesPage? ==>
              var d := DateFor(decoded.value, req.id);
              (d == ZeroDate || (d in decoded.value && Itoa(d.id) == req.id))
              && p.date.id == d.id && |p.date.dates| == |d.dates|
              && RestoreStars(p.date.dates, StarMask(d.dates)) == d.dates
  {
    if req.path != "/dates" then NotFound
    else if req.httpMethod != "GET" then MethodNotAllowed
    else if !ValidId(req.id) then BadRequest
    else match DatesResult(decoded, req.id)
      case Err(_) => InternalError
      case Panic => Aborted
      case Ok(d) =>
        RestoreStrippedStars(DateFor(decoded.value, req.id).dates);
        DatesPage(d)
  }

  /** LocationHandler: as DateHandler, with an explicit check for a
      missing id before the number check. A page is rendered exactly when
      the checks pass and the upstream list arrives; it shows a record of
      the artist Atoi reads from the id, or the zero Location. */
  function LocationHandler(req: Request, decoded: Result<seq<Location>>): (p: Page)
    ensures p.LocationsPage? <==>
              req.path == "/locations" && req.httpMethod == "GET" && ValidId(req.id) && decoded.Ok?
    ensures p.LocationsPage? ==>
              p.location == ZeroLocation || (p.location in decoded.value && p.location.artistId == Atoi(req.id))
  {
    if req.path != "/locations" then NotFound
    else if req.httpMethod != "GET" then MethodNotAllowed
    else if req.id == "" then BadRequest
    else if !ValidId(req.id) then BadRequest
    else match LocationsResult(decoded, req.id)
      case Err(_) => InternalError
      case Panic => Aborted
      case Ok(l) => LocationsPage(l)
  }

  // ---------------------------------------------------------------------
  // The artist cache

  /** A page together with the cache it leaves behind. */
  datatype Outcome = Outcome(page: Page, cache: seq<Data>)

  /** The cache entry HomepageHandler builds for one artist: six fields
      copied, the three enrichment fields left empty. */
  function Summary(a: Artist): Data {
    Data(a.name, a.id, a.image, a.members, a.creationDate, a.firstAlbum, [], [], [])
  }

  function Summaries(artists: seq<Artist>): (r: seq<Data>)
    ensures |r| == |artists|
  {
    seq(|artists|, k requires 0 <= k < |artists| => Summary(artists[k]))
  }

  /** HomepageHandler on cache `cache`; `artists` is what FetchArtists
      would return, and it is consulted only when the cache is empty. */
  function Home(cache: seq<Data>, req: Request, artists: Result<seq<Artist>>): Outcome {
    if req.path != "/" then Outcome(NotFound, cache)
    else if req.httpMethod != "GET" then Outcome(MethodNotAllowed, cache)
    else if cache != [] then Outcome(HomePage(cache), cache)
    else match artists
      case Err(_) => Outcome(InternalError, cache)
      case Panic => Outcome(Aborted, cache)
      case Ok(list) => Outcome(HomePage(Summaries(list)), Summaries(list))
  }

  /** `AllArtistInfo[idx].DateAndLocation = places`. */
  function Enrich(cache: seq<Data>, idx: nat, places: DatesLocations): seq<Data>
    requires idx < |cache|
  {
    cache[idx := cache[idx].(dateAndLocation := places)]
  }

  /** ArtistHandler on cache `cache`: the relations are fetched before the
      id is checked; an empty cache hands the request to the homepage
      (which fills the cache) without enriching anything; an id past the
      end of the cache panics at the index. */
  function ArtistVisit(cache: seq<Data>, req: Request, relations: Result<seq<DatesLocation>>,
                       artists: Result<seq<Artist>>): Outcome {
    if req.path != "/artist" then Outcome(NotFound, cache)
    else if req.httpMethod != "GET" then Outcome(MethodNotAllowed, cache)
    else match RelationResult(relations, req.id)
      case Err(_) => Outcome(InternalError, cache)
      case Panic => Outcome(Aborted, cache)
      case Ok(places) =>
        if !ValidId(req.id) then Outcome(BadRequest, cache)
        else if cache == [] then Home(cache, Request("/", "GET", req.id), artists)
        else
          var idx := Atoi(req.id) - 1;
          if idx >= |cache| then Outcome(Aborted, cache)
          else
            var updated := Enrich(cache, idx, places);
            Outcome(ArtistPage(updated[idx]), updated)
  }

  /** The package state of handlers/handlers.go. */
  class Server {
    var allArtistInfo: seq<Data>

    constructor()
      ensures allArtistInfo == []
    {
      allArtistInfo := [];
    }

    method HomepageHandler(req: Request, artists: Result<seq<Artist>>) returns (page: Page)
      modifies this
      ensures Outcome(page, allArtistInfo) == Home(old(allArtistInfo), req, artists)
    {
      if req.path != "/" {
        return NotFound;
      }
      if req.httpMethod != "GET" {
        return MethodNotAllowed;
      }
      if |allArtistInfo| == 0 {
        if artists.Err? {
          return InternalError;
        }
        if artists.Panic? {
          return Aborted;
        }
        var list := artists.value;
        var i := 0;
        while i < |list|
          invariant 0 <= i <= |list|
          invariant allArtistInfo == Summaries(list[..i])
        {
          var info := list[i];
          var entry := Data(info.name, info.id, info.image, info.members, info.creationDate, info.firstAlbum,
                            [], [], []);
          allArtistInfo := allArtistInfo + [entry];
          i := i + 1;
        }
        assert list[..|list|] == list;
      }
      return HomePage(allArtistInfo);
    }

    method ArtistHandler(req: Request, relations: Result<seq<DatesLocation>>, artists: Result<seq<Artist>>)
      returns (page: Page)
      modifies this
      ensures Outcome(page, allArtistInfo) == ArtistVisit(old(allArtistInfo), req, relations, artists)
    {
      if req.path != "/artist" {
        return NotFound;
      }
      if req.httpMethod != "GET" {
        return MethodNotAllowed;
      }
      var datesAndConcerts := FetchDatesAndConcerts(relations, req.id);
      if datesAndConcerts.Err? {
        return InternalError;
      }
      if datesAndConcerts.Panic? {
        return Aborted;
      }
      var idNum := Atoi(req.id);
      if idNum <= 0 || idNum > MaxArtistId {
        return BadRequest;
      }
      idNum := idNum - 1;
      if |allArtistInfo| == 0 {
        page := HomepageHandler(Request("/", "GET", req.id), artists);
        return;
      }
      if idNum >= |allArtistInfo| {
        return Aborted;
      }
      allArtistInfo := allArtistInfo[idNum := allArtistInfo[idNum].(dateAndLocation := datesAndConcerts.value)];
      return ArtistPage(allArtistInfo[idNum]);
    }
  }

  // ---------------------------------------------------------------------
  // Id validation

  /** The id check accepts exactly the ids that parse, with an optional
      sign, to a number from 1 to 52: a non-numeric id reads as 0 and
      Atoi's clamping of huge values never lands inside the range. */
  lemma ValidIdSpec(id: string)
    ensures ValidId(id) <==> ParseDecimal(id).Some? && 0 < ParseDecimal(id).value <= MaxArtistId
  {
    if ParseDecimal(id).Some? {
      AtoiWellFormed(id);
    } else {
      AtoiMalformed(id);
    }
  }

  /** On ids written as Itoa writes them, the check accepts exactly 1..52. */
  lemma ValidItoa(n: int)
    ensures ValidId(Itoa(n)) <==> 0 < n <= MaxArtistId
  {
    ParseItoa(n);
    AtoiWellFormed(Itoa(n));
  }

  // ---------------------------------------------------------------------
  // DateHandler and LocationHandler

  /** The checks come in the order path, method, id, and only then is the
      upstream consulted: a request that fails a check gets the same
      404, 405 or 400 whatever the upstream holds, never a 500. */
  lemma DateChecksFirst(req: Request, d1: Result<seq<Date>>, d2: Result<seq<Date>>)
    ensures DateHandler(req, d1) == NotFound <==> req.path != "/dates"
    ensures DateHandler(req, d1) == MethodNotAllowed <==> req.path == "/dates" && req.httpMethod != "GET"
    ensures DateHandler(req, d1) == BadRequest <==> req.path == "/dates" && req.httpMethod == "GET" && !ValidId(req.id)
    ensures DateHandler(req, d1) == InternalError <==>
              req.path == "/dates" && req.httpMethod == "GET" && ValidId(req.id) && d1.Err?
    ensures !(req.path == "/dates" && req.httpMethod == "GET" && ValidId(req.id)) ==>
              DateHandler(req, d1) == DateHandler(req, d2)
  {
  }

  /** For an id in canonical form, the dates page shows the LAST record
      with that id, its starred dates stripped; the id the page shows is
      the record's own. */
  lemma DatesPageShowsLastMatch(ds: seq<Date>, n: int, j: nat)
    requires 0 < n <= MaxArtistId
    requires j < |ds| && ds[j].id == n && NoEmptyDate(ds[j].dates)
    requires forall k :: j < k < |ds| ==> ds[k].id != n
    ensures DateHandler(Request("/dates", "GET", Itoa(n)), Ok(ds)) == DatesPage(Date(n, StripStars(ds[j].dates)))
  {
    ValidItoa(n);
    DateForCanonical(ds, n, j);
  }

  /** A valid id that no record carries renders an empty dates page with
      status 200, not an error. */
  lemma DatesPageForMissingArtist(ds: seq<Date>, n: int)
    requires 0 < n <= MaxArtistId
    requires forall k :: 0 <= k < |ds| ==> ds[k].id != n
    ensures DateHandler(Request("/dates", "GET", Itoa(n)), Ok(ds)) == DatesPage(ZeroDate)
  {
    ValidItoa(n);
    CanonicalIdMissing(ds, [], n);
  }

  /** LocationHandler's explicit empty-id check decides nothing that the
      number check would not: an empty id is invalid anyway. Apart from
      the path, the two handlers check in the same order, and the upstream
      is consulted only for a valid id. */
  lemma LocationChecksFirst(req: Request, d1: Result<seq<Location>>, d2: Result<seq<Location>>)
    ensures !ValidId("")
    ensures LocationHandler(req, d1) == NotFound <==> req.path != "/locations"
    ensures LocationHandler(req, d1) == MethodNotAllowed <==> req.path == "/locations" && req.httpMethod != "GET"
    ensures LocationHandler(req, d1) == BadRequest <==>
              req.path == "/locations" && req.httpMethod == "GET" && !ValidId(req.id)
    ensures LocationHandler(req, d1) == InternalError <==>
              req.path == "/locations" && req.httpMethod == "GET" && ValidId(req.id) && d1.Err?
    ensures !(req.path == "/locations" && req.httpMethod == "GET" && ValidId(req.id)) ==>
              LocationHandler(req, d1) == LocationHandler(req, d2)
  {
    assert ParseDecimal("").None?;
  }

  /** The locations page shows the FIRST record whose artist id equals the
      parsed id, and the zero Location when there is none. */
  lemma LocationsPageShowsFirstMatch(ls: seq<Location>, id: string, j: nat)
    requires ValidId(id)
    requires j < |ls| && ls[j].artistId == Atoi(id)
    requires forall k :: 0 <= k < j ==> ls[k].artistId != Atoi(id)
    ensures LocationHandler(Request("/locations", "GET", id), Ok(ls)) == LocationsPage(ls[j])
  {
    LocationForSpec(ls, id, j);
  }

  lemma LocationsPageForMissingArtist(ls: seq<Location>, id: string)
    requires ValidId(id)
    requires forall k :: 0 <= k < |ls| ==> ls[k].artistId != Atoi(id)
    ensures LocationHandler(Request("/locations", "GET", id), Ok(ls)) == LocationsPage(ZeroLocation)
  {
    LocationForMissing(ls, id);
  }

  /** "01" passes both handlers' checks; the locations page then shows
      artist 1, but the dates page is empty whatever the upstream holds. */
  lemma LeadingZeroIdPages(ds: seq<Date>, ls: seq<Location>)
    ensures DateHandler(Request("/dates", "GET", "01"), Ok(ds)) == DatesPage(ZeroDate)
    ensures LocationHandler(Request("/locations", "GET", "01"), Ok(ls)) == LocationsPage(LocationFor(ls, "1"))
  {
    LeadingZeroId(ls, ds, []);
  }

  // ---------------------------------------------------------------------
  // The cases of handlers/handlers_test.go

  lemma TestIds()
    ensures ValidId("1") && ValidId("2")
    ensures !ValidId("100") && !ValidId("abc")
  {
    ValidItoa(1);
    ValidItoa(2);
    ValidItoa(100);
    assert Itoa(1) == "1" && Itoa(2) == "2";
    assert Itoa(100) == "100";
    assert !IsDigit('a');
  }

  /** The table of TestDateHandler, with the stubbed upstream answering
      one date for id 1 and an error otherwise. */
  lemma DateHandlerCases()
    ensures DateHandler(Request("/dates", "GET", "1"), Ok([Date(1, ["2023-01-01"])]))
            == DatesPage(Date(1, ["2023-01-01"]))
    ensures DateHandler(Request("/invalid", "GET", ""), Err("error fetching dates")) == NotFound
    ensures DateHandler(Request("/dates", "POST", ""), Err("error fetching dates")) == MethodNotAllowed
    ensures DateHandler(Request("/dates", "GET", "100"), Err("error fetching dates")) == BadRequest
    ensures DateHandler(Request("/dates", "GET", "abc"), Err("error fetching dates")) == BadRequest
    ensures DateHandler(Request("/dates", "GET", "2"), Err("error fetching dates")) == InternalError
  {
    TestIds();
    DatesPageShowsLastMatch([Date(1, ["2023-01-01"])], 1, 0);
    assert Itoa(1) == "1";
    assert StripStars(["2023-01-01"]) == ["2023-01-01"];
  }

  /** The table of TestLocationHandler, stubbed the same way. */
  lemma LocationHandlerCases()
    ensures LocationHandler(Request("/locations", "GET", "1"), Ok([Location(1, ["2023-01-01"], "")]))
            == LocationsPage(Location(1, ["2023-01-01"], ""))
    ensures LocationHandler(Request("/invalid", "GET", ""), Err("error fetching dates")) == NotFound
    ensures LocationHandler(Request("/locations", "POST", ""), Err("error fetching dates")) == MethodNotAllowed
    ensures LocationHandler(Request("/locations", "GET", "100"), Err("error fetching dates")) == BadRequest
    ensures LocationHandler(Request("/locations", "GET", "abc"), Err("error fetching dates")) == BadRequest
    ensures LocationHandler(Request("/locations", "GET", "2"), Err("error fetching dates")) == InternalError
  {
    TestIds();
    ValidItoa(1);
    ParseItoa(1);
    assert Itoa(1) == "1";
    LocationsPageShowsFirstMatch([Location(1, ["2023-01-01"], "")], "1", 0);
  }

  // ---------------------------------------------------------------------
  // Cache population

  /** An empty cache and a successful fetch: the cache then holds one
      entry per fetched artist, in fetch order, with name, id, image,
      members, creation year and first album copied and the date and
      location fields empty; the page lists exactly that cache. */
  lemma PopulateFromEmpty(id: string, list: seq<Artist>)
    ensures var o := Home([], Request("/", "GET", id), Ok(list));
            o.page == HomePage(o.cache) && |o.cache| == |list|
            && forall k :: 0 <= k < |list| ==>
                 o.cache[k].name == list[k].name && o.cache[k].id == list[k].id
                 && o.cache[k].image == list[k].image && o.cache[k].members == list[k].members
                 && o.cache[k].creationDate == list[k].creationDate && o.cache[k].firstAlbum == list[k].firstAlbum
                 && o.cache[k].dateAndLocation == [] && o.cache[k].dates == [] && o.cache[k].locations == []
  {
  }

  /** A non-empty cache is never fetched again or changed by the
      homepage; neither is any cache by a request with the wrong path or
      method. */
  lemma PopulateOnlyWhenEmpty(cache: seq<Data>, req: Request, a1: Result<seq<Artist>>, a2: Result<seq<Artist>>)
    requires cache != [] || req.path != "/" || req.httpMethod != "GET"
    ensures Home(cache, req, a1) == Home(cache, req, a2)
    ensures Home(cache, req, a1).cache == cache
  {
  }

  /** A failed fetch answers 500 and leaves the cache empty, and so does
      an empty artist list with 200: the next homepage request fetches
      again and fills the cache as if the failure had not happened. */
  lemma PopulateRetries(id: string, e: string, list: seq<Artist>)
    ensures var req := Request("/", "GET", id);
            Home([], req, Err(e)) == Outcome(InternalError, [])
            && Home([], req, Ok([])) == Outcome(HomePage([]), [])
            && Home(Home([], req, Err(e)).cache, req, Ok(list)) == Home([], req, Ok(list))
  {
    assert Summaries([]) == [];
  }

  /** Once a fetch has filled the cache, later homepage requests leave it
      as it is, whatever their own fetch would have returned. */
  lemma PopulateOnce(cache: seq<Data>, req: Request, a1: Result<seq<Artist>>, a2: Result<seq<Artist>>)
    requires Home(cache, req, a1).cache != []
    ensures Home(Home(cache, req, a1).cache, req, a2).cache == Home(cache, req, a1).cache
  {
  }

  // ---------------------------------------------------------------------
  // ArtistHandler

  /** The relations are fetched before the id is checked: an upstream
      error answers 500 even for an id the check would refuse, whereas
      DateHandler answers the same request shape with 400. */
  lemma ArtistFetchesBeforeValidating(cache: seq<Data>, id: string, e: string, artists: Result<seq<Artist>>)
    ensures ArtistVisit(cache, Request("/artist", "GET", id), Err(e), artists) == Outcome(InternalError, cache)
    ensures ArtistVisit(cache, Request("/artist", "GET", "100"), Err(e), artists) == Outcome(InternalError, cache)
    ensures DateHandler(Request("/dates", "GET", "100"), Err(e)) == BadRequest
  {
    TestIds();
  }

  /** With a non-empty cache and an id from 1 to the cache's length, the
      artist page overwrites exactly one field of exactly one entry: the
      DateAndLocation of entry id-1 becomes the relation map fetched for
      that id, every other entry and every other field stay as they were,
      and the page shows the updated entry. */
  lemma ArtistEnrichesOneEntry(cache: seq<Data>, id: string, rs: seq<DatesLocation>, artists: Result<seq<Artist>>)
    requires ValidId(id) && cache != [] && Atoi(id) <= |cache|
    ensures var o := ArtistVisit(cache, Request("/artist", "GET", id), Ok(rs), artists);
            var i := Atoi(id) - 1;
            |o.cache| == |cache| && o.page == ArtistPage(o.cache[i])
            && o.cache[i].dateAndLocation == PlacesFor(rs, id)
            && Search.SameSearchFields(o.cache[i], cache[i])
            && o.cache[i].image == cache[i].image
            && o.cache[i].dates == cache[i].dates && o.cache[i].locations == cache[i].locations
            && forall k :: 0 <= k < |cache| && k != i ==> o.cache[k] == cache[k]
  {
  }

  /** For a canonical id n, the entry receives the places of the LAST
      relation record with id n. */
  lemma ArtistShowsLastRelation(cache: seq<Data>, n: int, rs: seq<DatesLocation>, j: nat, artists: Result<seq<Artist>>)
    requires 0 < n <= MaxArtistId && n <= |cache|
    requires j < |rs| && rs[j].id == n
    requires forall k :: j < k < |rs| ==> rs[k].id != n
    ensures ArtistVisit(cache, Request("/artist", "GET", Itoa(n)), Ok(rs), artists).cache[n - 1].dateAndLocation
            == rs[j].places
  {
    ValidItoa(n);
    AtoiItoa(n);
    PlacesForCanonical(rs, n, j);
  }

  /** The index is not checked against the cache: an id past its end
      panics, and the cache stays as it was. */
  lemma ArtistPastCacheEndPanics(cache: seq<Data>, id: string, rs: seq<DatesLocation>, artists: Result<seq<Artist>>)
    requires ValidId(id) && cache != [] && Atoi(id) > |cache|
    ensures ArtistVisit(cache, Request("/artist", "GET", id), Ok(rs), artists) == Outcome(Aborted, cache)
  {
  }

  /** With an empty cache the artist page is not shown at all: the request
      is answered by the homepage, which fills the cache, and no entry is
      enriched. */
  lemma ArtistOnEmptyCache(id: string, rs: seq<DatesLocation>, artists: Result<seq<Artist>>)
    requires ValidId(id)
    ensures ArtistVisit([], Request("/artist", "GET", id), Ok(rs), artists) == Home([], Request("/", "GET", id), artists)
    ensures forall d :: d in ArtistVisit([], Request("/artist", "GET", id), Ok(rs), artists).cache ==> d.dateAndLocation == []
  {
  }

  /** Visiting an artist again overwrites rather than accumulates: when
      the second visit's fetch succeeds, two visits leave the cache as the
      second one alone would. */
  lemma ArtistRevisitOverwrites(cache: seq<Data>, req: Request, r1: Result<seq<DatesLocation>>,
                                r2: Result<seq<DatesLocation>>, artists: Result<seq<Artist>>)
    requires cache != [] && r2.Ok?
    ensures ArtistVisit(ArtistVisit(cache, req, r1, artists).cache, req, r2, artists).cache
            == ArtistVisit(cache, req, r2, artists).cache
  {
    var o := ArtistVisit(cache, req, r1, artists);
    if req.path == "/artist" && req.httpMethod == "GET" && RelationResult(r1, req.id).Ok? && ValidId(req.id)
       && Atoi(req.id) - 1 < |cache| {
      var i := Atoi(req.id) - 1;
      assert o.cache == Enrich(cache, i, RelationResult(r1, req.id).value);
      assert Enrich(o.cache, i, RelationResult(r2, req.id).value) == Enrich(cache, i, RelationResult(r2, req.id).value);
    }
  }

  /** Visits to two different artists commute on the cache. */
  lemma ArtistVisitsCommute(cache: seq<Data>, req1: Request, req2: Request, r1: Result<seq<DatesLocation>>,
                            r2: Result<seq<DatesLocation>>, artists: Result<seq<Artist>>)
    requires cache != [] && Atoi(req1.id) != Atoi(req2.id)
    ensures ArtistVisit(ArtistVisit(cache, req1, r1, artists).cache, req2, r2, artists).cache
            == ArtistVisit(ArtistVisit(cache, req2, r2, artists).cache, req1, r1, artists).cache
  {
  }

  /** Enrichment is invisible to search: on a non-empty cache, whatever an
      artist page does to the cache, every search request gets the same
      reply before and after it. */
  lemma ArtistVisitInvisibleToSearch(cache: seq<Data>, req: Request, relations: Result<seq<DatesLocation>>,
                                     artists: Result<seq<Artist>>, httpMethod: string, q: string,
                                     rel: Result<seq<DatesLocation>>, locs: Result<seq<Location>>)
    requires cache != []
    ensures Search.SearchReply(ArtistVisit(cache, req, relations, artists).cache, httpMethod, q, rel, locs)
            == Search.SearchReply(cache, httpMethod, q, rel, locs)
  {
    var after := ArtistVisit(cache, req, relations, artists).cache;
    ArtistVisitKeepsView(cache, req, relations, artists);
    Search.SearchReadsOnlyView(after, cache, httpMethod, q, rel, locs);
  }

  /** On a non-empty cache an artist page changes no field search reads. */
  lemma ArtistVisitKeepsView(cache: seq<Data>, req: Request, relations: Result<seq<DatesLocation>>,
                             artists: Result<seq<Artist>>)
    requires cache != []
    ensures Search.SameSearchView(ArtistVisit(cache, req, relations, artists).cache, cache)
  {
    var r := RelationResult(relations, req.id);
    if req.path == "/artist" && req.httpMethod == "GET" && r.Ok? && ValidId(req.id) && Atoi(req.id) - 1 < |cache| {
      EnrichKeepsView(cache, Atoi(req.id) - 1, r.value);
    } else {
      assert ArtistVisit(cache, req, relations, artists).cache == cache;
    }
  }

  /** Enrichment writes only the field search does not read. */
  lemma EnrichKeepsView(cache: seq<Data>, idx: nat, places: DatesLocations)
    requires idx < |cache|
    ensures Search.SameSearchView(Enrich(cache, idx, places), cache)
  {
    var after := Enrich(cache, idx, places);
    forall k | 0 <= k < |after| ensures Search.SameSearchFields(after[k], cache[k]) {
    }
  }
}
