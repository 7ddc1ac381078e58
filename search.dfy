/** The search engine of handlers/search.go. Its functions read the
    package-level artist cache `AllArtistInfo`; here they receive its
    current value as the parameter `cache` (search never changes it). The
    two upstream lists searchLocations downloads arrive decoded, as the
    parameters `relations` and `locations`. */
module Search {
  import opened Wrappers
  import opened Strings
  import opened Strconv
  import opened Models

  /** One suggestion; `kind` is the JSON field "type". An empty `context`
      is omitted from the JSON. */
  datatype SearchResult = SearchResult(kind: string, id: int, text: string, context: string)

  /** Both the per-scanner cap and the global cap. */
  const Limit: nat := 10

  // ---------------------------------------------------------------------
  // Lookups by id

  /** getArtistNameById: the name of the first cache entry with that id,
      or "" when there is none. */
  function NameById(cache: seq<Data>, id: int): (r: string)
    ensures (forall k :: 0 <= k < |cache| ==> cache[k].id != id) ==> r == ""
    ensures forall j :: 0 <= j < |cache| && cache[j].id == id && (forall k :: 0 <= k < j ==> cache[k].id != id)
                        ==> r == cache[j].name
  {
    if cache == [] then ""
    else if cache[0].id == id then cache[0].name
    else
      var r := NameById(cache[1..], id);
      assert forall j :: 1 <= j < |cache| ==> cache[j] == cache[1..][j - 1];
      r
  }

  /** getArtistCreationbyId: the decimal creation year of the first cache
      entry with that id, or "" when there is none. */
  function CreationById(cache: seq<Data>, id: int): (r: string)
    ensures (forall k :: 0 <= k < |cache| ==> cache[k].id != id) ==> r == ""
    ensures forall j :: 0 <= j < |cache| && cache[j].id == id && (forall k :: 0 <= k < j ==> cache[k].id != id)
                        ==> r == Itoa(cache[j].creationDate)
  {
    if cache == [] then ""
    else if cache[0].id == id then Itoa(cache[0].creationDate)
    else
      var r := CreationById(cache[1..], id);
      assert forall j :: 1 <= j < |cache| ==> cache[j] == cache[1..][j - 1];
      r
  }

  method GetArtistNameById(cache: seq<Data>, id: int) returns (name: string)
    ensures name == NameById(cache, id)
  {
    for i := 0 to |cache|
      invariant NameById(cache[i..], id) == NameById(cache, id)
    {
      assert cache[i..][1..] == cache[i + 1..];
      if cache[i].id == id {
        return cache[i].name;
      }
    }
    return "";
  }

  method GetArtistCreationById(cache: seq<Data>, id: int) returns (creation: string)
    ensures creation == CreationById(cache, id)
  {
    for i := 0 to |cache|
      invariant CreationById(cache[i..], id) == CreationById(cache, id)
    {
      assert cache[i..][1..] == cache[i + 1..];
      if cache[i].id == id {
        return Itoa(cache[i].creationDate);
      }
    }
    return "";
  }

  // ---------------------------------------------------------------------
  // The three scanners that add at most one result per artist

  datatype Field = ByName | ByCreation | ByFirstAlbum

  /** The result an artist contributes to a scanner, if it matches. The
      query is lower-cased; the name is lower-cased too, the decimal year
      needs no lower-casing, and the first album is tested as it is, so
      that test is case-sensitive on the album's side. */
  function FieldHit(a: Data, q: string, f: Field): Option<SearchResult> {
    match f
    case ByName =>
      if Contains(ToLower(a.name), ToLower(q)) then Some(SearchResult("artist", a.id, a.name, "")) else None
    case ByCreation =>
      if Contains(Itoa(a.creationDate), ToLower(q))
      then Some(SearchResult("creation", a.id, a.name, Itoa(a.creationDate))) else None
    case ByFirstAlbum =>
      if Contains(a.firstAlbum, ToLower(q))
      then Some(SearchResult("First Album", a.id, a.name, a.firstAlbum)) else None
  }

  function OptionSeq(o: Option<SearchResult>): seq<SearchResult> {
    if o.Some? then [o.value] else []
  }

  /** Every hit of one field, in cache order, before any cap. */
  function FieldHits(cache: seq<Data>, q: string, f: Field): (r: seq<SearchResult>)
    ensures |r| <= |cache|
  {
    if cache == [] then []
    else FieldHits(cache[..|cache| - 1], q, f) + OptionSeq(FieldHit(cache[|cache| - 1], q, f))
  }

  /** Concatenation is associative; stated once so that proofs need not
      rediscover it through sequence extensionality. */
  lemma ConcatAssoc<T>(a: seq<T>, b: seq<T>, c: seq<T>)
    ensures a + b + c == a + (b + c)
  {
  }

  /** The first `Limit` elements (all of them when there are fewer). */
  function Cap(s: seq<SearchResult>): (r: seq<SearchResult>)
    ensures r <= s
    ensures |r| == if |s| <= Limit then |s| else Limit
  {
    if |s| <= Limit then s else s[..Limit]
  }

  /** The loop shared by searchArtists, searchCreations and
      searchFirstAlbum: append each hit, stop once `Limit` results are in. */
  method ScanField(cache: seq<Data>, q: string, f: Field) returns (results: seq<SearchResult>)
    ensures results == Cap(FieldHits(cache, q, f))
  {
    results := [];
    var i := 0;
    while i < |cache|
      invariant 0 <= i <= |cache|
      invariant results == FieldHits(cache[..i], q, f)
      invariant |results| < Limit
    {
      var hit := OptionSeq(FieldHit(cache[i], q, f));
      ScanFieldStep(cache, i, q, f, hit);
      results := results + hit;
      if |results| >= Limit {
        return;
      }
      i := i + 1;
    }
    assert cache[..i] == cache;
  }

  /** One turn of the ScanField loop: the hit extends the prefix's hits,
      and once it reaches the cap it is the capped total. */
  lemma ScanFieldStep(cache: seq<Data>, i: nat, q: string, f: Field, hit: seq<SearchResult>)
    requires i < |cache| && hit == OptionSeq(FieldHit(cache[i], q, f))
    requires |FieldHits(cache[..i], q, f)| < Limit
    ensures FieldHits(cache[..i + 1], q, f) == FieldHits(cache[..i], q, f) + hit
    ensures |FieldHits(cache[..i + 1], q, f)| >= Limit ==> FieldHits(cache[..i + 1], q, f) == Cap(FieldHits(cache, q, f))
  {
    FieldHitsSnoc(cache, i, q, f);
    var done := FieldHits(cache[..i + 1], q, f);
    if |done| >= Limit {
      assert |hit| <= 1;
      FieldHitsPrefix(cache, i + 1, q, f);
      CapOfPrefix(done, FieldHits(cache, q, f));
    }
  }

  /** A prefix of exactly `Limit` elements is what the cap keeps. */
  lemma CapOfPrefix(p: seq<SearchResult>, s: seq<SearchResult>)
    requires p <= s && |p| == Limit
    ensures Cap(s) == p
  {
  }

  method SearchArtists(cache: seq<Data>, q: string) returns (results: seq<SearchResult>)
    ensures results == Cap(FieldHits(cache, q, ByName))
  {
    results := ScanField(cache, q, ByName);
  }

  method SearchCreations(cache: seq<Data>, q: string) returns (results: seq<SearchResult>)
    ensures results == Cap(FieldHits(cache, q, ByCreation))
  {
    results := ScanField(cache, q, ByCreation);
  }

  method SearchFirstAlbum(cache: seq<Data>, q: string) returns (results: seq<SearchResult>)
    ensures results == Cap(FieldHits(cache, q, ByFirstAlbum))
  {
    results := ScanField(cache, q, ByFirstAlbum);
  }

  // ---------------------------------------------------------------------
  // searchMembers

  predicate MemberMatches(member: string, q: string) {
    Contains(ToLower(member), ToLower(q))
  }

  function MemberResult(a: Data, member: string): SearchResult {
    SearchResult("member", a.id, a.name, member)
  }

  /** Every matching member among `ms`, in order, before any cap. */
  function MemberHits(a: Data, ms: seq<string>, q: string): seq<SearchResult> {
    if ms == [] then []
    else (if MemberMatches(ms[0], q) then [MemberResult(a, ms[0])] else []) + MemberHits(a, ms[1..], q)
  }

  /** Every (artist, matching member) pair, in cache then member order. */
  function AllMemberHits(cache: seq<Data>, q: string): seq<SearchResult> {
    if cache == [] then []
    else MemberHits(cache[0], cache[0].members, q) + AllMemberHits(cache[1..], q)
  }

  /** The inner loop of searchMembers over the members `ms` of artist `a`,
      starting from the results `acc` gathered so far: its `break` leaves
      only this loop. */
  function MemberStep(a: Data, ms: seq<string>, q: string, acc: seq<SearchResult>): seq<SearchResult> {
    if ms == [] then acc
    else
      var acc' := if MemberMatches(ms[0], q) then acc + [MemberResult(a, ms[0])] else acc;
      if |acc'| >= Limit then acc' else MemberStep(a, ms[1..], q, acc')
  }

  /** The outer loop of searchMembers, which has no cap of its own. */
  function MemberScan(cache: seq<Data>, q: string, acc: seq<SearchResult>): seq<SearchResult> {
    if cache == [] then acc
    else MemberScan(cache[1..], q, MemberStep(cache[0], cache[0].members, q, acc))
  }

  method SearchMembers(cache: seq<Data>, q: string) returns (results: seq<SearchResult>)
    ensures results == MemberScan(cache, q, [])
  {
    results := [];
    for i := 0 to |cache|
      invariant MemberScan(cache[i..], q, results) == MemberScan(cache, q, [])
    {
      var artist := cache[i];
      ghost var before := results;
      assert cache[i..][1..] == cache[i + 1..];
      var j := 0;
      while j < |artist.members|
        invariant 0 <= j <= |artist.members|
        invariant MemberStep(artist, artist.members[j..], q, results) == MemberStep(artist, artist.members, q, before)
      {
        var member := artist.members[j];
        assert artist.members[j..][1..] == artist.members[j + 1..];
        if Contains(ToLower(member), ToLower(q)) {
          results := results + [MemberResult(artist, member)];
        }
        if |results| >= Limit {
          break;
        }
        j := j + 1;
      }
    }
  }

  // ---------------------------------------------------------------------
  // searchLocations

  function LocationResult(id: int, name: string, location: string): SearchResult {
    SearchResult("location", id, name, location)
  }

  predicate LocationMatches(location: string, q: string) {
    Contains(ToLower(location), ToLower(q))
  }

  /** Hits among the places of one relation record, no dedup. */
  function PlaceHits(id: int, places: DatesLocations, name: string, q: string): seq<SearchResult> {
    if places == [] then []
    else (if LocationMatches(places[0].location, q) then [LocationResult(id, name, places[0].location)] else [])
         + PlaceHits(id, places[1..], name, q)
  }

  /** The first half of searchLocations: every matching place of every
      relation record, with the artist's name from the cache. */
  function RelationHits(relations: seq<DatesLocation>, cache: seq<Data>, q: string): seq<SearchResult> {
    if relations == [] then []
    else PlaceHits(relations[0].id, relations[0].places, NameById(cache, relations[0].id), q)
         + RelationHits(relations[1..], cache, q)
  }

  /** Some earlier result has this artist id and this location as context. */
  predicate Seen(acc: seq<SearchResult>, id: int, location: string) {
    exists k :: 0 <= k < |acc| && acc[k].id == id && acc[k].context == location
  }

  /** The inner loop over the locations `locs` of one locations record. */
  function LocationStep(id: int, locs: seq<string>, name: string, q: string, acc: seq<SearchResult>): seq<SearchResult> {
    if locs == [] then acc
    else
      var acc' := if LocationMatches(locs[0], q) && !Seen(acc, id, locs[0])
                  then acc + [LocationResult(id, name, locs[0])] else acc;
      LocationStep(id, locs[1..], name, q, acc')
  }

  /** The second half of searchLocations, over the locations records. */
  function LocationScan(ls: seq<Location>, cache: seq<Data>, q: string, acc: seq<SearchResult>): seq<SearchResult> {
    if ls == [] then acc
    else LocationScan(ls[1..], cache, q,
                      LocationStep(ls[0].artistId, ls[0].locations, NameById(cache, ls[0].artistId), q, acc))
  }

  /** searchLocations: a failed download of either list fails the search. */
  function LocationsOutput(cache: seq<Data>, q: string, relations: Result<seq<DatesLocation>>,
                           locations: Result<seq<Location>>): Result<seq<SearchResult>> {
    match relations
    case Err(e) => Err(e)
    case Panic => Panic
    case Ok(rs) =>
      match locations
      case Err(e) => Err(e)
      case Panic => Panic
      case Ok(ls) => Ok(LocationScan(ls, cache, q, RelationHits(rs, cache, q)))
  }

  method SearchLocations(cache: seq<Data>, q: string, relations: Result<seq<DatesLocation>>,
                         locations: Result<seq<Location>>) returns (r: Result<seq<SearchResult>>)
    ensures r == LocationsOutput(cache, q, relations, locations)
  {
    if !relations.Ok? {
      return if relations.Err? then Err(relations.error) else Panic;
    }
    var allResults := ScanRelations(cache, q, relations.value);
    if !locations.Ok? {
      return if locations.Err? then Err(locations.error) else Panic;
    }
    allResults := ScanLocationRecords(cache, q, locations.value, allResults);
    return Ok(allResults);
  }

  /** The loop of searchLocations over the relation records. */
  method ScanRelations(cache: seq<Data>, q: string, rels: seq<DatesLocation>) returns (allResults: seq<SearchResult>)
    ensures allResults == RelationHits(rels, cache, q)
  {
    allResults := [];
    for i := 0 to |rels|
      invariant allResults + RelationHits(rels[i..], cache, q) == RelationHits(rels, cache, q)
    {
      var relation := rels[i];
      assert rels[i..][1..] == rels[i + 1..];
      var artistName := GetArtistNameById(cache, relation.id);
      ghost var before := allResults;
      allResults := ScanPlaces(relation.id, relation.places, artistName, q, allResults);
      ConcatAssoc(before, PlaceHits(relation.id, relation.places, artistName, q), RelationHits(rels[i + 1..], cache, q));
    }
    assert rels[|rels|..] == [];
  }

  /** The inner loop of ScanRelations over one record's places: append
      every matching location. */
  method ScanPlaces(id: int, places: DatesLocations, artistName: string, q: string, acc: seq<SearchResult>)
    returns (allResults: seq<SearchResult>)
    ensures allResults == acc + PlaceHits(id, places, artistName, q)
  {
    allResults := acc;
    for j := 0 to |places|
      invariant allResults + PlaceHits(id, places[j..], artistName, q) == acc + PlaceHits(id, places, artistName, q)
    {
      var location := places[j].location;
      assert places[j..][1..] == places[j + 1..];
      if Contains(ToLower(location), ToLower(q)) {
        ConcatAssoc(allResults, [LocationResult(id, artistName, location)], PlaceHits(id, places[j + 1..], artistName, q));
        allResults := allResults + [LocationResult(id, artistName, location)];
      }
    }
    assert places[|places|..] == [];
  }

  /** The loop of searchLocations over the locations records, appending to
      the relation hits `fromRelations`. */
  method ScanLocationRecords(cache: seq<Data>, q: string, locs: seq<Location>, fromRelations: seq<SearchResult>)
    returns (allResults: seq<SearchResult>)
    ensures allResults == LocationScan(locs, cache, q, fromRelations)
  {
    allResults := fromRelations;
    for i := 0 to |locs|
      invariant LocationScan(locs[i..], cache, q, allResults) == LocationScan(locs, cache, q, fromRelations)
    {
      var location := locs[i];
      assert locs[i..][1..] == locs[i + 1..];
      var artistName := GetArtistNameById(cache, location.artistId);
      ghost var before := allResults;
      for j := 0 to |location.locations|
        invariant LocationStep(location.artistId, location.locations[j..], artistName, q, allResults)
                  == LocationStep(location.artistId, location.locations, artistName, q, before)
      {
        var loc := location.locations[j];
        assert location.locations[j..][1..] == location.locations[j + 1..];
        if Contains(ToLower(loc), ToLower(q)) {
          var isDuplicate := HasLocation(allResults, location.artistId, loc);
          if !isDuplicate {
            allResults := allResults + [LocationResult(location.artistId, artistName, loc)];
          }
        }
      }
      assert location.locations[|location.locations|..] == [];
    }
    assert locs[|locs|..] == [];
  }

  /** The duplicate check of searchLocations: a linear scan for an earlier
      result with the same artist id and location. */
  method HasLocation(acc: seq<SearchResult>, id: int, location: string) returns (isDuplicate: bool)
    ensures isDuplicate == Seen(acc, id, location)
  {
    isDuplicate := false;
    var e := 0;
    while e < |acc|
      invariant 0 <= e <= |acc|
      invariant forall k :: 0 <= k < e ==> !(acc[k].id == id && acc[k].context == location)
    {
      if acc[e].id == id && acc[e].context == location {
        return true;
      }
      e := e + 1;
    }
  }

  // ---------------------------------------------------------------------
  // Properties of the single-result scanners

  /** Scanning two halves of the cache one after the other gives the hits
      of the first half, then those of the second: hits keep cache order. */
  lemma {:induction false} FieldHitsAppend(c1: seq<Data>, c2: seq<Data>, q: string, f: Field)
    ensures FieldHits(c1 + c2, q, f) == FieldHits(c1, q, f) + FieldHits(c2, q, f)
    decreases |c2|
  {
    if c2 == [] {
      assert c1 + c2 == c1;
    } else {
      var c2' := c2[..|c2| - 1];
      FieldHitsAppend(c1, c2', q, f);
      FieldHitsSplitLast(c1, c2, q, f);
      ConcatAssoc(FieldHits(c1, q, f), FieldHits(c2', q, f), OptionSeq(FieldHit(c2[|c2| - 1], q, f)));
    }
  }

  lemma FieldHitsSplitLast(c1: seq<Data>, c2: seq<Data>, q: string, f: Field)
    requires c2 != []
    ensures FieldHits(c1 + c2, q, f)
            == FieldHits(c1 + c2[..|c2| - 1], q, f) + OptionSeq(FieldHit(c2[|c2| - 1], q, f))
  {
    DropLastOfAppend(c1, c2);
  }

  lemma DropLastOfAppend<T>(a: seq<T>, b: seq<T>)
    requires b != []
    ensures (a + b)[..|a + b| - 1] == a + b[..|b| - 1]
    ensures (a + b)[|a + b| - 1] == b[|b| - 1]
  {
  }

  lemma FieldHitsSnoc(cache: seq<Data>, i: nat, q: string, f: Field)
    requires i < |cache|
    ensures FieldHits(cache[..i + 1], q, f) == FieldHits(cache[..i], q, f) + OptionSeq(FieldHit(cache[i], q, f))
  {
    assert cache[..i + 1][..i] == cache[..i];
  }

  lemma FieldHitsPrefix(cache: seq<Data>, n: nat, q: string, f: Field)
    requires n <= |cache|
    ensures FieldHits(cache[..n], q, f) <= FieldHits(cache, q, f)
  {
    assert cache[..n] + cache[n..] == cache;
    FieldHitsAppend(cache[..n], cache[n..], q, f);
  }

  /** A result is a hit exactly when some cache entry produces it. */
  lemma FieldHitsExactly(cache: seq<Data>, q: string, f: Field, x: SearchResult)
    ensures x in FieldHits(cache, q, f) <==> exists k :: 0 <= k < |cache| && FieldHit(cache[k], q, f) == Some(x)
  {
    if x in FieldHits(cache, q, f) {
      FieldHitsSound(cache, q, f, x);
    }
    if k :| 0 <= k < |cache| && FieldHit(cache[k], q, f) == Some(x) {
      FieldHitsComplete(cache, q, f, k);
    }
  }

  /** Every hit comes from some cache entry. */
  lemma {:induction false} FieldHitsSound(cache: seq<Data>, q: string, f: Field, x: SearchResult)
    requires x in FieldHits(cache, q, f)
    ensures exists k :: 0 <= k < |cache| && FieldHit(cache[k], q, f) == Some(x)
    decreases |cache|
  {
    var n := |cache| - 1;
    var init := cache[..n];
    var last := OptionSeq(FieldHit(cache[n], q, f));
    assert FieldHits(cache, q, f) == FieldHits(init, q, f) + last;
    if x in FieldHits(init, q, f) {
      FieldHitsSound(init, q, f, x);
      var k :| 0 <= k < |init| && FieldHit(init[k], q, f) == Some(x);
      assert init[k] == cache[k];
    } else {
      assert x in last;
    }
  }

  /** Every matching cache entry's result is among the hits. */
  lemma {:induction false} FieldHitsComplete(cache: seq<Data>, q: string, f: Field, k: nat)
    requires k < |cache| && FieldHit(cache[k], q, f).Some?
    ensures FieldHit(cache[k], q, f).value in FieldHits(cache, q, f)
    decreases |cache|
  {
    var n := |cache| - 1;
    var init := cache[..n];
    var last := OptionSeq(FieldHit(cache[n], q, f));
    assert FieldHits(cache, q, f) == FieldHits(init, q, f) + last;
    if k < n {
      assert init[k] == cache[k];
      FieldHitsComplete(init, q, f, k);
    } else {
      assert last == [FieldHit(cache[k], q, f).value];
    }
  }

  /** searchArtists: the hits are the artists whose lower-cased name
      contains the lower-cased query, as ("artist", Id, Name, ""). */
  lemma ArtistHits(cache: seq<Data>, q: string, x: SearchResult)
    ensures x in FieldHits(cache, q, ByName) <==>
            exists k :: 0 <= k < |cache| && Contains(ToLower(cache[k].name), ToLower(q))
                        && x == SearchResult("artist", cache[k].id, cache[k].name, "")
  {
    FieldHitsExactly(cache, q, ByName, x);
  }

  /** searchCreations: the hits are the artists whose decimal creation
      year contains the lower-cased query, with that year as context. */
  lemma CreationHits(cache: seq<Data>, q: string, x: SearchResult)
    ensures x in FieldHits(cache, q, ByCreation) <==>
            exists k :: 0 <= k < |cache| && Contains(Itoa(cache[k].creationDate), ToLower(q))
                        && x == SearchResult("creation", cache[k].id, cache[k].name, Itoa(cache[k].creationDate))
  {
    FieldHitsExactly(cache, q, ByCreation, x);
  }

  /** searchFirstAlbum: the hits are the artists whose first album, as it
      is, contains the lower-cased query, with the album as context. */
  lemma FirstAlbumHits(cache: seq<Data>, q: string, x: SearchResult)
    ensures x in FieldHits(cache, q, ByFirstAlbum) <==>
            exists k :: 0 <= k < |cache| && Contains(cache[k].firstAlbum, ToLower(q))
                        && x == SearchResult("First Album", cache[k].id, cache[k].name, cache[k].firstAlbum)
  {
    FieldHitsExactly(cache, q, ByFirstAlbum, x);
  }

  /** The album test is stricter than a case-insensitive one: every album
      hit would also match with the album lower-cased, but an album with
      capitals is missed by the very query it spells. */
  lemma FirstAlbumCaseSensitive(a: Data, q: string)
    ensures FieldHit(a, q, ByFirstAlbum).Some? ==> Contains(ToLower(a.firstAlbum), ToLower(q))
    ensures a.firstAlbum == "Queen" ==> FieldHit(a, "Queen", ByFirstAlbum).None?
  {
    if FieldHit(a, q, ByFirstAlbum).Some? {
      ContainsLowered(a.firstAlbum, ToLower(q));
      ToLowerIdempotent(q);
    }
    if a.firstAlbum == "Queen" {
      LowerQueen();
      MissingCharNotContained("Queen", "queen", 'q');
    }
  }

  // ---------------------------------------------------------------------
  // Properties of searchMembers

  /** One artist's inner loop appends a prefix of that artist's member
      hits to `acc`: all of them, unless the results reach the cap first;
      and started below the cap it never goes past it. */
  lemma {:induction false} MemberStepShape(a: Data, ms: seq<string>, q: string, acc: seq<SearchResult>)
    ensures var r := MemberStep(a, ms, q, acc);
            |acc| <= |r| <= |acc| + |MemberHits(a, ms, q)|
            && r == acc + MemberHits(a, ms, q)[..|r| - |acc|]
            && (|r| < Limit ==> r == acc + MemberHits(a, ms, q))
            && (|acc| < Limit ==> |r| <= Limit)
    decreases |ms|
  {
    if ms != [] {
      var acc' := if MemberMatches(ms[0], q) then acc + [MemberResult(a, ms[0])] else acc;
      var h := MemberHits(a, ms, q);
      var h' := MemberHits(a, ms[1..], q);
      if |acc'| < Limit {
        MemberStepShape(a, ms[1..], q, acc');
        var r := MemberStep(a, ms, q, acc);
        if MemberMatches(ms[0], q) {
          assert h == [MemberResult(a, ms[0])] + h';
          assert h[..|r| - |acc|] == [MemberResult(a, ms[0])] + h'[..|r| - |acc'|];
          ConcatAssoc(acc, [MemberResult(a, ms[0])], h');
        } else {
          assert h == h';
        }
      }
    }
  }

  /** The leak: once the cap is reached, each further artist still adds
      its FIRST member when that member matches, because the `break` only
      leaves the member loop. */
  lemma MemberStepAfterCap(a: Data, ms: seq<string>, q: string, acc: seq<SearchResult>)
    requires |acc| >= Limit
    ensures MemberStep(a, ms, q, acc)
            == acc + (if ms != [] && MemberMatches(ms[0], q) then [MemberResult(a, ms[0])] else [])
  {
  }

  /** searchMembers never loses what it has: its output starts with the
      results it started from. */
  lemma {:induction false} MemberScanExtends(cache: seq<Data>, q: string, acc: seq<SearchResult>)
    ensures acc <= MemberScan(cache, q, acc)
    decreases |cache|
  {
    if cache != [] {
      MemberStepShape(cache[0], cache[0].members, q, acc);
      MemberScanExtends(cache[1..], q, MemberStep(cache[0], cache[0].members, q, acc));
    }
  }

  /** Up to the cap, searchMembers yields exactly the (artist, matching
      member) pairs in cache then member order; and when it ends below the
      cap it has yielded all of them. */
  lemma {:induction false} MemberScanPrefix(cache: seq<Data>, q: string, acc: seq<SearchResult>)
    ensures Cap(acc + AllMemberHits(cache, q)) <= MemberScan(cache, q, acc)
    ensures |MemberScan(cache, q, acc)| < Limit ==> MemberScan(cache, q, acc) == acc + AllMemberHits(cache, q)
    decreases |cache|
  {
    if cache == [] {
      assert acc + AllMemberHits(cache, q) == acc;
    } else {
      var h := MemberHits(cache[0], cache[0].members, q);
      var acc' := MemberStep(cache[0], cache[0].members, q, acc);
      var rest := AllMemberHits(cache[1..], q);
      var r := MemberScan(cache, q, acc);
      MemberStepShape(cache[0], cache[0].members, q, acc);
      MemberScanPrefix(cache[1..], q, acc');
      MemberScanExtends(cache[1..], q, acc');
      assert acc + AllMemberHits(cache, q) == acc + h + rest;
      if |acc'| < Limit {
        assert acc' == acc + h;
        assert acc' + rest == acc + AllMemberHits(cache, q);
      } else {
        var full := acc + h + rest;
        assert full[..|acc'|] == acc';
        assert Cap(full) <= acc';
      }
    }
  }

  /** The total is bounded only by the cap plus one per artist. */
  lemma {:induction false} MemberScanBound(cache: seq<Data>, q: string, acc: seq<SearchResult>)
    ensures |MemberScan(cache, q, acc)| <= (if |acc| < Limit then Limit - 1 else |acc|) + |cache|
    decreases |cache|
  {
    if cache != [] {
      var acc' := MemberStep(cache[0], cache[0].members, q, acc);
      MemberStepShape(cache[0], cache[0].members, q, acc);
      if |acc| >= Limit {
        MemberStepAfterCap(cache[0], cache[0].members, q, acc);
      }
      MemberScanBound(cache[1..], q, acc');
    }
  }

  lemma {:induction false} AllMembersHit(a: Data, ms: seq<string>, q: string)
    requires forall k :: 0 <= k < |ms| ==> MemberMatches(ms[k], q)
    ensures |MemberHits(a, ms, q)| == |ms|
    decreases |ms|
  {
    if ms != [] {
      AllMembersHit(a, ms[1..], q);
    }
  }

  /** The per-scanner cap of searchMembers does not hold: an artist with
      ten members named "x" followed by one more with a member "x" give
      eleven results for the query "x". */
  lemma MemberCapLeaks(a: Data, b: Data)
    requires |a.members| == Limit && forall k :: 0 <= k < |a.members| ==> a.members[k] == "x"
    requires b.members == ["x"]
    ensures |MemberScan([a, b], "x", [])| == Limit + 1
  {
    assert ToLower("x") == "x";
    assert MemberMatches("x", "x") by {
      assert OccursAt("x", "x", 0);
    }
    AllMembersHit(a, a.members, "x");
    MemberStepShape(a, a.members, "x", []);
    var acc := MemberStep(a, a.members, "x", []);
    assert |acc| == Limit;
    MemberStepAfterCap(b, b.members, "x", acc);
    assert [a, b][1..] == [b];
    assert [b][1..] == [];
    assert MemberScan([a, b], "x", []) == MemberScan([b], "x", acc);
    assert MemberScan([b], "x", acc) == MemberStep(b, ["x"], "x", acc);
  }

  // ---------------------------------------------------------------------
  // Properties of searchLocations

  /** No appended result (from position `from` on) repeats the artist id
      and location of an earlier one. */
  predicate FreshFrom(r: seq<SearchResult>, from: nat) {
    forall i, j :: 0 <= i < j < |r| && from <= j ==> !(r[i].id == r[j].id && r[i].context == r[j].context)
  }

  /** Every result appended after position `from` is a location hit of the
      locations list `ls`, named from the cache. */
  predicate LocationHitsOf(r: seq<SearchResult>, from: nat, ls: seq<Location>, cache: seq<Data>, q: string) {
    forall j :: from <= j < |r| ==>
      r[j].kind == "location" && LocationMatches(r[j].context, q) && r[j].text == NameById(cache, r[j].id)
      && exists k :: 0 <= k < |ls| && ls[k].artistId == r[j].id && r[j].context in ls[k].locations
  }

  /** One location of LocationStep: the accumulator after it keeps the
      freshness and provenance invariants, and has the location in it when
      it matches. */
  lemma LocationAppendSpec(l: Location, m: string, cache: seq<Data>, q: string,
                           acc: seq<SearchResult>, from: nat, ls: seq<Location>)
    requires from <= |acc| && FreshFrom(acc, from)
    requires LocationHitsOf(acc, from, ls, cache, q)
    requires l in ls && m in l.locations
    ensures var acc' := if LocationMatches(m, q) && !Seen(acc, l.artistId, m)
                        then acc + [LocationResult(l.artistId, NameById(cache, l.artistId), m)] else acc;
            acc <= acc' && FreshFrom(acc', from) && LocationHitsOf(acc', from, ls, cache, q)
            && (LocationMatches(m, q) ==> Seen(acc', l.artistId, m))
  {
    if LocationMatches(m, q) && !Seen(acc, l.artistId, m) {
      var acc' := acc + [LocationResult(l.artistId, NameById(cache, l.artistId), m)];
      assert acc'[|acc|].id == l.artistId && acc'[|acc|].context == m;
      var k :| 0 <= k < |ls| && ls[k] == l;
      assert LocationHitsOf(acc', from, ls, cache, q);
    }
  }

  lemma {:induction false} LocationStepSpec(l: Location, locs: seq<string>, cache: seq<Data>, q: string,
                                            acc: seq<SearchResult>, from: nat, ls: seq<Location>)
    requires from <= |acc| && FreshFrom(acc, from)
    requires LocationHitsOf(acc, from, ls, cache, q)
    requires l in ls && forall m :: m in locs ==> m in l.locations
    ensures var r := LocationStep(l.artistId, locs, NameById(cache, l.artistId), q, acc);
            acc <= r && FreshFrom(r, from) && LocationHitsOf(r, from, ls, cache, q)
            && forall m :: m in locs && LocationMatches(m, q) ==> Seen(r, l.artistId, m)
    decreases |locs|
  {
    if locs != [] {
      var name := NameById(cache, l.artistId);
      var m := locs[0];
      var acc' := if LocationMatches(m, q) && !Seen(acc, l.artistId, m)
                  then acc + [LocationResult(l.artistId, name, m)] else acc;
      LocationAppendSpec(l, m, cache, q, acc, from, ls);
      LocationStepSpec(l, locs[1..], cache, q, acc', from, ls);
      var r := LocationStep(l.artistId, locs, name, q, acc);
      assert r == LocationStep(l.artistId, locs[1..], name, q, acc');
      if LocationMatches(m, q) {
        SeenKept(acc', r, l.artistId, m);
      }
      forall m' | m' in locs && LocationMatches(m', q) ensures Seen(r, l.artistId, m') {
        if m' != m {
          assert m' in locs[1..];
        }
      }
    }
  }

  /** What an accumulator has seen, any extension of it has seen too. */
  lemma SeenKept(acc: seq<SearchResult>, r: seq<SearchResult>, id: int, m: string)
    requires acc <= r && Seen(acc, id, m)
    ensures Seen(r, id, m)
  {
    var k :| 0 <= k < |acc| && acc[k].id == id && acc[k].context == m;
    assert r[k] == acc[k];
  }

  /** The locations half of searchLocations only appends; what it appends
      is never a repeat (by artist id and location) of anything before it,
      including the relation hits; each appended result is a matching
      location of some locations record; and every matching location of
      every record is represented in the output. */
  lemma {:induction false} LocationScanSpec(ls: seq<Location>, cache: seq<Data>, q: string,
                                            acc: seq<SearchResult>, from: nat, all: seq<Location>)
    requires from <= |acc| && FreshFrom(acc, from)
    requires LocationHitsOf(acc, from, all, cache, q)
    requires forall l :: l in ls ==> l in all
    ensures var r := LocationScan(ls, cache, q, acc);
            acc <= r && FreshFrom(r, from) && LocationHitsOf(r, from, all, cache, q)
            && forall k, m :: 0 <= k < |ls| && m in ls[k].locations && LocationMatches(m, q) ==> Seen(r, ls[k].artistId, m)
    decreases |ls|
  {
    if ls != [] {
      var acc' := LocationStep(ls[0].artistId, ls[0].locations, NameById(cache, ls[0].artistId), q, acc);
      LocationStepSpec(ls[0], ls[0].locations, cache, q, acc, from, all);
      LocationScanSpec(ls[1..], cache, q, acc', from, all);
      var r := LocationScan(ls, cache, q, acc);
      forall k, m | 0 <= k < |ls| && m in ls[k].locations && LocationMatches(m, q)
        ensures Seen(r, ls[k].artistId, m)
      {
        if k == 0 {
          var i :| 0 <= i < |acc'| && acc'[i].id == ls[0].artistId && acc'[i].context == m;
          assert r[i] == acc'[i];
        } else {
          assert ls[1..][k - 1] == ls[k];
        }
      }
    }
  }

  /** The relation half of searchLocations: a result is a relation hit
      exactly when some relation record has that place, the place matches,
      and the text is the cached name of the record's artist. */
  lemma {:induction false} RelationHitsExactly(rels: seq<DatesLocation>, cache: seq<Data>, q: string, x: SearchResult)
    ensures x in RelationHits(rels, cache, q) <==>
            exists k, p :: 0 <= k < |rels| && p in rels[k].places && LocationMatches(p.location, q)
                           && x == LocationResult(rels[k].id, NameById(cache, rels[k].id), p.location)
    decreases |rels|
  {
    if rels != [] {
      RelationHitsExactly(rels[1..], cache, q, x);
      PlaceHitsExactly(rels[0].id, rels[0].places, NameById(cache, rels[0].id), q, x);
      if x in RelationHits(rels[1..], cache, q) {
        var k, p :| 0 <= k < |rels[1..]| && p in rels[1..][k].places && LocationMatches(p.location, q)
                    && x == LocationResult(rels[1..][k].id, NameById(cache, rels[1..][k].id), p.location);
        assert rels[k + 1] == rels[1..][k];
      }
      if exists k, p :: 0 <= k < |rels| && p in rels[k].places && LocationMatches(p.location, q)
                        && x == LocationResult(rels[k].id, NameById(cache, rels[k].id), p.location) {
        var k, p :| 0 <= k < |rels| && p in rels[k].places && LocationMatches(p.location, q)
                    && x == LocationResult(rels[k].id, NameById(cache, rels[k].id), p.location);
        if k > 0 {
          assert rels[1..][k - 1] == rels[k];
        }
      }
    }
  }

  lemma {:induction false} PlaceHitsExactly(id: int, places: DatesLocations, name: string, q: string, x: SearchResult)
    ensures x in PlaceHits(id, places, name, q) <==>
            exists p :: p in places && LocationMatches(p.location, q) && x == LocationResult(id, name, p.location)
    decreases |places|
  {
    if places != [] {
      PlaceHitsExactly(id, places[1..], name, q, x);
      assert forall p :: p in places <==> p == places[0] || p in places[1..];
    }
  }

  /** searchLocations as a whole, on two successful downloads: the relation
      hits come first, unfiltered; then come the location-list hits that
      repeat no earlier (artist id, location); nothing is capped. */
  lemma SearchLocationsSpec(cache: seq<Data>, q: string, rels: seq<DatesLocation>, ls: seq<Location>)
    ensures var out := LocationsOutput(cache, q, Ok(rels), Ok(ls));
            var fromRelations := RelationHits(rels, cache, q);
            out.Ok? && fromRelations <= out.value
            && FreshFrom(out.value, |fromRelations|)
            && LocationHitsOf(out.value, |fromRelations|, ls, cache, q)
            && forall k, m :: 0 <= k < |ls| && m in ls[k].locations && LocationMatches(m, q) ==> Seen(out.value, ls[k].artistId, m)
  {
    var fromRelations := RelationHits(rels, cache, q);
    LocationScanSpec(ls, cache, q, fromRelations, |fromRelations|, ls);
  }

  // ---------------------------------------------------------------------
  // SearchHandler

  /** The scanners, in the order SearchHandler runs them. */
  datatype Scanner = Artists | Locations | Creations | FirstAlbums | Members

  const Order: seq<Scanner> := [Artists, Locations, Creations, FirstAlbums, Members]

  /** What one scanner returns for the (already lower-cased) query. */
  function ScannerOutput(s: Scanner, cache: seq<Data>, q: string, relations: Result<seq<DatesLocation>>,
                         locations: Result<seq<Location>>): Result<seq<SearchResult>> {
    match s
    case Artists => Ok(Cap(FieldHits(cache, q, ByName)))
    case Locations => LocationsOutput(cache, q, relations, locations)
    case Creations => Ok(Cap(FieldHits(cache, q, ByCreation)))
    case FirstAlbums => Ok(Cap(FieldHits(cache, q, ByFirstAlbum)))
    case Members => Ok(MemberScan(cache, q, []))
  }

  function Outputs(cache: seq<Data>, q: string, relations: Result<seq<DatesLocation>>,
                   locations: Result<seq<Location>>): (r: seq<Result<seq<SearchResult>>>)
    ensures |r| == |Order|
  {
    seq(|Order|, k requires 0 <= k < |Order| => ScannerOutput(Order[k], cache, q, relations, locations))
  }

  method RunScanner(s: Scanner, cache: seq<Data>, q: string, relations: Result<seq<DatesLocation>>,
                    locations: Result<seq<Location>>) returns (r: Result<seq<SearchResult>>)
    ensures r == ScannerOutput(s, cache, q, relations, locations)
  {
    match s
    case Artists =>
      var rs := SearchArtists(cache, q);
      r := Ok(rs);
    case Locations =>
      r := SearchLocations(cache, q, relations, locations);
    case Creations =>
      var rs := SearchCreations(cache, q);
      r := Ok(rs);
    case FirstAlbums =>
      var rs := SearchFirstAlbum(cache, q);
      r := Ok(rs);
    case Members =>
      var rs := SearchMembers(cache, q);
      r := Ok(rs);
  }

  /** The dedup key of SearchHandler. */
  function Key(r: SearchResult): (string, int, string) {
    (r.kind, r.id, r.context)
  }

  predicate Duplicate(acc: seq<SearchResult>, r: SearchResult) {
    exists k :: 0 <= k < |acc| && Key(acc[k]) == Key(r)
  }

  predicate UniqueKeys(rs: seq<SearchResult>) {
    forall i, j :: 0 <= i < j < |rs| ==> Key(rs[i]) != Key(rs[j])
  }

  /** `a` is `b` with some elements left out, order kept. */
  predicate IsSubseq<T(==)>(a: seq<T>, b: seq<T>)
    decreases |b|
  {
    a == [] || (b != [] && ((a[0] == b[0] && IsSubseq(a[1..], b[1..])) || IsSubseq(a, b[1..])))
  }

  /** The inner loop of SearchHandler: add each result of one scanner that
      is not a duplicate, and stop as soon as `Limit` results are in. */
  function MergeInto(acc: seq<SearchResult>, rs: seq<SearchResult>): seq<SearchResult>
    decreases |rs|
  {
    if rs == [] then acc
    else
      var acc' := if Duplicate(acc, rs[0]) then acc else acc + [rs[0]];
      if |acc'| >= Limit then acc' else MergeInto(acc', rs[1..])
  }

  /** The outer loop of SearchHandler over the scanner outputs: the first
      failing scanner fails the search, and reaching `Limit` skips every
      later scanner. */
  function Merge(outs: seq<Result<seq<SearchResult>>>, acc: seq<SearchResult>): Result<seq<SearchResult>>
    decreases |outs|
  {
    if outs == [] then Ok(acc)
    else match outs[0]
      case Err(e) => Err(e)
      case Panic => Panic
      case Ok(rs) =>
        var acc' := MergeInto(acc, rs);
        if |acc'| >= Limit then Ok(acc') else Merge(outs[1..], acc')
  }

  /** The final `allResults[:10]`. */
  function Truncate(rs: seq<SearchResult>): seq<SearchResult> {
    if |rs| > Limit then rs[..Limit] else rs
  }

  /** A JSON array; a nil Go slice encodes as `null`. */
  datatype JsonList = Null | List(items: seq<SearchResult>)

  datatype SearchResponse =
    | MethodNotAllowed                      // 405 error page
    | InternalError(message: string)        // 500, plain text
    | Aborted                               // a panic unwound the request
    | Json(success: bool, results: JsonList)

  /** SearchHandler for a request with this method and `q` parameter (""
      when absent). */
  function SearchReply(cache: seq<Data>, httpMethod: string, q: string, relations: Result<seq<DatesLocation>>,
                       locations: Result<seq<Location>>): SearchResponse {
    if httpMethod != "GET" then MethodNotAllowed
    else
      var query := ToLower(q);
      if query == "" then Json(true, List([]))
      else match Merge(Outputs(cache, query, relations, locations), [])
        case Err(e) => InternalError("Error performing search: " + e)
        case Panic => Aborted
        case Ok(rs) =>
          var all := Truncate(rs);
          Json(true, if all == [] then Null else List(all))
  }

  method SearchHandler(cache: seq<Data>, httpMethod: string, q: string, relations: Result<seq<DatesLocation>>,
                       locations: Result<seq<Location>>) returns (reply: SearchResponse)
    ensures reply == SearchReply(cache, httpMethod, q, relations, locations)
  {
    if httpMethod != "GET" {
      return MethodNotAllowed;
    }
    var query := ToLower(q);
    if query == "" {
      return Json(true, List([]));
    }
    ghost var outs := Outputs(cache, query, relations, locations);
    var allResults: seq<SearchResult> := [];
    var n := 0;
    while n < |Order|
      invariant 0 <= n <= |Order|
      invariant |allResults| < Limit
      invariant Merge(outs[n..], allResults) == Merge(outs, [])
    {
      assert outs[n..][1..] == outs[n + 1..];
      var results := RunScanner(Order[n], cache, query, relations, locations);
      assert results == outs[n];
      if results.Err? {
        return InternalError("Error performing search: " + results.error);
      }
      if results.Panic? {
        return Aborted;
      }
      allResults := MergeResults(allResults, results.value);
      if |allResults| >= Limit {
        break;
      }
      n := n + 1;
    }
    if |allResults| > Limit {
      allResults := allResults[..Limit];
    }
    return Json(true, if allResults == [] then Null else List(allResults));
  }

  /** The inner loop of SearchHandler over one scanner's results. */
  method MergeResults(acc: seq<SearchResult>, rs: seq<SearchResult>) returns (allResults: seq<SearchResult>)
    requires |acc| < Limit
    ensures allResults == MergeInto(acc, rs)
  {
    allResults := acc;
    var j := 0;
    while j < |rs|
      invariant 0 <= j <= |rs|
      invariant |allResults| < Limit
      invariant MergeInto(allResults, rs[j..]) == MergeInto(acc, rs)
    {
      assert rs[j..][1..] == rs[j + 1..];
      var isDuplicate := HasKey(allResults, rs[j]);
      if !isDuplicate {
        allResults := allResults + [rs[j]];
      }
      if |allResults| >= Limit {
        return;
      }
      j := j + 1;
    }
  }

  /** The duplicate check of SearchHandler: a linear scan for an earlier
      result with the same type, id and context. */
  method HasKey(acc: seq<SearchResult>, r: SearchResult) returns (isDuplicate: bool)
    ensures isDuplicate == Duplicate(acc, r)
  {
    for e := 0 to |acc|
      invariant forall k :: 0 <= k < e ==> Key(acc[k]) != Key(r)
    {
      if acc[e].kind == r.kind && acc[e].id == r.id && acc[e].context == r.context {
        return true;
      }
    }
    return false;
  }

  // ---------------------------------------------------------------------
  // Properties of the merge

  lemma {:induction false} SubseqPrepend<T>(a: seq<T>, b: seq<T>, c: seq<T>)
    requires IsSubseq(a, b)
    ensures IsSubseq(a, c + b)
    decreases |c|
  {
    if c == [] {
      assert c + b == b;
    } else {
      SubseqPrepend(a, b, c[1..]);
      assert (c + b)[1..] == c[1..] + b;
    }
  }

  lemma {:induction false} SubseqConcat<T>(a1: seq<T>, b1: seq<T>, a2: seq<T>, b2: seq<T>)
    requires IsSubseq(a1, b1) && IsSubseq(a2, b2)
    ensures IsSubseq(a1 + a2, b1 + b2)
    decreases |b1|
  {
    if a1 == [] {
      assert a1 + a2 == a2;
      SubseqPrepend(a2, b2, b1);
    } else {
      assert (b1 + b2)[1..] == b1[1..] + b2;
      if a1[0] == b1[0] && IsSubseq(a1[1..], b1[1..]) {
        SubseqConcat(a1[1..], b1[1..], a2, b2);
        assert (a1 + a2)[1..] == a1[1..] + a2;
      } else {
        SubseqConcat(a1, b1[1..], a2, b2);
      }
    }
  }

  /** One scanner's merge appends to `acc` some of the scanner's results in
      their order, never a duplicate key, never past the cap; and when it
      ends below the cap, every result of the scanner is represented. */
  lemma MergeIntoSpec(acc: seq<SearchResult>, rs: seq<SearchResult>)
    ensures var m := MergeInto(acc, rs);
            acc <= m && IsSubseq(m[|acc|..], rs)
            && (|acc| < Limit ==> |m| <= Limit)
            && (UniqueKeys(acc) ==> UniqueKeys(m))
            && (|m| < Limit ==> forall k :: 0 <= k < |rs| ==> Duplicate(m, rs[k]))
  {
    MergeIntoExtends(acc, rs);
    if |acc| < Limit {
      MergeIntoBound(acc, rs);
    }
    if UniqueKeys(acc) {
      MergeIntoUnique(acc, rs);
    }
    MergeIntoCoversAll(acc, rs);
  }

  lemma {:induction false} MergeIntoExtends(acc: seq<SearchResult>, rs: seq<SearchResult>)
    ensures var m := MergeInto(acc, rs);
            acc <= m && IsSubseq(m[|acc|..], rs)
    decreases |rs|
  {
    var m := MergeInto(acc, rs);
    if rs == [] {
      assert m[|acc|..] == [];
    } else {
      var acc' := if Duplicate(acc, rs[0]) then acc else acc + [rs[0]];
      AddIfNewSpec(acc, rs[0]);
      if |acc'| >= Limit {
        assert m == acc';
        if m[|acc|..] != [] {
          assert m[|acc|..] == [rs[0]];
          assert IsSubseq(m[|acc|..][1..], rs[1..]);
        }
      } else {
        MergeIntoExtends(acc', rs[1..]);
        var d' := m[|acc'|..];
        if Duplicate(acc, rs[0]) {
          SubseqPrepend(d', rs[1..], [rs[0]]);
          assert [rs[0]] + rs[1..] == rs;
        } else {
          assert m[|acc|..] == [rs[0]] + d';
          assert m[|acc|..][1..] == d';
        }
      }
    }
  }

  lemma {:induction false} MergeIntoBound(acc: seq<SearchResult>, rs: seq<SearchResult>)
    requires |acc| < Limit
    ensures |MergeInto(acc, rs)| <= Limit
    decreases |rs|
  {
    if rs != [] {
      var acc' := if Duplicate(acc, rs[0]) then acc else acc + [rs[0]];
      if |acc'| < Limit {
        MergeIntoBound(acc', rs[1..]);
      }
    }
  }

  lemma {:induction false} MergeIntoUnique(acc: seq<SearchResult>, rs: seq<SearchResult>)
    requires UniqueKeys(acc)
    ensures UniqueKeys(MergeInto(acc, rs))
    decreases |rs|
  {
    if rs != [] {
      var acc' := if Duplicate(acc, rs[0]) then acc else acc + [rs[0]];
      AddIfNewSpec(acc, rs[0]);
      if |acc'| < Limit {
        MergeIntoUnique(acc', rs[1..]);
      }
    }
  }

  lemma {:induction false} MergeIntoCoversAll(acc: seq<SearchResult>, rs: seq<SearchResult>)
    ensures var m := MergeInto(acc, rs);
            |m| < Limit ==> forall k :: 0 <= k < |rs| ==> Duplicate(m, rs[k])
    decreases |rs|
  {
    if rs != [] {
      var m := MergeInto(acc, rs);
      var acc' := if Duplicate(acc, rs[0]) then acc else acc + [rs[0]];
      AddIfNewSpec(acc, rs[0]);
      if |acc'| < Limit {
        MergeIntoCoversAll(acc', rs[1..]);
        MergeIntoExtends(acc', rs[1..]);
        if |m| < Limit {
          MergeIntoCovers(rs, acc', m);
        }
      }
    }
  }

  /** One step of the inner loop: the result is added unless its key is
      already present; afterwards its key is present, and keys stay
      unique. */
  lemma AddIfNewSpec(acc: seq<SearchResult>, x: SearchResult)
    ensures var acc' := if Duplicate(acc, x) then acc else acc + [x];
            acc <= acc' && Duplicate(acc', x) && (UniqueKeys(acc) ==> UniqueKeys(acc'))
  {
    if !Duplicate(acc, x) {
      var acc' := acc + [x];
      assert Key(acc'[|acc|]) == Key(x);
    }
  }

  /** Coverage of the first result by `acc` and of the rest by `m` is
      coverage of all of them by `m`. */
  lemma MergeIntoCovers(rs: seq<SearchResult>, acc: seq<SearchResult>, m: seq<SearchResult>)
    requires rs != [] && acc <= m && Duplicate(acc, rs[0])
    requires forall k :: 0 <= k < |rs[1..]| ==> Duplicate(m, rs[1..][k])
    ensures forall k :: 0 <= k < |rs| ==> Duplicate(m, rs[k])
  {
    forall k | 0 <= k < |rs| ensures Duplicate(m, rs[k]) {
      if k == 0 {
        var i :| 0 <= i < |acc| && Key(acc[i]) == Key(rs[0]);
        assert m[i] == acc[i];
      } else {
        assert rs[1..][k - 1] == rs[k];
      }
    }
  }

  /** The results of every successful output, concatenated in scanner
      order. */
  function OkConcat(outs: seq<Result<seq<SearchResult>>>): seq<SearchResult> {
    if outs == [] then []
    else (if outs[0].Ok? then outs[0].value else []) + OkConcat(outs[1..])
  }

  /** Coverage carries over from the later scanners and the first one to
      the whole list. */
  lemma MergeCovers(outs: seq<Result<seq<SearchResult>>>, acc: seq<SearchResult>, r: seq<SearchResult>)
    requires outs != [] && outs[0].Ok? && acc <= r
    requires forall k :: 0 <= k < |outs[0].value| ==> Duplicate(acc, outs[0].value[k])
    requires forall k, x :: 0 <= k < |outs[1..]| && outs[1..][k].Ok? && x in outs[1..][k].value ==> Duplicate(r, x)
    ensures forall k, x :: 0 <= k < |outs| && outs[k].Ok? && x in outs[k].value ==> Duplicate(r, x)
  {
    forall k, x | 0 <= k < |outs| && outs[k].Ok? && x in outs[k].value ensures Duplicate(r, x) {
      if k == 0 {
        var j :| 0 <= j < |outs[0].value| && outs[0].value[j] == x;
        var i :| 0 <= i < |acc| && Key(acc[i]) == Key(x);
        assert r[i] == acc[i];
      } else {
        assert outs[1..][k - 1] == outs[k];
      }
    }
  }

  /** The results of `s` that SearchHandler keeps when nothing stops it
      early: each result whose (type, id, context) has not been kept
      before, in order, so the first result with each key survives. */
  function DedupKeys(s: seq<SearchResult>): seq<SearchResult>
    decreases |s|
  {
    if s == [] then []
    else
      var d := DedupKeys(s[..|s| - 1]);
      if Duplicate(d, s[|s| - 1]) then d else d + [s[|s| - 1]]
  }

  /** Keeping the first result per key yields unique keys, represents
      every key of `s`, and keeps results of `s` in their order. */
  lemma DedupKeysSpec(s: seq<SearchResult>)
    ensures UniqueKeys(DedupKeys(s))
    ensures forall x :: x in s ==> Duplicate(DedupKeys(s), x)
    ensures IsSubseq(DedupKeys(s), s)
  {
    DedupKeysUnique(s);
    DedupKeysCovers(s);
    DedupKeysSubseq(s);
  }

  lemma {:induction false} DedupKeysUnique(s: seq<SearchResult>)
    ensures UniqueKeys(DedupKeys(s))
    decreases |s|
  {
    if s != [] {
      DedupKeysUnique(s[..|s| - 1]);
      AddIfNewSpec(DedupKeys(s[..|s| - 1]), s[|s| - 1]);
    }
  }

  lemma {:induction false} DedupKeysCovers(s: seq<SearchResult>)
    ensures forall x :: x in s ==> Duplicate(DedupKeys(s), x)
    decreases |s|
  {
    if s != [] {
      var init, d := s[..|s| - 1], DedupKeys(s[..|s| - 1]);
      DedupKeysCovers(init);
      AddIfNewSpec(d, s[|s| - 1]);
      forall x | x in s ensures Duplicate(DedupKeys(s), x) {
        if x in init {
          var i :| 0 <= i < |d| && Key(d[i]) == Key(x);
          assert DedupKeys(s)[i] == d[i];
        } else {
          assert x == s[|s| - 1];
        }
      }
    }
  }

  lemma {:induction false} DedupKeysSubseq(s: seq<SearchResult>)
    ensures IsSubseq(DedupKeys(s), s)
    decreases |s|
  {
    if s != [] {
      var init, x := s[..|s| - 1], s[|s| - 1];
      var d := DedupKeys(init);
      DedupKeysSubseq(init);
      assert s == init + [x];
      if Duplicate(d, x) {
        SubseqConcat(d, init, [], [x]);
        assert d + [] == d;
      } else {
        assert IsSubseq([x][1..], [x][1..]);
        SubseqConcat(d, init, [x], [x]);
      }
    }
  }

  /** One more result extends the deduplicated sequence by that result or
      by nothing: the step of SearchHandler's inner loop. */
  lemma DedupKeysSnoc(p: seq<SearchResult>, x: SearchResult)
    ensures DedupKeys(p + [x]) == if Duplicate(DedupKeys(p), x) then DedupKeys(p) else DedupKeys(p) + [x]
  {
    assert (p + [x])[..|p|] == p;
  }

  /** Results read later never change the ones kept earlier. */
  lemma {:induction false} DedupKeysPrefix(a: seq<SearchResult>, b: seq<SearchResult>)
    ensures DedupKeys(a) <= DedupKeys(a + b)
    decreases |b|
  {
    if b == [] {
      assert a + b == a;
    } else {
      var b' := b[..|b| - 1];
      DedupKeysPrefix(a, b');
      assert a + b == (a + b') + [b[|b| - 1]];
      DedupKeysSnoc(a + b', b[|b| - 1]);
    }
  }

  /** A sequence whose keys are already unique is kept whole. */
  lemma {:induction false} DedupKeysOfUnique(s: seq<SearchResult>)
    requires UniqueKeys(s)
    ensures DedupKeys(s) == s
    decreases |s|
  {
    if s != [] {
      var init := s[..|s| - 1];
      assert UniqueKeys(init);
      DedupKeysOfUnique(init);
      assert !Duplicate(init, s[|s| - 1]);
      assert init + [s[|s| - 1]] == s;
    }
  }

  /** Once a prefix already holds `Limit` results, extending it does not
      change its first `Limit`. */
  lemma CapExtend(a: seq<SearchResult>, b: seq<SearchResult>)
    requires a <= b && |a| >= Limit
    ensures Cap(a) == Cap(b)
  {
    assert a[..Limit] == b[..Limit];
  }

  /** One scanner's merge, started from the deduplication of what was read
      so far, is the first `Limit` of the deduplication of everything read
      after it. */
  lemma {:induction false} MergeIntoDedup(p: seq<SearchResult>, rs: seq<SearchResult>)
    requires |DedupKeys(p)| < Limit
    ensures MergeInto(DedupKeys(p), rs) == Cap(DedupKeys(p + rs))
    decreases |rs|
  {
    if rs == [] {
      assert p + rs == p;
    } else {
      var x := rs[0];
      DedupKeysSnoc(p, x);
      var p' := p + [x];
      assert p' + rs[1..] == p + rs;
      if |DedupKeys(p')| >= Limit {
        DedupKeysPrefix(p', rs[1..]);
        CapExtend(DedupKeys(p'), DedupKeys(p + rs));
      } else {
        MergeIntoDedup(p', rs[1..]);
      }
    }
  }

  /** The whole merge, started likewise, is the first `Limit` of the
      deduplication of every successful output concatenated. */
  lemma {:induction false} MergeDedup(outs: seq<Result<seq<SearchResult>>>, p: seq<SearchResult>)
    requires |DedupKeys(p)| < Limit
    ensures var m := Merge(outs, DedupKeys(p));
            m.Ok? ==> m.value == Cap(DedupKeys(p + OkConcat(outs)))
    decreases |outs|
  {
    if outs == [] {
      assert p + OkConcat(outs) == p;
    } else if outs[0].Ok? {
      var rs := outs[0].value;
      MergeIntoDedup(p, rs);
      var rest := OkConcat(outs[1..]);
      assert OkConcat(outs) == rs + rest;
      ConcatAssoc(p, rs, rest);
      DedupKeysPrefix(p + rs, rest);
      if |DedupKeys(p + rs)| >= Limit {
        CapExtend(DedupKeys(p + rs), DedupKeys(p + rs + rest));
      } else {
        MergeDedup(outs[1..], p + rs);
      }
    }
  }

  /** The whole merge: the results are the first `Limit` of the starting
      ones followed by the scanners' concatenated outputs, once every result
      whose (type, id, context) appeared earlier is dropped. Hence they
      extend the starting ones by a subsequence of the outputs, at most
      `Limit` of them, with no two sharing a key; and when it ends below
      the cap, no scanner was cut short and every candidate of every
      scanner is represented. */
  lemma MergeSpec(outs: seq<Result<seq<SearchResult>>>, acc: seq<SearchResult>)
    requires |acc| < Limit && UniqueKeys(acc)
    ensures var m := Merge(outs, acc);
            m.Ok? ==> m.value == Cap(DedupKeys(acc + OkConcat(outs)))
                      && acc <= m.value && IsSubseq(m.value[|acc|..], OkConcat(outs))
                      && |m.value| <= Limit && UniqueKeys(m.value)
                      && (|m.value| < Limit ==> forall k, x :: 0 <= k < |outs| && outs[k].Ok? && x in outs[k].value
                                                               ==> Duplicate(m.value, x))
  {
    DedupKeysOfUnique(acc);
    MergeDedup(outs, acc);
    MergeShape(outs, acc);
  }

  /** The merge's shape, by induction over the scanner outputs. */
  lemma {:induction false} MergeShape(outs: seq<Result<seq<SearchResult>>>, acc: seq<SearchResult>)
    requires |acc| < Limit && UniqueKeys(acc)
    ensures var m := Merge(outs, acc);
            m.Ok? ==> acc <= m.value && IsSubseq(m.value[|acc|..], OkConcat(outs))
                      && |m.value| <= Limit && UniqueKeys(m.value)
                      && (|m.value| < Limit ==> forall k, x :: 0 <= k < |outs| && outs[k].Ok? && x in outs[k].value
                                                               ==> Duplicate(m.value, x))
    decreases |outs|
  {
    var m := Merge(outs, acc);
    if outs == [] {
      assert m.value[|acc|..] == [];
    } else if outs[0].Ok? && m.Ok? {
      var rs := outs[0].value;
      var acc' := MergeInto(acc, rs);
      MergeIntoSpec(acc, rs);
      var d1 := acc'[|acc|..];
      if |acc'| >= Limit {
        assert m.value == acc';
        assert IsSubseq(d1 + [], rs + OkConcat(outs[1..])) by {
          SubseqConcat(d1, rs, [], OkConcat(outs[1..]));
        }
        assert d1 + [] == d1;
      } else {
        MergeShape(outs[1..], acc');
        var r := m.value;
        var d2 := r[|acc'|..];
        assert r[|acc|..] == d1 + d2;
        SubseqConcat(d1, rs, d2, OkConcat(outs[1..]));
        if |r| < Limit {
          MergeCovers(outs, acc', r);
        }
      }
    }
  }

  /** What every successful search returns: the first ten of the
      scanners' results concatenated in the order artists, locations,
      creations, first album, members, after dropping every result whose
      (type, id, context) an earlier one already had; null when there are
      none. So the results are unique, in scanner order, and when fewer
      than ten are returned every candidate of every scanner that ran is
      represented. The final truncation never cuts anything. */
  lemma SearchResultsSpec(cache: seq<Data>, httpMethod: string, q: string,
                          relations: Result<seq<DatesLocation>>, locations: Result<seq<Location>>)
    ensures var reply := SearchReply(cache, httpMethod, q, relations, locations);
            var outs := Outputs(cache, ToLower(q), relations, locations);
            var kept := Cap(DedupKeys(OkConcat(outs)));
            reply.Json? && ToLower(q) != "" ==>
              reply.results == (if kept == [] then Null else List(kept))
              && |kept| <= Limit && UniqueKeys(kept) && IsSubseq(kept, OkConcat(outs))
              && (|kept| < Limit ==> forall k, x :: 0 <= k < |outs| && outs[k].Ok? && x in outs[k].value
                                                   ==> Duplicate(kept, x))
  {
    var outs := Outputs(cache, ToLower(q), relations, locations);
    MergeSpec(outs, []);
    var m := Merge(outs, []);
    if m.Ok? {
      assert [] + OkConcat(outs) == OkConcat(outs);
      assert m.value[0..] == m.value;
      assert Truncate(m.value) == m.value;
    }
  }

  /** The entry checks: a method other than GET is refused before anything
      else, and a `q` that is empty after lower-casing (absent or "", but
      not blank) returns an empty success without running any scanner, so
      no upstream failure can affect it. */
  lemma SearchEntryChecks(cache: seq<Data>, httpMethod: string, q: string,
                          relations: Result<seq<DatesLocation>>, locations: Result<seq<Location>>)
    ensures httpMethod != "GET" ==> SearchReply(cache, httpMethod, q, relations, locations) == MethodNotAllowed
    ensures httpMethod == "GET" && q == "" ==> SearchReply(cache, httpMethod, q, relations, locations) == Json(true, List([]))
    ensures httpMethod == "GET" && q != "" ==> SearchReply(cache, httpMethod, q, relations, locations) != Json(true, List([]))
  {
    var outs := Outputs(cache, ToLower(q), relations, locations);
    MergeSpec(outs, []);
  }

  /** A merge of outputs that all succeeded succeeds. */
  lemma {:induction false} MergeAllOk(outs: seq<Result<seq<SearchResult>>>, acc: seq<SearchResult>)
    requires forall k :: 0 <= k < |outs| ==> outs[k].Ok?
    ensures Merge(outs, acc).Ok?
    decreases |outs|
  {
    if outs != [] {
      assert forall k :: 0 <= k < |outs[1..]| ==> outs[1..][k] == outs[k + 1];
      MergeAllOk(outs[1..], MergeInto(acc, outs[0].value));
    }
  }

  /** A merge of outputs that are all empty keeps what it started with. */
  lemma {:induction false} MergeAllEmpty(outs: seq<Result<seq<SearchResult>>>, acc: seq<SearchResult>)
    requires |acc| < Limit
    requires forall k :: 0 <= k < |outs| ==> outs[k] == Ok([])
    ensures Merge(outs, acc) == Ok(acc)
    decreases |outs|
  {
    if outs != [] {
      assert forall k :: 0 <= k < |outs[1..]| ==> outs[1..][k] == outs[k + 1];
      MergeAllEmpty(outs[1..], acc);
    }
  }

  lemma OutputsShape(cache: seq<Data>, q: string, relations: Result<seq<DatesLocation>>,
                     locations: Result<seq<Location>>)
    ensures var outs := Outputs(cache, q, relations, locations);
            outs[0] == Ok(Cap(FieldHits(cache, q, ByName)))
            && outs[1] == LocationsOutput(cache, q, relations, locations)
            && forall k :: 2 <= k < |outs| ==> outs[k].Ok?
  {
  }

  /** The only scanner that can fail is searchLocations, the second one;
      the search fails with 500 exactly when that scanner fails AND the
      artist-name results have not already filled the ten places, in which
      case searchLocations is never run. */
  lemma SearchFailure(cache: seq<Data>, q: string, relations: Result<seq<DatesLocation>>,
                      locations: Result<seq<Location>>)
    requires ToLower(q) != ""
    ensures var lq := ToLower(q);
            var fromArtists := MergeInto([], Cap(FieldHits(cache, lq, ByName)));
            var reply := SearchReply(cache, "GET", q, relations, locations);
            reply.InternalError? <==> |fromArtists| < Limit && LocationsOutput(cache, lq, relations, locations).Err?
  {
    var lq := ToLower(q);
    var outs := Outputs(cache, lq, relations, locations);
    OutputsShape(cache, lq, relations, locations);
    var fromArtists := MergeInto([], outs[0].value);
    if |fromArtists| < Limit {
      var t := outs[1..];
      assert Merge(outs, []) == Merge(t, fromArtists);
      if t[0].Ok? {
        assert forall k :: 0 <= k < |t[1..]| ==> t[1..][k] == outs[k + 2];
        MergeAllOk(t[1..], MergeInto(fromArtists, t[0].value));
      }
    }
  }

  /** Once the artist-name scanner alone fills the ten places, the reply
      no longer depends on the upstream lists at all. */
  lemma SearchStopsAtCap(cache: seq<Data>, q: string,
                         rel1: Result<seq<DatesLocation>>, loc1: Result<seq<Location>>,
                         rel2: Result<seq<DatesLocation>>, loc2: Result<seq<Location>>)
    requires ToLower(q) != ""
    requires |MergeInto([], Cap(FieldHits(cache, ToLower(q), ByName)))| >= Limit
    ensures SearchReply(cache, "GET", q, rel1, loc1) == SearchReply(cache, "GET", q, rel2, loc2)
    ensures SearchReply(cache, "GET", q, rel1, loc1)
            == Json(true, List(MergeInto([], Cap(FieldHits(cache, ToLower(q), ByName)))))
  {
    var lq := ToLower(q);
    OutputsShape(cache, lq, rel1, loc1);
    OutputsShape(cache, lq, rel2, loc2);
    MergeIntoSpec([], Cap(FieldHits(cache, lq, ByName)));
  }

  /** With an empty cache and nothing upstream, a non-empty query finds
      nothing and the results field is JSON null (the nil slice), whereas
      the empty query answers with an empty array. */
  lemma NothingFoundIsNull(q: string)
    requires q != ""
    ensures SearchReply([], "GET", q, Ok([]), Ok([])) == Json(true, Null)
    ensures SearchReply([], "GET", "", Ok([]), Ok([])) == Json(true, List([]))
  {
    var lq := ToLower(q);
    var outs := Outputs([], lq, Ok([]), Ok([]));
    assert forall k :: 0 <= k < |outs| ==> outs[k] == Ok([]);
    MergeAllEmpty(outs, []);
  }

  // ---------------------------------------------------------------------
  // What search reads of the cache

  /** The fields of a cache entry that search reads: everything except
      the three that ArtistHandler fills in. */
  predicate SameSearchFields(a: Data, b: Data) {
    a.name == b.name && a.id == b.id && a.members == b.members
    && a.creationDate == b.creationDate && a.firstAlbum == b.firstAlbum
  }

  predicate SameSearchView(c1: seq<Data>, c2: seq<Data>) {
    |c1| == |c2| && forall k :: 0 <= k < |c1| ==> SameSearchFields(c1[k], c2[k])
  }

  lemma {:induction false} ViewFieldHits(c1: seq<Data>, c2: seq<Data>, q: string, f: Field)
    requires SameSearchView(c1, c2)
    ensures FieldHits(c1, q, f) == FieldHits(c2, q, f)
    decreases |c1|
  {
    if c1 != [] {
      var n := |c1| - 1;
      assert SameSearchView(c1[..n], c2[..n]) by {
        forall k | 0 <= k < n ensures SameSearchFields(c1[..n][k], c2[..n][k]) {
          assert SameSearchFields(c1[k], c2[k]);
        }
      }
      ViewFieldHits(c1[..n], c2[..n], q, f);
      assert SameSearchFields(c1[n], c2[n]);
    }
  }

  lemma {:induction false} ViewLookups(c1: seq<Data>, c2: seq<Data>, id: int)
    requires SameSearchView(c1, c2)
    ensures NameById(c1, id) == NameById(c2, id)
    ensures CreationById(c1, id) == CreationById(c2, id)
    decreases |c1|
  {
    if c1 != [] {
      assert SameSearchFields(c1[0], c2[0]);
      assert SameSearchView(c1[1..], c2[1..]) by {
        forall k | 0 <= k < |c1| - 1 ensures SameSearchFields(c1[1..][k], c2[1..][k]) {
          assert SameSearchFields(c1[k + 1], c2[k + 1]);
        }
      }
      ViewLookups(c1[1..], c2[1..], id);
    }
  }

  lemma {:induction false} ViewMemberStep(a: Data, b: Data, ms: seq<string>, q: string, acc: seq<SearchResult>)
    requires a.id == b.id && a.name == b.name
    ensures MemberStep(a, ms, q, acc) == MemberStep(b, ms, q, acc)
    decreases |ms|
  {
    if ms != [] {
      var acc' := if MemberMatches(ms[0], q) then acc + [MemberResult(a, ms[0])] else acc;
      ViewMemberStep(a, b, ms[1..], q, acc');
    }
  }

  lemma {:induction false} ViewMemberScan(c1: seq<Data>, c2: seq<Data>, q: string, acc: seq<SearchResult>)
    requires SameSearchView(c1, c2)
    ensures MemberScan(c1, q, acc) == MemberScan(c2, q, acc)
    decreases |c1|
  {
    if c1 != [] {
      assert SameSearchFields(c1[0], c2[0]);
      ViewMemberStep(c1[0], c2[0], c1[0].members, q, acc);
      assert SameSearchView(c1[1..], c2[1..]) by {
        forall k | 0 <= k < |c1| - 1 ensures SameSearchFields(c1[1..][k], c2[1..][k]) {
          assert SameSearchFields(c1[k + 1], c2[k + 1]);
        }
      }
      ViewMemberScan(c1[1..], c2[1..], q, MemberStep(c1[0], c1[0].members, q, acc));
    }
  }

  lemma {:induction false} ViewRelationHits(rs: seq<DatesLocation>, c1: seq<Data>, c2: seq<Data>, q: string)
    requires SameSearchView(c1, c2)
    ensures RelationHits(rs, c1, q) == RelationHits(rs, c2, q)
    decreases |rs|
  {
    if rs != [] {
      ViewLookups(c1, c2, rs[0].id);
      ViewRelationHits(rs[1..], c1, c2, q);
    }
  }

  lemma {:induction false} ViewLocationScan(ls: seq<Location>, c1: seq<Data>, c2: seq<Data>, q: string,
                                            acc: seq<SearchResult>)
    requires SameSearchView(c1, c2)
    ensures LocationScan(ls, c1, q, acc) == LocationScan(ls, c2, q, acc)
    decreases |ls|
  {
    if ls != [] {
      ViewLookups(c1, c2, ls[0].artistId);
      ViewLocationScan(ls[1..], c1, c2, q,
                       LocationStep(ls[0].artistId, ls[0].locations, NameById(c1, ls[0].artistId), q, acc));
    }
  }

  lemma ViewScannerOutput(s: Scanner, c1: seq<Data>, c2: seq<Data>, q: string,
                          relations: Result<seq<DatesLocation>>, locations: Result<seq<Location>>)
    requires SameSearchView(c1, c2)
    ensures ScannerOutput(s, c1, q, relations, locations) == ScannerOutput(s, c2, q, relations, locations)
  {
    match s
    case Artists => ViewFieldHits(c1, c2, q, ByName);
    case Creations => ViewFieldHits(c1, c2, q, ByCreation);
    case FirstAlbums => ViewFieldHits(c1, c2, q, ByFirstAlbum);
    case Members => ViewMemberScan(c1, c2, q, []);
    case Locations =>
      if relations.Ok? && locations.Ok? {
        ViewRelationHits(relations.value, c1, c2, q);
        ViewLocationScan(locations.value, c1, c2, q, RelationHits(relations.value, c1, q));
      }
  }

  /** Search reads of each cache entry only its name, id, members,
      creation year and first album: two caches that agree on those get
      the same reply to every search request. */
  lemma SearchReadsOnlyView(c1: seq<Data>, c2: seq<Data>, httpMethod: string, q: string,
                            relations: Result<seq<DatesLocation>>, locations: Result<seq<Location>>)
    requires SameSearchView(c1, c2)
    ensures SearchReply(c1, httpMethod, q, relations, locations) == SearchReply(c2, httpMethod, q, relations, locations)
  {
    var lq := ToLower(q);
    var o1, o2 := Outputs(c1, lq, relations, locations), Outputs(c2, lq, relations, locations);
    forall k | 0 <= k < |Order| ensures o1[k] == o2[k] {
      ViewScannerOutput(Order[k], c1, c2, lq, relations, locations);
    }
    assert o1 == o2;
  }

  // ---------------------------------------------------------------------
  // The cases of handlers/search_test.go

  /** The three artists the tests put in the cache. */
  function TestCache(): seq<Data> {
    [ Data("The Beatles", 1, "", ["John", "Paul", "George", "Ringo"], 1960, "Please Please Me", [], [], []),
      Data("Queen", 2, "", ["Freddie", "Brian", "Roger", "John"], 1970, "Queen", [], [], []),
      Data("Pink Floyd", 3, "", ["Roger", "David", "Nick", "Richard"], 1965, "The Piper at the Gates of Dawn", [], [], []) ]
  }

  lemma FieldHitsOfThree(cache: seq<Data>, q: string, f: Field)
    requires |cache| == 3
    ensures FieldHits(cache, q, f)
            == OptionSeq(FieldHit(cache[0], q, f)) + OptionSeq(FieldHit(cache[1], q, f))
               + OptionSeq(FieldHit(cache[2], q, f))
  {
    var h0 := OptionSeq(FieldHit(cache[0], q, f));
    var h1 := OptionSeq(FieldHit(cache[1], q, f));
    FieldHitsSnoc(cache, 0, q, f);
    assert cache[..0] == [];
    assert FieldHits(cache[..1], q, f) == h0;
    FieldHitsSnoc(cache, 1, q, f);
    assert FieldHits(cache[..2], q, f) == h0 + h1;
    FieldHitsSnoc(cache, 2, q, f);
    assert cache[..3] == cache;
  }

  lemma LowerBeatles() ensures ToLower("The Beatles") == "the beatles" {
    LowerCaseOf("The Beatles", "the beatles");
  }
  lemma LowerQueen() ensures ToLower("Queen") == "queen" {
    LowerCaseOf("Queen", "queen");
  }
  lemma LowerPinkFloyd() ensures ToLower("Pink Floyd") == "pink floyd" {
    LowerCaseOf("Pink Floyd", "pink floyd");
  }

  /** An artist-name hit, given the lower-cased name and query. */
  lemma NameHit(a: Data, q: string, lname: string)
    requires ToLower(a.name) == lname && ToLower(q) == q
    ensures FieldHit(a, q, ByName) == if Contains(lname, q) then Some(SearchResult("artist", a.id, a.name, "")) else None
  {
  }

  /** The artist-name hits on the test cache for a lower-case query, in
      terms of which lower-cased names contain it. */
  lemma TestCacheNameHits(q: string)
    requires ToLower(q) == q
    ensures FieldHits(TestCache(), q, ByName)
            == (if Contains("the beatles", q) then [SearchResult("artist", 1, "The Beatles", "")] else [])
               + (if Contains("queen", q) then [SearchResult("artist", 2, "Queen", "")] else [])
               + (if Contains("pink floyd", q) then [SearchResult("artist", 3, "Pink Floyd", "")] else [])
  {
    var c := TestCache();
    FieldHitsOfThree(c, q, ByName);
    LowerBeatles();
    LowerQueen();
    LowerPinkFloyd();
    NameHit(c[0], q, "the beatles");
    NameHit(c[1], q, "queen");
    NameHit(c[2], q, "pink floyd");
  }

  lemma EenMatches()
    ensures !Contains("the beatles", "een") && Contains("queen", "een") && !Contains("pink floyd", "een")
  {
    MissingCharNotContained("the beatles", "een", 'n');
    MissingCharNotContained("pink floyd", "een", 'e');
    assert OccursAt("queen", "een", 2);
  }

  lemma BeatlesMatches()
    ensures Contains("the beatles", "beatles") && !Contains("queen", "beatles") && !Contains("pink floyd", "beatles")
  {
    assert OccursAt("the beatles", "beatles", 4);
    MissingCharNotContained("queen", "beatles", 'b');
    MissingCharNotContained("pink floyd", "beatles", 'b');
  }

  lemma UnknownMatches()
    ensures !Contains("the beatles", "unknown") && !Contains("queen", "unknown") && !Contains("pink floyd", "unknown")
  {
    MissingCharNotContained("the beatles", "unknown", 'w');
    MissingCharNotContained("queen", "unknown", 'w');
    MissingCharNotContained("pink floyd", "unknown", 'w');
  }

  /** Searching "een" finds only Queen. */
  lemma ArtistSearchEen()
    ensures Cap(FieldHits(TestCache(), "een", ByName)) == [SearchResult("artist", 2, "Queen", "")]
  {
    assert ToLower("een") == "een";
    TestCacheNameHits("een");
    EenMatches();
  }

  /** Searching "beatles" finds only The Beatles. */
  lemma ArtistSearchBeatles()
    ensures Cap(FieldHits(TestCache(), "beatles", ByName)) == [SearchResult("artist", 1, "The Beatles", "")]
  {
    assert ToLower("beatles") == "beatles";
    TestCacheNameHits("beatles");
    BeatlesMatches();
    var x := SearchResult("artist", 1, "The Beatles", "");
    assert FieldHits(TestCache(), "beatles", ByName) == [x] + [] + [];
  }

  /** Searching "unknown" finds nothing. */
  lemma ArtistSearchUnknown()
    ensures Cap(FieldHits(TestCache(), "unknown", ByName)) == []
  {
    assert ToLower("unknown") == "unknown";
    TestCacheNameHits("unknown");
    UnknownMatches();
  }

  /** With an empty cache both id lookups give "". */
  lemma LookupsOnEmptyCache(id: int)
    ensures NameById([], id) == "" && CreationById([], id) == ""
  {
  }
}
