/** What src/fetch.go does with the upstream lists once they are decoded:
    pick the record of one artist, and strip the `*` marker from dates.
    The HTTP GET, the body read and the JSON decoding are not modelled:
    each operation receives their outcome, `decoded`, as a parameter. */
module Fetch {
  import opened Wrappers
  import opened Strconv
  import opened Models

  /** Index of the first occurrence of `x` in `s`. */
  function FirstIndex<T(==)>(s: seq<T>, x: T): (r: Option<nat>)
    ensures r.Some? ==> r.value < |s| && s[r.value] == x && forall j :: 0 <= j < r.value ==> s[j] != x
    ensures r.None? ==> forall j :: 0 <= j < |s| ==> s[j] != x
  {
    if s == [] then None
    else if s[0] == x then Some(0)
    else match FirstIndex(s[1..], x)
      case None => None
      case Some(k) => Some(k + 1)
  }

  /** Index of the last occurrence of `x` in `s`. */
  function LastIndex<T(==)>(s: seq<T>, x: T): (r: Option<nat>)
    ensures r.Some? ==> r.value < |s| && s[r.value] == x && forall j :: r.value < j < |s| ==> s[j] != x
    ensures r.None? ==> forall j :: 0 <= j < |s| ==> s[j] != x
  {
    if s == [] then None
    else if s[|s| - 1] == x then Some(|s| - 1)
    else LastIndex(s[..|s| - 1], x)
  }

  /** The projections below are helpers. The contract of ArtistIds spells
      out its comprehension element by element, which the selection proofs
      of FetchLocations use; Ids, which serves the dates and the relations,
      needs none. */
  function ArtistIds(ls: seq<Location>): (r: seq<int>)
    ensures |r| == |ls| && forall k :: 0 <= k < |ls| ==> r[k] == ls[k].artistId
  {
    seq(|ls|, k requires 0 <= k < |ls| => ls[k].artistId)
  }

  function Ids<T>(xs: seq<T>, id: T -> int): seq<int> {
    seq(|xs|, k requires 0 <= k < |xs| => id(xs[k]))
  }

  /** `strconv.Itoa` of every id: FetchDates and FetchDatesAndConcerts
      compare these strings, not the numbers, with the requested id. */
  function IdStrings(ids: seq<int>): seq<string>
  {
    seq(|ids|, k requires 0 <= k < |ids| => Itoa(ids[k]))
  }

  /** The record FetchLocations picks: the first whose ArtistId equals
      `Atoi(id)`, else the zero Location. */
  function LocationFor(ls: seq<Location>, id: string): Location {
    match FirstIndex(ArtistIds(ls), Atoi(id))
    case Some(k) => ls[k]
    case None => ZeroLocation
  }

  /** The record FetchDates picks: the last whose `Itoa(Id)` equals the
      id string, else the zero Date. */
  function DateFor(ds: seq<Date>, id: string): Date {
    match LastIndex(IdStrings(Ids(ds, (d: Date) => d.id)), id)
    case Some(k) => ds[k]
    case None => ZeroDate
  }

  /** The map FetchDatesAndConcerts picks: that of the last relation whose
      `Itoa(Id)` equals the id string, else the nil map. */
  function PlacesFor(rs: seq<DatesLocation>, id: string): DatesLocations {
    match LastIndex(IdStrings(Ids(rs, (r: DatesLocation) => r.id)), id)
    case Some(k) => rs[k].places
    case None => []
  }

  predicate NoEmptyDate(ds: seq<string>) {
    forall k :: 0 <= k < |ds| ==> ds[k] != ""
  }

  /** One date with a leading `*` marker removed. */
  function StripStar(d: string): string
    requires d != ""
  {
    if d[0] == '*' then d[1..] else d
  }

  function StripStars(ds: seq<string>): (r: seq<string>)
    requires NoEmptyDate(ds)
    ensures |r| == |ds|
  {
    if ds == [] then [] else [StripStar(ds[0])] + StripStars(ds[1..])
  }

  /** Which dates carry the marker. */
  function StarMask(ds: seq<string>): (r: seq<bool>)
    requires NoEmptyDate(ds)
    ensures |r| == |ds|
  {
    seq(|ds|, k requires 0 <= k < |ds| => ds[k][0] == '*')
  }

  /** Puts the marker back on the dates the mask names: the inverse of
      StripStars. */
  function RestoreStars(ds: seq<string>, mask: seq<bool>): (r: seq<string>)
    requires |ds| == |mask|
    ensures |r| == |ds|
  {
    seq(|ds|, k requires 0 <= k < |ds| => if mask[k] then "*" + ds[k] else ds[k])
  }

  /** FetchLocations, from the decoded list on. */
  function LocationsResult(decoded: Result<seq<Location>>, id: string): Result<Location> {
    match decoded
    case Ok(ls) => Ok(LocationFor(ls, id))
    case Err(e) => Err(e)
    case Panic => Panic
  }

  /** FetchDates, from the decoded list on; an empty date string in the
      selected record panics at `date[0]`. */
  function DatesResult(decoded: Result<seq<Date>>, id: string): Result<Date> {
    match decoded
    case Ok(ds) =>
      var d := DateFor(ds, id);
      if NoEmptyDate(d.dates) then Ok(Date(d.id, StripStars(d.dates))) else Panic
    case Err(e) => Err(e)
    case Panic => Panic
  }

  /** FetchDatesAndConcerts, from the decoded list on. */
  function RelationResult(decoded: Result<seq<DatesLocation>>, id: string): Result<DatesLocations> {
    match decoded
    case Ok(rs) => Ok(PlacesFor(rs, id))
    case Err(e) => Err(e)
    case Panic => Panic
  }

  method FetchLocations(decoded: Result<seq<Location>>, id: string) returns (r: Result<Location>)
    ensures r == LocationsResult(decoded, id)
  {
    if !decoded.Ok? {
      return if decoded.Err? then Err(decoded.error) else Panic;
    }
    var all := decoded.value;
    var locations := ZeroLocation;
    var i := 0;
    while i < |all|
      invariant 0 <= i <= |all|
      invariant forall k :: 0 <= k < i ==> all[k].artistId != Atoi(id)
    {
      var idNum := Atoi(id);
      if all[i].artistId == idNum {
        locations := all[i];
        break;
      }
      i := i + 1;
    }
    return Ok(locations);
  }

  method FetchDates(decoded: Result<seq<Date>>, id: string) returns (r: Result<Date>)
    ensures r == DatesResult(decoded, id)
  {
    if !decoded.Ok? {
      return if decoded.Err? then Err(decoded.error) else Panic;
    }
    var all := decoded.value;
    var dates := ZeroDate;
    for i := 0 to |all|
      invariant dates == DateFor(all[..i], id)
    {
      DateForSnoc(all, i, id);
      if Itoa(all[i].id) == id {
        dates := all[i];
      }
    }
    assert all[..|all|] == all;
    var a := new string[|dates.dates|](k requires 0 <= k < |dates.dates| => dates.dates[k]);
    assert a[..] == dates.dates;
    var panicked := StripStarsInPlace(a);
    if panicked {
      return Panic;
    }
    return Ok(Date(dates.id, a[..]));
  }

  /** The strip loop of FetchDates, in place on the selected record's
      slice. Indexing `date[0]` of an empty date panics. */
  method StripStarsInPlace(a: array<string>) returns (panicked: bool)
    modifies a
    ensures panicked <==> !NoEmptyDate(old(a[..]))
    ensures !panicked ==> a[..] == StripStars(old(a[..]))
  {
    var i := 0;
    while i < a.Length
      invariant 0 <= i <= a.Length
      invariant forall k :: 0 <= k < i ==> old(a[k]) != "" && a[k] == StripStar(old(a[k]))
      invariant forall k :: i <= k < a.Length ==> a[k] == old(a[k])
    {
      var date := a[i];
      if date == "" {
        assert old(a[..])[i] == "";
        return true;
      }
      if date[0] == '*' {
        a[i] := date[1..];
      }
      i := i + 1;
    }
    StripStarsAt(old(a[..]));
    return false;
  }

  method FetchDatesAndConcerts(decoded: Result<seq<DatesLocation>>, id: string) returns (r: Result<DatesLocations>)
    ensures r == RelationResult(decoded, id)
  {
    if !decoded.Ok? {
      return if decoded.Err? then Err(decoded.error) else Panic;
    }
    var all := decoded.value;
    var datesLocations: DatesLocations := [];
    for i := 0 to |all|
      invariant datesLocations == PlacesFor(all[..i], id)
    {
      PlacesForSnoc(all, i, id);
      if Itoa(all[i].id) == id {
        datesLocations := all[i].places;
      }
    }
    assert all[..|all|] == all;
    return Ok(datesLocations);
  }

  lemma IdStringsPrefix(ids: seq<int>, i: nat)
    requires i <= |ids|
    ensures IdStrings(ids)[..i] == IdStrings(ids[..i])
  {
  }

  /** The id strings of one more record are those of the shorter list
      followed by that of the new record. */
  lemma IdStringsSnoc<T>(xs: seq<T>, id: T -> int, i: nat)
    requires i < |xs|
    ensures |IdStrings(Ids(xs[..i + 1], id))| == i + 1
    ensures IdStrings(Ids(xs[..i + 1], id))[..i] == IdStrings(Ids(xs[..i], id))
    ensures IdStrings(Ids(xs[..i + 1], id))[i] == Itoa(id(xs[i]))
  {
    var ids := Ids(xs[..i + 1], id);
    assert ids[..i] == Ids(xs[..i], id);
    IdStringsPrefix(ids, i);
  }

  /** One more record either replaces the selection (its id matches) or
      leaves it as it was. */
  lemma DateForSnoc(ds: seq<Date>, i: nat, id: string)
    requires i < |ds|
    ensures DateFor(ds[..i + 1], id) == if Itoa(ds[i].id) == id then ds[i] else DateFor(ds[..i], id)
  {
    IdStringsSnoc(ds, (d: Date) => d.id, i);
    var t := IdStrings(Ids(ds[..i + 1], (d: Date) => d.id));
    assert LastIndex(t, id) == if t[i] == id then Some(i) else LastIndex(t[..i], id);
  }

  lemma PlacesForSnoc(rs: seq<DatesLocation>, i: nat, id: string)
    requires i < |rs|
    ensures PlacesFor(rs[..i + 1], id) == if Itoa(rs[i].id) == id then rs[i].places else PlacesFor(rs[..i], id)
  {
    IdStringsSnoc(rs, (r: DatesLocation) => r.id, i);
    var t := IdStrings(Ids(rs[..i + 1], (r: DatesLocation) => r.id));
    assert LastIndex(t, id) == if t[i] == id then Some(i) else LastIndex(t[..i], id);
  }

  // ---------------------------------------------------------------------
  // Properties

  /** Every marked date loses exactly its first character; every other date
      is kept as it is. */
  lemma {:induction false} StripStarsAt(ds: seq<string>)
    requires NoEmptyDate(ds)
    ensures forall k :: 0 <= k < |ds| && ds[k][0] == '*' ==> StripStars(ds)[k] == ds[k][1..]
    ensures forall k :: 0 <= k < |ds| && ds[k][0] != '*' ==> StripStars(ds)[k] == ds[k]
  {
    if ds != [] {
      StripStarsAt(ds[1..]);
      assert forall k :: 1 <= k < |ds| ==> StripStars(ds)[k] == StripStars(ds[1..])[k - 1];
    }
  }

  /** Putting the marker back where it was recovers the upstream dates. */
  lemma RestoreStrippedStars(ds: seq<string>)
    requires NoEmptyDate(ds)
    ensures RestoreStars(StripStars(ds), StarMask(ds)) == ds
  {
    StripStarsAt(ds);
    var r := RestoreStars(StripStars(ds), StarMask(ds));
    forall k | 0 <= k < |ds| ensures r[k] == ds[k] {
      if ds[k][0] == '*' {
        assert ds[k] == [ds[k][0]] + ds[k][1..];
      }
    }
  }

  /** Only one marker goes: "**x" comes back as "*x". */
  lemma DoubleStarKeepsOne(x: string)
    ensures StripStars(["**" + x]) == ["*" + x]
  {
    assert ("**" + x)[1..] == "*" + x;
  }

  /** FetchLocations picks the first record with the parsed id, or the zero
      Location when there is none: a missing artist looks like an empty one. */
  lemma LocationForSpec(ls: seq<Location>, id: string, j: nat)
    requires j < |ls| && ls[j].artistId == Atoi(id)
    requires forall k :: 0 <= k < j ==> ls[k].artistId != Atoi(id)
    ensures LocationFor(ls, id) == ls[j]
  {
    var f := FirstIndex(ArtistIds(ls), Atoi(id));
    assert ArtistIds(ls)[j] == Atoi(id);
    assert f.Some? && f.value == j;
  }

  lemma LocationForMissing(ls: seq<Location>, id: string)
    requires forall k :: 0 <= k < |ls| ==> ls[k].artistId != Atoi(id)
    ensures LocationFor(ls, id) == ZeroLocation
  {
    assert FirstIndex(ArtistIds(ls), Atoi(id)).None?;
  }

  /** Compared through Itoa, the canonical string of n selects the last
      position holding n, and nothing when n is absent. */
  lemma LastCanonical(ids: seq<int>, n: int, j: nat)
    requires j < |ids| && ids[j] == n
    requires forall k :: j < k < |ids| ==> ids[k] != n
    ensures LastIndex(IdStrings(ids), Itoa(n)) == Some(j)
  {
    var s := IdStrings(ids);
    forall k | j < k < |s| ensures s[k] != Itoa(n) {
      if s[k] == Itoa(n) {
        ItoaInjective(ids[k], n);
      }
    }
    LastIndexAt(s, Itoa(n), j);
  }

  /** The last occurrence is the one with no occurrence after it. */
  lemma LastIndexAt<T>(s: seq<T>, x: T, j: nat)
    requires j < |s| && s[j] == x
    requires forall k :: j < k < |s| ==> s[k] != x
    ensures LastIndex(s, x) == Some(j)
  {
  }

  lemma LastCanonicalMissing(ids: seq<int>, n: int)
    requires forall k :: 0 <= k < |ids| ==> ids[k] != n
    ensures LastIndex(IdStrings(ids), Itoa(n)) == None
  {
    forall k | 0 <= k < |ids| ensures IdStrings(ids)[k] != Itoa(n) {
      if Itoa(ids[k]) == Itoa(n) {
        ItoaInjective(ids[k], n);
      }
    }
  }

  /** For an id written as Itoa writes it, FetchDates picks the LAST record
      with that id, and the zero Date when there is none. */
  lemma DateForCanonical(ds: seq<Date>, n: int, j: nat)
    requires j < |ds| && ds[j].id == n
    requires forall k :: j < k < |ds| ==> ds[k].id != n
    ensures DateFor(ds, Itoa(n)) == ds[j]
  {
    LastCanonical(Ids(ds, (d: Date) => d.id), n, j);
  }

  lemma PlacesForCanonical(rs: seq<DatesLocation>, n: int, j: nat)
    requires j < |rs| && rs[j].id == n
    requires forall k :: j < k < |rs| ==> rs[k].id != n
    ensures PlacesFor(rs, Itoa(n)) == rs[j].places
  {
    LastCanonical(Ids(rs, (r: DatesLocation) => r.id), n, j);
  }

  /** With no record carrying id n, the canonical id selects the zero
      Date and the nil map: "not found" looks like "empty". */
  lemma CanonicalIdMissing(ds: seq<Date>, rs: seq<DatesLocation>, n: int)
    requires forall k :: 0 <= k < |ds| ==> ds[k].id != n
    requires forall k :: 0 <= k < |rs| ==> rs[k].id != n
    ensures DateFor(ds, Itoa(n)) == ZeroDate
    ensures PlacesFor(rs, Itoa(n)) == []
  {
    LastCanonicalMissing(Ids(ds, (d: Date) => d.id), n);
    LastCanonicalMissing(Ids(rs, (r: DatesLocation) => r.id), n);
  }

  /** An id string that Itoa never writes selects nothing in FetchDates and
      FetchDatesAndConcerts, whatever the upstream lists hold. */
  lemma NonCanonicalIdSelectsNothing(ds: seq<Date>, rs: seq<DatesLocation>, id: string)
    requires forall n :: Itoa(n) != id
    ensures DateFor(ds, id) == ZeroDate
    ensures PlacesFor(rs, id) == []
  {
    assert LastIndex(IdStrings(Ids(ds, (d: Date) => d.id)), id).None?;
    assert LastIndex(IdStrings(Ids(rs, (r: DatesLocation) => r.id)), id).None?;
  }

  /** "01" passes the handlers' range check (Atoi reads 1), and
      FetchLocations picks artist 1 for it, but FetchDates and
      FetchDatesAndConcerts find no record for it. */
  lemma LeadingZeroId(ls: seq<Location>, ds: seq<Date>, rs: seq<DatesLocation>)
    ensures Atoi("01") == 1
    ensures LocationFor(ls, "01") == LocationFor(ls, "1")
    ensures DateFor(ds, "01") == ZeroDate
    ensures PlacesFor(rs, "01") == []
  {
    AtoiLeadingZero();
    forall n ensures Itoa(n) != "01" {
      ItoaCanonical(n);
    }
    NonCanonicalIdSelectsNothing(ds, rs, "01");
  }

  lemma AtoiLeadingZero()
    ensures Atoi("01") == 1 && Atoi("1") == 1
  {
    assert ParseDecimal("1") == Some(1) by {
      assert "1"[..0] == "";
      assert DigitsValue("1") == 1;
    }
    assert ParseDecimal("01") == Some(1) by {
      var s := "01";
      assert s[0] != '+' && s[0] != '-';
      assert AllDigits(s);
      assert s[..1] == "0" && "0"[..0] == "";
      assert DigitsValue("0") == 0;
      assert DigitsValue(s) == 1;
    }
    AtoiWellFormed("01");
    AtoiWellFormed("1");
  }

}
