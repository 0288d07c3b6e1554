/** The listing endpoints of `animeController`: cache-first listing reads and refreshes per
    kind, search, lookup by id, status filter, the season list, the cache report, and the
    validated sorts. Each handler answers with a status code and a `formatResponse` body. */
module AnimeController {
  import opened Wrappers
  import opened Text
  import opened Records
  import opened Dom
  import opened Http
  import opened Collections
  import opened CacheService
  import opened ScrapeService
  import opened DataFormatter
  import opened ReadThrough
  import AnimeSort
  import StableSort

  const ShortQueryMessage := "Search query harus minimal 2 karakter"
  const NotFoundMessage := "Anime tidak ditemukan"
  const InvalidSortByMessage := "Invalid sortBy. Must be one of: rating, title, episodes, airdates"
  const InvalidOrderMessage := "Invalid order. Must be 'asc' or 'desc'"
  const SortOptions: seq<string> := ["rating", "title", "episodes", "airdates"]
  const OrderOptions: seq<string> := ["asc", "desc"]
  const FirstListedYear := 2020
  /** The TypeErrors a single detail record raises where a listing array is expected. */
  const NoFilter := "animeData.filter is not a function"
  const NoFind := "animeData.find is not a function"
  const NotIterable := "animeList is not iterable"

  // ---------------------------------------------------------------------------------------
  // Keys and replies
  // ---------------------------------------------------------------------------------------

  /** The key prefix of each listing kind. */
  function KeyPrefix(kind: Kind): string {
    match kind
    case Tv => ""
    case Movies => "movie-"
    case Ovas => "ova-"
    case All => "all-"
  }

  function ListingKey(kind: Kind, season: Option<string>, year: Option<string>): string {
    SeasonYearKey(KeyPrefix(kind), season, year)
  }

  /** The message of a successful refresh. */
  function RefreshMessage(kind: Kind): string {
    match kind
    case Tv => "Cache refreshed successfully"
    case Movies => "Movie cache refreshed successfully"
    case Ovas => "OVA cache refreshed successfully"
    case All => "All cache refreshed successfully"
  }

  /** `data.length`, absent for a detail record. */
  function TotalOf(p: Payload): Option<int> {
    if p.Listing? then Some(|p.records|) else None
  }

  /** The reply of a cache-first listing read: a hit with the stored data, its stamp and
      `cached`, a fresh read without them, a failure as a 500. */
  function ListingReply(read: Read, t: int): (r: Reply<Payload>)
    ensures read.Cached? ==> r.status == 200 && r.body.cached && r.body.timestamp == read.hit.timestamp &&
                             r.body.data == Some(read.hit.data)
    ensures read.Fresh? ==> r.status == 200 && !r.body.cached && r.body.data == Some(read.data) &&
                            r.body.total == TotalOf(read.data)
    ensures read.Failed? ==> r.status == 500 && !r.body.success && r.body.data.None? &&
                             (read.message != [] ==> r.body.error == Some(read.message))
  {
    match read
    case Cached(h) => DataReply(h.data, TotalOf(h.data), true, Some(h.timestamp), None, t)
    case Fresh(d) => DataReply(d, TotalOf(d), false, None, None, t)
    case Failed(m) => ErrorReply(500, m, t)
  }

  // ---------------------------------------------------------------------------------------
  // Listing reads and refreshes
  // ---------------------------------------------------------------------------------------

  /** `getAllMovies`, `getAllOVAs` and `getAll`. The object literal defines `getAll` twice;
      the later, all-kinds definition is the one exported, so no handler reads the plain TV
      listing this way (`kind != Tv`). */
  method GetListing(cache: Cache, site: Site, kind: Kind, season: Option<string>, year: Option<string>,
                    now: int, later: int, month: nat, bootYear: int) returns (reply: Reply<Payload>)
    requires cache.Valid() && month < 12 && kind != Tv
    modifies cache, site
    ensures cache.Valid()
    ensures var (s, read) := ReadStep(old(StoreOf(cache, site)), site.respond, ListingKey(kind, season, year),
                                      ListingSource(kind, season, year, month, bootYear), now, later);
      StoreOf(cache, site) == s && reply == ListingReply(read, later)
  {
    var read := CacheFirst(cache, site, ListingKey(kind, season, year), ListingSource(kind, season, year, month, bootYear), now, later);
    reply := ListingReply(read, later);
  }

  function RefreshReply(kind: Kind, fetched: Result<Payload>, t: int): Reply<Payload> {
    match fetched
    case Err(m) => ErrorReply(500, m, t)
    case Ok(d) => DataReply(d, TotalOf(d), false, None, Some(RefreshMessage(kind)), t)
  }

  /** `refresh`, `refreshMovies`, `refreshOVAs` and `refreshAll`. */
  method RefreshListing(cache: Cache, site: Site, kind: Kind, season: Option<string>, year: Option<string>,
                        later: int, month: nat, bootYear: int) returns (reply: Reply<Payload>)
    requires cache.Valid() && month < 12
    modifies cache, site
    ensures cache.Valid()
    ensures var (s, fetched) := RefreshStep(old(StoreOf(cache, site)), site.respond, ListingKey(kind, season, year),
                                            ListingSource(kind, season, year, month, bootYear), later);
      StoreOf(cache, site) == s && reply == RefreshReply(kind, fetched, later)
  {
    var fetched := Refresh(cache, site, ListingKey(kind, season, year), ListingSource(kind, season, year, month, bootYear), later);
    reply := RefreshReply(kind, fetched, later);
  }

  // ---------------------------------------------------------------------------------------
  // Queries over the default listing
  // ---------------------------------------------------------------------------------------

  /** `scrapeAllAnime()` with no arguments, which the default key is filled from. */
  function DefaultSource(month: nat, bootYear: int): (src: Source)
    requires month < 12
    ensures src.Wellformed()
  {
    ListingPage(Tv, None, None, month, bootYear)
  }

  function TitleMatches(q: string): ListingRecord -> bool {
    (r: ListingRecord) => Contains(ToLower(r.title), q)
  }

  function StatusIs(status: string): ListingRecord -> bool {
    (r: ListingRecord) => ToLower(r.status) == status
  }

  function SearchReply(data: Result<Payload>, q: string, t: int): Reply<seq<ListingRecord>> {
    match data
    case Err(m) => ErrorReply(500, m, t)
    case Ok(p) =>
      if !p.Listing? then ErrorReply(500, NoFilter, t)
      else
        var results := Filter(p.records, TitleMatches(q));
        DataReply(results, Some(|results|), false, None, None, t)
  }

  /** `search`: a lower-cased query shorter than 2 characters is a 400 before the cache is
      touched; otherwise the default listing is read cache-first and filtered by title. */
  method Search(cache: Cache, site: Site, title: string, now: int, later: int, month: nat, bootYear: int)
    returns (reply: Reply<seq<ListingRecord>>)
    requires cache.Valid() && month < 12
    modifies cache, site
    ensures cache.Valid()
    ensures |ToLower(title)| < 2 ==> reply == ErrorReply(400, ShortQueryMessage, later) && StoreOf(cache, site) == old(StoreOf(cache, site))
    ensures |ToLower(title)| >= 2 ==>
      var (s, read) := ReadStep(old(StoreOf(cache, site)), site.respond, DefaultKey, DefaultSource(month, bootYear), now, later);
      StoreOf(cache, site) == s && reply == SearchReply(read.Data(), ToLower(title), later)
  {
    var q := ToLower(title);
    if |q| < 2 {
      return ErrorReply(400, ShortQueryMessage, later);
    }
    var read := CacheFirst(cache, site, DefaultKey, DefaultSource(month, bootYear), now, later);
    reply := SearchReply(read.Data(), q, later);
  }

  /** The first record with the id; a record without an id matches nothing. */
  function FindById(list: seq<ListingRecord>, id: string): (r: Option<ListingRecord>)
    ensures r.Some? ==> r.value in list && r.value.id == Some(id)
  {
    if list == [] then None
    else if list[0].id == Some(id) then Some(list[0])
    else FindById(list[1..], id)
  }

  function ByIdReply(data: Result<Payload>, id: string, t: int): Reply<ListingRecord> {
    match data
    case Err(m) => ErrorReply(500, m, t)
    case Ok(p) =>
      if !p.Listing? then ErrorReply(500, NoFind, t)
      else match FindById(p.records, id)
        case None => ErrorReply(404, NotFoundMessage, t)
        case Some(a) => DataReply(a, None, false, None, None, t)
  }

  /** `getById`: the default listing, read cache-first, searched for the id. */
  method GetById(cache: Cache, site: Site, id: string, now: int, later: int, month: nat, bootYear: int)
    returns (reply: Reply<ListingRecord>)
    requires cache.Valid() && month < 12
    modifies cache, site
    ensures cache.Valid()
    ensures var (s, read) := ReadStep(old(StoreOf(cache, site)), site.respond, DefaultKey, DefaultSource(month, bootYear), now, later);
      StoreOf(cache, site) == s && reply == ByIdReply(read.Data(), id, later)
  {
    var read := CacheFirst(cache, site, DefaultKey, DefaultSource(month, bootYear), now, later);
    reply := ByIdReply(read.Data(), id, later);
  }

  function FilterReply(data: Result<Payload>, status: string, t: int): Reply<seq<ListingRecord>> {
    match data
    case Err(m) => ErrorReply(500, m, t)
    case Ok(p) =>
      if !p.Listing? then ErrorReply(500, NoFilter, t)
      else
        var results := Filter(p.records, StatusIs(status));
        DataReply(results, Some(|results|), false, None, None, t)
  }

  /** `filterByStatus`: the default listing, read cache-first, filtered by status in any
      letter case. */
  method FilterByStatus(cache: Cache, site: Site, status: string, now: int, later: int, month: nat, bootYear: int)
    returns (reply: Reply<seq<ListingRecord>>)
    requires cache.Valid() && month < 12
    modifies cache, site
    ensures cache.Valid()
    ensures var (s, read) := ReadStep(old(StoreOf(cache, site)), site.respond, DefaultKey, DefaultSource(month, bootYear), now, later);
      StoreOf(cache, site) == s && reply == FilterReply(read.Data(), ToLower(status), later)
  {
    var read := CacheFirst(cache, site, DefaultKey, DefaultSource(month, bootYear), now, later);
    reply := FilterReply(read.Data(), ToLower(status), later);
  }

  // ---------------------------------------------------------------------------------------
  // Season list and cache report
  // ---------------------------------------------------------------------------------------

  datatype SeasonsInfo = SeasonsInfo(seasons: seq<string>, years: seq<int>, currentYear: int)

  /** `getSeasons`: the four seasons, and the years from 2020 to the year after the current
      one, ascending. */
  method GetSeasons(currentYear: int, t: int) returns (reply: Reply<SeasonsInfo>)
    ensures reply.status == 200 && reply.body.success && reply.body.data.Some?
    ensures var info := reply.body.data.value;
      info.seasons == Seasons && info.currentYear == currentYear &&
      |info.years| == (if currentYear + 1 >= FirstListedYear then currentYear + 2 - FirstListedYear else 0) &&
      forall i :: 0 <= i < |info.years| ==> info.years[i] == FirstListedYear + i
  {
    var years: seq<int> := [];
    var year := FirstListedYear;
    while year <= currentYear + 1
      invariant FirstListedYear <= year
      invariant year <= currentYear + 2 || year == FirstListedYear
      invariant |years| == year - FirstListedYear
      invariant forall i :: 0 <= i < |years| ==> years[i] == FirstListedYear + i
      decreases currentYear + 2 - year
    {
      years := years + [year];
      year := year + 1;
    }
    reply := DataReply(SeasonsInfo(Seasons, years, currentYear), None, false, None, None, t);
  }

  /** `getCacheInfo`: the cache report; the store is only read. */
  method GetCacheInfo(cache: Cache, now: int) returns (reply: Reply<Info>)
    requires cache.Valid()
    ensures reply.status == 200 && reply.body.data.Some?
    ensures Describes(reply.body.data.value, cache.entries, cache.order, now)
  {
    var info := cache.GetInfo(now);
    reply := DataReply(info, None, false, None, None, now);
  }

  // ---------------------------------------------------------------------------------------
  // Sorts
  // ---------------------------------------------------------------------------------------

  function SortReply(data: Result<Payload>, sortBy: string, order: string, t: int): Reply<seq<ListingRecord>> {
    match data
    case Err(m) => ErrorReply(500, m, t)
    case Ok(p) =>
      if !p.Listing? then ErrorReply(500, NotIterable, t)
      else
        var sorted := StableSort.Sort(p.records, AnimeSort.Before(AnimeSort.ChooseSorter(sortBy, order)));
        DataReply(sorted, Some(|sorted|), true, None, None, t)
  }

  /** The 400 a sort request gets from its parameters, if any: `sortBy` and `order` are
      checked in that order, in lower case. */
  function SortParamError(sortBy: string, order: string): Option<string> {
    if ToLower(sortBy) !in SortOptions then Some(InvalidSortByMessage)
    else if ToLower(order) !in OrderOptions then Some(InvalidOrderMessage)
    else None
  }

  /** `sortAnime`, `sortMovies` and `sortOVAs` (there is no sort of the all-kinds listing).
      `sortBy` defaults to "rating" and `order` to "desc" when omitted; a rejected parameter
      is a 400 before the cache is touched. The sorter gets `order` in its original case, and
      the reply always says `cached`. */
  method SortListing(cache: Cache, site: Site, kind: Kind, sortByParam: Option<string>, orderParam: Option<string>,
                     season: Option<string>, year: Option<string>, now: int, later: int, month: nat, bootYear: int)
    returns (reply: Reply<seq<ListingRecord>>)
    requires cache.Valid() && month < 12 && kind != All
    modifies cache, site
    ensures cache.Valid()
    ensures var sortBy := sortByParam.GetOr("rating"); var order := orderParam.GetOr("desc");
      match SortParamError(sortBy, order)
      case Some(m) => reply == ErrorReply(400, m, later) && StoreOf(cache, site) == old(StoreOf(cache, site))
      case None =>
        var (s, read) := ReadStep(old(StoreOf(cache, site)), site.respond, ListingKey(kind, season, year),
                                  ListingSource(kind, season, year, month, bootYear), now, later);
        StoreOf(cache, site) == s && reply == SortReply(read.Data(), sortBy, order, later)
  {
    var sortBy := sortByParam.GetOr("rating");
    var order := orderParam.GetOr("desc");
    var rejected := SortParamError(sortBy, order);
    if rejected.Some? {
      return ErrorReply(400, rejected.value, later);
    }
    var read := CacheFirst(cache, site, ListingKey(kind, season, year), ListingSource(kind, season, year, month, bootYear), now, later);
    match read.Data()
    case Err(m) =>
      reply := ErrorReply(500, m, later);
    case Ok(p) =>
      if !p.Listing? {
        reply := ErrorReply(500, NotIterable, later);
      } else {
        var sorted := AnimeSort.SortAnimeData(p.records, sortBy, order);
        reply := DataReply(sorted, Some(|sorted|), true, None, None, later);
      }
  }

  // ---------------------------------------------------------------------------------------
  // Properties
  // ---------------------------------------------------------------------------------------

  /** The listing keys: a kind prefix, then the season and year or "current". The exported
      `getAll` therefore reads `all-` keys. */
  lemma ListingKeyShape(kind: Kind, season: Option<string>, year: Option<string>)
    ensures ListingKey(kind, season, year) == KeyPrefix(kind) + OrCurrent(season) + "-" + OrCurrent(year)
    ensures ListingKey(All, season, year)[..4] == "all-"
  {
  }

  /** Kinds whose prefixes differ never share a key made from the plain defaults. */
  lemma DefaultKeysDistinct(a: Kind, b: Kind)
    requires a != b
    ensures ListingKey(a, None, None) != ListingKey(b, None, None)
  {
    var ka := ListingKey(a, None, None);
    var kb := ListingKey(b, None, None);
    assert |ka| != |kb| || ka[0] != kb[0];
  }

  /** The search results are the records whose lower-cased title contains the query, in
      their original order. */
  lemma SearchResults(list: seq<ListingRecord>, q: string, r: ListingRecord)
    ensures r in Filter(list, TitleMatches(q)) <==> r in list && Contains(ToLower(r.title), q)
    ensures |Filter(list, TitleMatches(q))| <= |list|
  {
    if r in Filter(list, TitleMatches(q)) {
      FilterFrom(list, TitleMatches(q), r);
    }
    if r in list && Contains(ToLower(r.title), q) {
      FilterHas(list, TitleMatches(q), r);
    }
  }

  /** `getById` answers with the first record carrying the id, and with a 404 exactly when no
      record carries it. */
  lemma {:induction false} FindByIdFirst(list: seq<ListingRecord>, id: string)
    ensures FindById(list, id).None? <==> forall i :: 0 <= i < |list| ==> list[i].id != Some(id)
    ensures forall i :: 0 <= i < |list| && list[i].id == Some(id) && (forall j :: 0 <= j < i ==> list[j].id != Some(id)) ==>
      FindById(list, id) == Some(list[i])
  {
    if list != [] {
      FindByIdFirst(list[1..], id);
      forall i | 0 <= i < |list| - 1 ensures list[1..][i] == list[i + 1] { }
    }
  }

  /** The status filter keeps the records whose status matches in any letter case. */
  lemma FilterResults(list: seq<ListingRecord>, status: string, r: ListingRecord)
    ensures r in Filter(list, StatusIs(ToLower(status))) <==> r in list && ToLower(r.status) == ToLower(status)
  {
    if r in Filter(list, StatusIs(ToLower(status))) {
      FilterFrom(list, StatusIs(ToLower(status)), r);
    }
    if r in list && ToLower(r.status) == ToLower(status) {
      FilterHas(list, StatusIs(ToLower(status)), r);
    }
  }

  /** The sort parameters are accepted in any letter case; "ASC" passes validation yet sorts
      descending, since the sorter compares `order` with "asc" exactly. */
  lemma SortParamsCaseInsensitive(sortBy: string)
    requires ToLower(sortBy) in SortOptions
    ensures SortParamError(sortBy, "ASC").None?
    ensures !AnimeSort.ChooseSorter("rating", "ASC").ascending
  {
    assert ToLower("ASC") == "asc";
  }

  /** Any rejected sort parameter is a 400 with its message; a query of one character is
      always too short. */
  lemma RejectedParams(sortBy: string, order: string, c: char)
    ensures SortParamError(sortBy, order).Some? <==> ToLower(sortBy) !in SortOptions || ToLower(order) !in OrderOptions
    ensures |ToLower([c])| < 2
  {
  }
  /** A listing fetch succeeds only for a season that lower-cases to one of the four, or for
      the defaulted one, so the season part of its key starts with w, s, f or c. */
  lemma FetchedSeasonStart(kind: Kind, season: Option<string>, year: Option<string>, month: nat, bootYear: int,
                           respond: (nat, string) -> Result<Document>, n: nat)
    requires month < 12
    requires ListingOutcome(respond, n, kind, season, year, month, bootYear).Ok?
    ensures LowerChar(OrCurrent(season)[0]) in "wsfc"
  {
    if Given(season).Some? {
      var low := ToLower(season.value);
      assert low in Seasons;
      assert low[0] == LowerChar(season.value[0]);
      assert low[0] in "wsf";
    }
  }

  /** A listing key whose season part starts with w, s, f or c starts like no detail key. */
  lemma SeasonKeyNoDetail(kind: Kind, season: string, year: string)
    requires season != [] && LowerChar(season[0]) in "wsfc"
    ensures !StartsWith(KeyPrefix(kind) + season + "-" + year, AnimeDetailPrefix)
    ensures !StartsWith(KeyPrefix(kind) + season + "-" + year, MovieDetailPrefix)
  {
    var key := KeyPrefix(kind) + season + "-" + year;
    var p := KeyPrefix(kind);
    assert key[|p|] == season[0];
    assert season[0] != 'd' && season[0] != 'm';
    if |p| > 0 { assert key[0] == p[0]; }
    if kind == Movies { assert key[6] == season[0]; }
  }

  /** No listing read or refresh writes under a detail key: a listing key whose fetch
      succeeded starts like no detail key. */
  lemma ListingSourcesFit(kind: Kind, season: Option<string>, year: Option<string>, month: nat, bootYear: int,
                          respond: (nat, string) -> Result<Document>, n: nat)
    requires month < 12
    ensures FitsKey(ListingKey(kind, season, year), ListingSource(kind, season, year, month, bootYear).Outcome(respond, n))
  {
    var fetched := ListingSource(kind, season, year, month, bootYear).Outcome(respond, n);
    if fetched.Ok? {
      ListingFetchOk(kind, season, YearArg(year), month, bootYear, respond, n);
      SeasonKeyNoDetail(kind, OrCurrent(season), OrCurrent(year));
    }
  }

  /** Neither does a read of the default listing. */
  lemma DefaultSourceFits(month: nat, bootYear: int, respond: (nat, string) -> Result<Document>, n: nat)
    requires month < 12
    ensures FitsKey(DefaultKey, DefaultSource(month, bootYear).Outcome(respond, n))
  {
    var fetched := DefaultSource(month, bootYear).Outcome(respond, n);
    if fetched.Ok? {
      DefaultKeyNoDetail(fetched.value);
    }
  }

  lemma DefaultKeyNoDetail(p: Payload)
    ensures KeyHolds(DefaultKey, p)
  {
    assert DefaultKey[0] == 'd' && DefaultKey[2] == 'f';
  }

  /** A successful listing fetch went through a season that starts with w, s, f or c. */
  lemma ListingFetchOk(kind: Kind, season: Option<string>, year: Option<string>, month: nat, bootYear: int,
                       respond: (nat, string) -> Result<Document>, n: nat)
    requires month < 12
    requires ListingPage(kind, season, year, month, bootYear).Outcome(respond, n).Ok?
    ensures LowerChar(OrCurrent(season)[0]) in "wsfc"
  {
    FetchedSeasonStart(kind, season, year, month, bootYear, respond, n);
  }
}
