/** The `statsService` entry points: each reads its season listing cache-first under the
    listing key, then reports the total, the genre tally, the studio tally, or the four
    seasons of the current year. */
module StatsReports {
  import opened Wrappers
  import opened Text
  import opened Records
  import opened Http
  import opened Dom
  import opened CacheService
  import opened ScrapeService
  import opened ReadThrough
  import opened Tally
  import opened StatsService

  const TotalFailurePrefix := "Failed to get total anime stats: "
  const GenreFailurePrefix := "Failed to get genre stats: "
  const StudioFailurePrefix := "Failed to get studio stats: "
  /** The TypeErrors a single detail record raises where a listing array is expected. */
  const NoReduce := "animeList.reduce is not a function"
  const NoForEach := "animeData.forEach is not a function"

  datatype TotalStats = TotalStats(total: nat, averageRating: Average, statusBreakdown: Breakdown, season: string, year: string)

  /** A genre or studio report: the number of keys and the rows in emitted order. */
  datatype GroupStats = GroupStats(total: nat, rows: seq<Row>, season: string, year: string)

  /** One season of `getStatsBySeason`; a failed season reports an empty breakdown (None). */
  datatype SeasonStats = SeasonStats(total: nat, averageRating: Average, statusBreakdown: Option<Breakdown>)

  datatype SeasonReport = SeasonReport(season: string, stats: SeasonStats)

  // ---------------------------------------------------------------------------------------
  // Reports on the data read
  // ---------------------------------------------------------------------------------------

  function TotalReport(data: Result<Payload>, season: Option<string>, year: Option<string>): (r: Result<TotalStats>)
    ensures data.Err? ==> r == Err(TotalFailurePrefix + data.message)
    ensures data.Ok? && !data.value.Listing? ==> r == Err(TotalFailurePrefix + NoReduce)
    ensures data.Ok? && data.value.Listing? ==>
      var list := data.value.records;
      r.Ok? && r.value.total == |list| && r.value.averageRating == AverageRating(list) &&
      r.value.statusBreakdown == BreakdownOf(list) &&
      r.value.season == OrCurrent(season) && r.value.year == OrCurrent(year)
  {
    match data
    case Err(m) => Err(TotalFailurePrefix + m)
    case Ok(p) =>
      if !p.Listing? then Err(TotalFailurePrefix + NoReduce)
      else Ok(TotalStats(|p.records|, AverageRating(p.records), BreakdownOf(p.records), OrCurrent(season), OrCurrent(year)))
  }

  function GroupReport(tally: Result<Tally>, prefix: string, season: Option<string>, year: Option<string>): Result<GroupStats> {
    match tally
    case Err(m) => Err(prefix + m)
    case Ok(t) => Ok(GroupStats(|Emitted(t)|, Emitted(t), OrCurrent(season), OrCurrent(year)))
  }

  function GenreReport(data: Result<Payload>, season: Option<string>, year: Option<string>): Result<GroupStats> {
    match data
    case Err(m) => Err(GenreFailurePrefix + m)
    case Ok(p) =>
      if !p.Listing? then Err(GenreFailurePrefix + NoForEach)
      else GroupReport(GenreTally(p.records), GenreFailurePrefix, season, year)
  }

  function StudioReport(data: Result<Payload>, season: Option<string>, year: Option<string>): Result<GroupStats> {
    match data
    case Err(m) => Err(StudioFailurePrefix + m)
    case Ok(p) =>
      if !p.Listing? then Err(StudioFailurePrefix + NoForEach)
      else GroupReport(StudioTally(p.records), StudioFailurePrefix, season, year)
  }

  /** A season's figures, or zeros and an empty breakdown when its read failed. */
  function SeasonStatsOf(data: Result<Payload>): (s: SeasonStats)
    ensures data.Ok? && data.value.Listing? ==>
      s == SeasonStats(|data.value.records|, AverageRating(data.value.records), Some(BreakdownOf(data.value.records)))
    ensures !(data.Ok? && data.value.Listing?) ==> s == SeasonStats(0, NoRecords, None)
  {
    if data.Ok? && data.value.Listing? then
      SeasonStats(|data.value.records|, AverageRating(data.value.records), Some(BreakdownOf(data.value.records)))
    else SeasonStats(0, NoRecords, None)
  }

  // ---------------------------------------------------------------------------------------
  // The entry points
  // ---------------------------------------------------------------------------------------

  /** `getTotalAnime(season, year)`. */
  method GetTotalAnime(cache: Cache, site: Site, season: Option<string>, year: Option<string>,
                       now: int, later: int, month: nat, bootYear: int) returns (r: Result<TotalStats>)
    requires cache.Valid() && month < 12
    modifies cache, site
    ensures cache.Valid()
    ensures var (s, read) := ReadStep(old(StoreOf(cache, site)), site.respond, SeasonYearKey("", season, year),
                                      ListingSource(Tv, season, year, month, bootYear), now, later);
      StoreOf(cache, site) == s && r == TotalReport(read.Data(), season, year)
  {
    var read := CacheFirst(cache, site, SeasonYearKey("", season, year), ListingSource(Tv, season, year, month, bootYear), now, later);
    match read.Data()
    case Err(m) =>
      r := Err(TotalFailurePrefix + m);
    case Ok(p) =>
      if !p.Listing? {
        r := Err(TotalFailurePrefix + NoReduce);
      } else {
        var breakdown := GetStatusBreakdown(p.records);
        r := Ok(TotalStats(|p.records|, AverageRating(p.records), breakdown, OrCurrent(season), OrCurrent(year)));
      }
  }

  /** `getStatsByGenre(season, year)`. */
  method GetStatsByGenre(cache: Cache, site: Site, season: Option<string>, year: Option<string>,
                         now: int, later: int, month: nat, bootYear: int) returns (r: Result<GroupStats>)
    requires cache.Valid() && month < 12
    modifies cache, site
    ensures cache.Valid()
    ensures var (s, read) := ReadStep(old(StoreOf(cache, site)), site.respond, SeasonYearKey("", season, year),
                                      ListingSource(Tv, season, year, month, bootYear), now, later);
      StoreOf(cache, site) == s && r == GenreReport(read.Data(), season, year)
  {
    var read := CacheFirst(cache, site, SeasonYearKey("", season, year), ListingSource(Tv, season, year, month, bootYear), now, later);
    match read.Data()
    case Err(m) =>
      r := Err(GenreFailurePrefix + m);
    case Ok(p) =>
      if !p.Listing? {
        r := Err(GenreFailurePrefix + NoForEach);
      } else {
        var tally := TallyByGenre(p.records);
        r := GroupReport(tally, GenreFailurePrefix, season, year);
      }
  }

  /** `getStatsByStudio(season, year)`. */
  method GetStatsByStudio(cache: Cache, site: Site, season: Option<string>, year: Option<string>,
                          now: int, later: int, month: nat, bootYear: int) returns (r: Result<GroupStats>)
    requires cache.Valid() && month < 12
    modifies cache, site
    ensures cache.Valid()
    ensures var (s, read) := ReadStep(old(StoreOf(cache, site)), site.respond, SeasonYearKey("", season, year),
                                      ListingSource(Tv, season, year, month, bootYear), now, later);
      StoreOf(cache, site) == s && r == StudioReport(read.Data(), season, year)
  {
    var read := CacheFirst(cache, site, SeasonYearKey("", season, year), ListingSource(Tv, season, year, month, bootYear), now, later);
    match read.Data()
    case Err(m) =>
      r := Err(StudioFailurePrefix + m);
    case Ok(p) =>
      if !p.Listing? {
        r := Err(StudioFailurePrefix + NoForEach);
      } else {
        var tally := TallyByStudio(p.records);
        r := GroupReport(tally, StudioFailurePrefix, season, year);
      }
  }

  /** The read of one season of the current year: key `<season>-<year>`, scraped with both
      given. */
  function SeasonSource(season: string, currentYear: int, month: nat, bootYear: int): (src: Source)
    requires month < 12
    ensures src.Wellformed()
  {
    ListingPage(Tv, Some(season), Some(IntToString(currentYear)), month, bootYear)
  }

  /** The store and the reports after the first `k` seasons, read at the times `getTimes[i]`
      and written at `setTimes[i]`. */
  function SeasonsUpTo(s0: Store, respond: (nat, string) -> Result<Document>, currentYear: int, month: nat, bootYear: int,
                       getTimes: seq<int>, setTimes: seq<int>, k: nat): (res: (Store, seq<SeasonReport>))
    requires month < 12 && k <= |Seasons| && |getTimes| == |setTimes| == |Seasons|
    ensures |res.1| == k
    ensures forall i :: 0 <= i < k ==> res.1[i].season == Seasons[i]
  {
    if k == 0 then (s0, [])
    else
      var (s, acc) := SeasonsUpTo(s0, respond, currentYear, month, bootYear, getTimes, setTimes, k - 1);
      var season := Seasons[k - 1];
      var (s', read) := ReadStep(s, respond, season + "-" + IntToString(currentYear),
                                 SeasonSource(season, currentYear, month, bootYear), getTimes[k - 1], setTimes[k - 1]);
      (s', acc + [SeasonReport(season, SeasonStatsOf(read.Data()))])
  }

  /** `getStatsBySeason()`: every season is read in turn, a failing one does not stop the
      others. */
  method GetStatsBySeason(cache: Cache, site: Site, currentYear: int, month: nat, bootYear: int,
                          getTimes: seq<int>, setTimes: seq<int>) returns (year: int, seasons: seq<SeasonReport>)
    requires cache.Valid() && month < 12 && |getTimes| == |setTimes| == |Seasons|
    modifies cache, site
    ensures cache.Valid()
    ensures year == currentYear
    ensures (StoreOf(cache, site), seasons) ==
            SeasonsUpTo(old(StoreOf(cache, site)), site.respond, currentYear, month, bootYear, getTimes, setTimes, |Seasons|)
  {
    year := currentYear;
    seasons := [];
    var i := 0;
    while i < |Seasons|
      invariant 0 <= i <= |Seasons|
      invariant cache.Valid()
      invariant (StoreOf(cache, site), seasons) ==
                SeasonsUpTo(old(StoreOf(cache, site)), site.respond, currentYear, month, bootYear, getTimes, setTimes, i)
    {
      ghost var before := StoreOf(cache, site);
      var season := Seasons[i];
      var read := CacheFirst(cache, site, season + "-" + IntToString(currentYear),
                             SeasonSource(season, currentYear, month, bootYear), getTimes[i], setTimes[i]);
      SeasonsNext(old(StoreOf(cache, site)), site.respond, currentYear, month, bootYear, getTimes, setTimes, i,
                  before, seasons, StoreOf(cache, site), read);
      seasons := seasons + [SeasonReport(season, SeasonStatsOf(read.Data()))];
      i := i + 1;
    }
  }

  /** The reports after `i + 1` seasons are those after `i` followed by the report of the
      read of season `i`. */
  lemma SeasonsNext(s0: Store, respond: (nat, string) -> Result<Document>, currentYear: int, month: nat, bootYear: int,
                    getTimes: seq<int>, setTimes: seq<int>, i: nat, before: Store, acc: seq<SeasonReport>, after: Store, read: Read)
    requires month < 12 && i < |Seasons| && |getTimes| == |setTimes| == |Seasons|
    requires (before, acc) == SeasonsUpTo(s0, respond, currentYear, month, bootYear, getTimes, setTimes, i)
    requires (after, read) == ReadStep(before, respond, Seasons[i] + "-" + IntToString(currentYear),
                                       SeasonSource(Seasons[i], currentYear, month, bootYear), getTimes[i], setTimes[i])
    ensures (after, acc + [SeasonReport(Seasons[i], SeasonStatsOf(read.Data()))]) ==
            SeasonsUpTo(s0, respond, currentYear, month, bootYear, getTimes, setTimes, i + 1)
  {
  }

  // ---------------------------------------------------------------------------------------
  // Properties
  // ---------------------------------------------------------------------------------------

  /** All four seasons are reported, in order, whatever the site answers. */
  lemma AllSeasonsReported(s0: Store, respond: (nat, string) -> Result<Document>, currentYear: int, month: nat, bootYear: int,
                           getTimes: seq<int>, setTimes: seq<int>)
    requires month < 12 && |getTimes| == |setTimes| == |Seasons|
    ensures var res := SeasonsUpTo(s0, respond, currentYear, month, bootYear, getTimes, setTimes, |Seasons|).1;
      |res| == 4 && res[0].season == "winter" && res[1].season == "spring" &&
      res[2].season == "summer" && res[3].season == "fall"
  {
  }

  /** The season reports of a listing read: the total is the listing's length and the
      breakdown covers every record; a failed read reports zeros. */
  lemma SeasonStatsShape(data: Result<Payload>)
    ensures var s := SeasonStatsOf(data);
      (s.statusBreakdown.Some? ==> (data.Ok? && data.value.Listing? &&
        var b := s.statusBreakdown.value; b.ongoing + b.upcoming + b.finished + b.unknown == s.total)) &&
      (s.statusBreakdown.None? ==> s.total == 0 && s.averageRating == NoRecords)
  {
    if data.Ok? && data.value.Listing? {
      BreakdownTotal(data.value.records);
    }
  }

  /** The total report's breakdown sums to its total, and its average is 0 exactly for an
      empty listing. */
  lemma TotalReportShape(data: Result<Payload>, season: Option<string>, year: Option<string>)
    ensures var r := TotalReport(data, season, year);
      r.Ok? ==> var b := r.value.statusBreakdown;
        b.ongoing + b.upcoming + b.finished + b.unknown == r.value.total &&
        (r.value.averageRating == NoRecords <==> r.value.total == 0)
  {
    if data.Ok? && data.value.Listing? {
      BreakdownTotal(data.value.records);
    }
  }

  /** A report's `total` is the number of distinct keys counted. */
  lemma GroupTotalIsKeys(tally: Result<Tally>, prefix: string, season: Option<string>, year: Option<string>)
    ensures var r := GroupReport(tally, prefix, season, year);
      r.Ok? ==> tally.Ok? && r.value.total == |tally.value.order| == |r.value.rows|
  {
  }

  /** Stats reads use the listing key of the plain listing endpoint, so the two share
      entries. */
  lemma StatsKeyIsListingKey(season: Option<string>, year: Option<string>)
    ensures SeasonYearKey("", season, year) == OrCurrent(season) + "-" + OrCurrent(year)
    ensures Given(season).None? && Given(year).None? ==> SeasonYearKey("", season, year) == "current-current"
  {
  }
}
