/** The cache-first read the controllers and the statistics service share: `get(key)`, and
    on a miss a fetch whose result is `set` under the key; a failed fetch writes nothing. */
module ReadThrough {
  import opened Wrappers
  import opened Records
  import opened Http
  import opened Dom
  import opened CacheService
  import opened ScrapeService
  import opened AnimeDetailService
  import opened MovieDetailService
  import opened Collections
  import opened Text

  /** Where the data of a key comes from on a miss: a listing scrape (with the clock's month
      and the year the scrape service was loaded in), or a detail page. */
  datatype Source =
    | ListingPage(kind: Kind, season: Option<string>, year: Option<string>, month: nat, bootYear: int)
    | AnimePage(id: string)
    | MoviePage(id: string)
  {
    predicate Wellformed() {
      ListingPage? ==> month < 12
    }

    /** The requests the fetch makes. */
    function Requests(): seq<string>
      requires Wellformed()
    {
      match this
      case ListingPage(kind, season, year, month, bootYear) => ListingRequests(kind, season, year, month, bootYear)
      case AnimePage(id) => [DetailUrl(id)]
      case MoviePage(id) => [DetailUrl(id)]
    }

    /** What the fetch gives when the site answers its first request with `respond(n, _)`. */
    function Outcome(respond: (nat, string) -> Result<Document>, n: nat): Result<Payload>
      requires Wellformed()
    {
      match this
      case ListingPage(kind, season, year, month, bootYear) =>
        (match ListingOutcome(respond, n, kind, season, year, month, bootYear)
         case Err(m) => Err(m)
         case Ok(list) => Ok(Listing(list)))
      case AnimePage(id) =>
        (match DetailOutcome(respond, n, id)
         case Err(m) => Err(m)
         case Ok(a) => Ok(AnimePayload(a)))
      case MoviePage(id) =>
        match MovieOutcome(respond, n, id)
        case Err(m) => Err(m)
        case Ok(mv) => Ok(MoviePayload(mv))
    }
  }

  /** Runs the scrape a source names. */
  method FetchSource(site: Site, src: Source) returns (r: Result<Payload>)
    requires src.Wellformed()
    modifies site
    ensures site.requests == old(site.requests) + src.Requests()
    ensures r == src.Outcome(site.respond, |old(site.requests)|)
  {
    match src
    case ListingPage(kind, season, year, month, bootYear) =>
      var list := ScrapeListing(site, kind, season, year, month, bootYear);
      r := if list.Ok? then Ok(Listing(list.value)) else Err(list.message);
    case AnimePage(id) =>
      var a := ScrapeAnimeDetail(site, id);
      r := if a.Ok? then Ok(AnimePayload(a.value)) else Err(a.message);
    case MoviePage(id) =>
      var mv := ScrapeMovieDetail(site, id);
      r := if mv.Ok? then Ok(MoviePayload(mv.value)) else Err(mv.message);
  }

  /** `value || 'current'` for a query value. */
  function OrCurrent(v: Option<string>): (r: string)
    ensures r != []
  {
    if Given(v).Some? then v.value else "current"
  }

  /** The listing cache key `<prefix><season || 'current'>-<year || 'current'>`. */
  function SeasonYearKey(prefix: string, season: Option<string>, year: Option<string>): string {
    prefix + OrCurrent(season) + "-" + OrCurrent(year)
  }

  /** `year ? parseInt(year) : null` as the scrapers see it: they default a falsy year (null,
      NaN and 0 alike) to the current one, and put any other number into the URL. */
  function YearArg(year: Option<string>): (r: Option<string>)
    ensures r.Some? ==> Given(year).Some? && ParseIntJs(year.value).Some? && ParseIntJs(year.value).value != 0 &&
                        r.value == IntToString(ParseIntJs(year.value).value)
    ensures r.None? ==> Given(year).None? || ParseIntJs(year.value).None? || ParseIntJs(year.value).value == 0
  {
    if Given(year).None? then None
    else match ParseIntJs(year.value)
      case None => None
      case Some(v) => if v == 0 then None else Some(IntToString(v))
  }

  /** The source of a listing read made with the query's season and year. */
  function ListingSource(kind: Kind, season: Option<string>, year: Option<string>, month: nat, bootYear: int): (src: Source)
    requires month < 12
    ensures src.Wellformed()
  {
    ListingPage(kind, season, YearArg(year), month, bootYear)
  }

  /** How a cache-first read was answered. */
  datatype Read = Cached(hit: Hit) | Fresh(data: Payload) | Failed(message: string)
  {
    /** `get(key)?.data`, or the fetched data, or the error the fetch raised. */
    function Data(): Result<Payload> {
      match this
      case Cached(h) => Ok(h.data)
      case Fresh(d) => Ok(d)
      case Failed(m) => Err(m)
    }
  }

  /** The state a read goes through: the cache's entries and key order, and the site's log. */
  datatype Store = Store(entries: map<string, Entry>, order: seq<string>, requests: seq<string>)

  /** The store the cache and the site make up. */
  function StoreOf(cache: Cache, site: Site): Store
    reads cache, site
  {
    Store(cache.entries, cache.order, site.requests)
  }

  /** The cache invariant on a store. */
  ghost predicate StoreValid(s: Store) {
    NoDup(s.order) && forall k :: k in s.entries <==> k in s.order
  }

  /** The store after a miss on `key` (an expired entry has been evicted by the read) and a
      fetch with outcome `fetched`, written at time `later`. */
  function MissEntries(entries: map<string, Entry>, key: string, fetched: Result<Payload>, later: int): map<string, Entry> {
    if fetched.Ok? then Without(entries, key)[key := Entry(fetched.value, later)] else Without(entries, key)
  }

  /** The key order after the same miss: an evicted key leaves, a written key goes last. */
  function MissOrder(order: seq<string>, key: string, fetched: Result<Payload>): seq<string> {
    if fetched.Ok? then RemoveValue(order, key) + [key] else RemoveValue(order, key)
  }

  /** A cache-first read on `key` at `now`, the fetch's data written at `later`. */
  function ReadStep(s: Store, respond: (nat, string) -> Result<Document>, key: string, src: Source, now: int, later: int): (Store, Read)
    requires src.Wellformed()
  {
    match Lookup(s.entries, key, now)
    case Some(h) => (s, Cached(h))
    case None =>
      var fetched := src.Outcome(respond, |s.requests|);
      (Store(MissEntries(s.entries, key, fetched, later), MissOrder(s.order, key, fetched), s.requests + src.Requests()),
       if fetched.Ok? then Fresh(fetched.value) else Failed(fetched.message))
  }

  /** A refresh: the fetch, and its data written at `later` on success. */
  function RefreshStep(s: Store, respond: (nat, string) -> Result<Document>, key: string, src: Source, later: int): (Store, Result<Payload>)
    requires src.Wellformed()
  {
    var fetched := src.Outcome(respond, |s.requests|);
    var entries := if fetched.Ok? then s.entries[key := Entry(fetched.value, later)] else s.entries;
    var order := if fetched.Ok? && key !in s.entries then s.order + [key] else s.order;
    (Store(entries, order, s.requests + src.Requests()), fetched)
  }

  /** `get(key)`, then on a miss the fetch and `set(data, key)` at `later`. */
  method CacheFirst(cache: Cache, site: Site, key: string, src: Source, now: int, later: int) returns (r: Read)
    requires cache.Valid() && src.Wellformed()
    modifies cache, site
    ensures cache.Valid()
    ensures (Store(cache.entries, cache.order, site.requests), r) ==
            ReadStep(Store(old(cache.entries), old(cache.order), old(site.requests)), site.respond, key, src, now, later)
  {
    var hit := cache.Get(key, now);
    if hit.Some? {
      return Cached(hit.value);
    }
    assert cache.entries == Without(old(cache.entries), key);
    var fetched := FetchSource(site, src);
    match fetched
    case Err(m) =>
      r := Failed(m);
    case Ok(data) =>
      cache.Set(data, key, later);
      r := Fresh(data);
  }

  /** A refresh never reads the cache: it fetches and, on success, overwrites the key. */
  method Refresh(cache: Cache, site: Site, key: string, src: Source, later: int) returns (r: Result<Payload>)
    requires cache.Valid() && src.Wellformed()
    modifies cache, site
    ensures cache.Valid()
    ensures (Store(cache.entries, cache.order, site.requests), r) ==
            RefreshStep(Store(old(cache.entries), old(cache.order), old(site.requests)), site.respond, key, src, later)
  {
    r := FetchSource(site, src);
    if r.Ok? {
      cache.Set(r.value, key, later);
    }
  }

  /** A hit returns the stored data and timestamp, makes no request and changes nothing. */
  lemma ReadStepHit(s: Store, respond: (nat, string) -> Result<Document>, key: string, src: Source, now: int, later: int)
    requires src.Wellformed()
    requires key in s.entries && now - s.entries[key].timestamp <= CacheDuration
    ensures ReadStep(s, respond, key, src, now, later) ==
            (s, Cached(Hit(s.entries[key].data, s.entries[key].timestamp, now - s.entries[key].timestamp)))
  {
  }

  /** A miss makes the source's requests; a successful fetch is written under the key and
      reads back at `later` with age 0, a failed one leaves the key absent; every other key
      reads as before. */
  lemma ReadStepMiss(s: Store, respond: (nat, string) -> Result<Document>, key: string, src: Source, now: int, later: int,
                     other: string, t: int)
    requires src.Wellformed()
    requires Lookup(s.entries, key, now).None?
    requires other != key
    ensures var (s', r) := ReadStep(s, respond, key, src, now, later);
      var fetched := src.Outcome(respond, |s.requests|);
      s'.requests == s.requests + src.Requests() &&
      r.Data() == fetched &&
      (fetched.Ok? ==> Lookup(s'.entries, key, later) == Some(Hit(fetched.value, later, 0))) &&
      (fetched.Err? ==> key !in s'.entries) &&
      Lookup(s'.entries, other, t) == Lookup(s.entries, other, t)
  {
    var fetched := src.Outcome(respond, |s.requests|);
    if fetched.Ok? {
      SetThenGet(Without(s.entries, key), key, fetched.value, later);
      OtherKeysIndependent(Without(s.entries, key), key, other, Entry(fetched.value, later), t);
    }
    OtherKeysIndependent(s.entries, key, other, Entry(Listing([]), 0), t);
  }

  /** A miss keeps the entries and the key order in step, each key once. */
  lemma MissValid(entries: map<string, Entry>, order: seq<string>, key: string, fetched: Result<Payload>, later: int)
    requires NoDup(order) && forall k :: k in entries <==> k in order
    ensures NoDup(MissOrder(order, key, fetched))
    ensures forall k :: k in MissEntries(entries, key, fetched, later) <==> k in MissOrder(order, key, fetched)
  {
    assert key !in RemoveValue(order, key);
  }

  /** Reads and refreshes keep the store and its key order in step, each key once. */
  lemma StepsKeepValid(s: Store, respond: (nat, string) -> Result<Document>, key: string, src: Source, now: int, later: int)
    requires src.Wellformed() && StoreValid(s)
    ensures StoreValid(ReadStep(s, respond, key, src, now, later).0)
    ensures StoreValid(RefreshStep(s, respond, key, src, later).0)
  {
    MissValid(s.entries, s.order, key, src.Outcome(respond, |s.requests|), later);
  }
  /** A miss that fetched data is followed, within the TTL of the write, by a hit on the same
      data that makes no request and changes nothing. */
  lemma RereadHits(s: Store, respond: (nat, string) -> Result<Document>, key: string, src: Source,
                   now: int, later: int, now2: int, later2: int)
    requires src.Wellformed()
    requires Lookup(s.entries, key, now).None? && src.Outcome(respond, |s.requests|).Ok?
    requires now2 - later <= CacheDuration
    ensures var (s1, r1) := ReadStep(s, respond, key, src, now, later);
      var (s2, r2) := ReadStep(s1, respond, key, src, now2, later2);
      s2 == s1 && r2.Cached? && r2.Data() == r1.Data() && r2.hit.timestamp == later
  {
    var fetched := src.Outcome(respond, |s.requests|);
    var s1 := ReadStep(s, respond, key, src, now, later).0;
    assert s1.entries == Without(s.entries, key)[key := Entry(fetched.value, later)];
    ReadStepHit(s1, respond, key, src, now2, later2);
  }

  // ---------------------------------------------------------------------------------------
  // What a key holds
  // ---------------------------------------------------------------------------------------

  /** The key prefixes of the two detail controllers. */
  const AnimeDetailPrefix := "detail-"
  const MovieDetailPrefix := "movie-detail-"

  /** A payload fits a key when a detail key holds the record of the id after its prefix. */
  predicate KeyHolds(key: string, p: Payload) {
    (StartsWith(key, AnimeDetailPrefix) ==> p.AnimePayload? && p.anime.id == key[|AnimeDetailPrefix|..]) &&
    (StartsWith(key, MovieDetailPrefix) ==> p.MoviePayload? && p.movie.id == key[|MovieDetailPrefix|..])
  }

  /** Every entry fits its key. */
  ghost predicate EntriesHold(entries: map<string, Entry>) {
    forall k :: k in entries ==> KeyHolds(k, entries[k].data)
  }

  /** A fetch outcome that may be written under `key`. */
  predicate FitsKey(key: string, fetched: Result<Payload>) {
    fetched.Ok? ==> KeyHolds(key, fetched.value)
  }

  /** Reads and refreshes whose fetch fits the key keep every entry fitting its key. */
  lemma FittingStepsHold(s: Store, respond: (nat, string) -> Result<Document>, key: string, src: Source, now: int, later: int)
    requires src.Wellformed() && EntriesHold(s.entries)
    requires FitsKey(key, src.Outcome(respond, |s.requests|))
    ensures EntriesHold(ReadStep(s, respond, key, src, now, later).0.entries)
    ensures EntriesHold(RefreshStep(s, respond, key, src, later).0.entries)
  {
  }

  /** A detail page fetched for `id` fits the key of its controller. */
  lemma DetailSourcesFit(respond: (nat, string) -> Result<Document>, n: nat, id: string)
    ensures FitsKey(AnimeDetailPrefix + id, AnimePage(id).Outcome(respond, n))
    ensures FitsKey(MovieDetailPrefix + id, MoviePage(id).Outcome(respond, n))
  {
    assert (AnimeDetailPrefix + id)[|AnimeDetailPrefix|..] == id;
    assert (MovieDetailPrefix + id)[|MovieDetailPrefix|..] == id;
    assert !StartsWith(AnimeDetailPrefix + id, MovieDetailPrefix) by {
      assert (AnimeDetailPrefix + id)[0] == 'd';
    }
    assert !StartsWith(MovieDetailPrefix + id, AnimeDetailPrefix) by {
      assert (MovieDetailPrefix + id)[0] == 'm';
    }
  }
}
