/** The detail endpoints of `animeDetailController` and `movieDetailController`, which are the
    same code over two key prefixes and two scrapers: the full record, three projections of
    it, a one-record JSON download and a download of up to fifty records. Every read is
    cache-first on `<prefix><id>`. */
module DetailController {
  import opened Wrappers
  import opened Text
  import opened Records
  import opened Dom
  import opened Http
  import opened CacheService
  import opened DataFormatter
  import opened ReadThrough
  import AnimeDetailService

  /** Which of the two controllers. */
  datatype Section = AnimeSection | MovieSection
  {
    function Prefix(): string {
      if AnimeSection? then AnimeDetailPrefix else MovieDetailPrefix
    }

    /** `detail-${id}` or `movie-detail-${id}`. */
    function Key(id: string): string {
      Prefix() + id
    }

    /** The scraper a miss calls. */
    function Source(id: string): (src: ReadThrough.Source)
      ensures src.Wellformed()
    {
      if AnimeSection? then AnimePage(id) else MoviePage(id)
    }

    function MissingIdMessage(): string {
      if AnimeSection? then "Anime ID diperlukan" else "Movie ID diperlukan"
    }

    function NoIdsMessage(): string {
      if AnimeSection? then "Array of anime IDs diperlukan dalam request body"
      else "Array of movie IDs diperlukan dalam request body"
    }

    function TooManyMessage(): string {
      if AnimeSection? then "Maximum 50 anime IDs per request" else "Maximum 50 movie IDs per request"
    }

    function FilePrefix(): string {
      if AnimeSection? then "anime_" else "movie_"
    }

    function BatchFilePrefix(): string {
      if AnimeSection? then "anime_export_" else "movies_export_"
    }

    /** The `type: 'movie'` field the movie downloads carry. */
    function TypeTag(): Option<string> {
      if AnimeSection? then None else Some("movie")
    }

    /** `p` is this controller's record of `id`. */
    predicate RecordOf(id: string, p: Payload) {
      if AnimeSection? then p.AnimePayload? && p.anime.id == id else p.MoviePayload? && p.movie.id == id
    }
  }

  const MaxBatch := 50
  const ExportSource := "LiveChart API"
  const NullTitleMessage := "Cannot read properties of null (reading 'replace')"
  const InvalidHeaderMessage := "Invalid character in header content [\"Content-Disposition\"]"

  /** A detail record of either kind. */
  predicate IsDetail(p: Payload) {
    p.AnimePayload? || p.MoviePayload?
  }

  /** The data of a read is a detail record whenever there is data. */
  predicate ReadsDetail(read: Read) {
    read.Data().Ok? ==> IsDetail(read.Data().value)
  }

  // ---------------------------------------------------------------------------------------
  // Views
  // ---------------------------------------------------------------------------------------

  /** `{ id, title, synopsis }`. */
  datatype SynopsisView = SynopsisView(id: string, title: Option<string>, synopsis: string)

  /** `{ id, title, streaming, links }`. */
  datatype StreamingView = StreamingView(id: string, title: Option<string>, streaming: Option<string>, links: Links)

  /** The anime stats `{ id, title, rating, ratingsCount, totalEpisodes, currentEpisode, status }`
      and the movie stats `{ id, title, rating, ratingsCount, status, format }` (the movie
      field names carry a prefix here because the types differ). */
  datatype StatsView =
    | AnimeStats(id: string, title: Option<string>, rating: Option<real>, ratingsCount: Option<string>,
                 totalEpisodes: Option<nat>, currentEpisode: Option<nat>, status: Option<string>)
    | MovieStats(id: string, movieTitle: string, movieRating: Option<real>, movieRatingsCount: Option<string>,
                 movieStatus: string, format: string)

  function DetailId(p: Payload): string
    requires IsDetail(p)
  {
    if p.AnimePayload? then p.anime.id else p.movie.id
  }

  /** `detailData.title`; a movie title is always a string, an anime title may be null. */
  function DetailTitle(p: Payload): (r: Option<string>)
    requires IsDetail(p)
    ensures p.MoviePayload? ==> r == Some(p.movie.title)
  {
    if p.AnimePayload? then p.anime.title else Some(p.movie.title)
  }

  function SynopsisOf(p: Payload): (v: SynopsisView)
    requires IsDetail(p)
    ensures v.id == DetailId(p) && v.title == DetailTitle(p)
  {
    if p.AnimePayload? then SynopsisView(p.anime.id, p.anime.title, p.anime.synopsis)
    else SynopsisView(p.movie.id, Some(p.movie.title), p.movie.synopsis)
  }

  function StreamingOf(p: Payload): (v: StreamingView)
    requires IsDetail(p)
    ensures v.id == DetailId(p) && v.title == DetailTitle(p)
  {
    if p.AnimePayload? then StreamingView(p.anime.id, p.anime.title, p.anime.streaming, p.anime.links)
    else StreamingView(p.movie.id, Some(p.movie.title), Some(p.movie.streaming), p.movie.links)
  }

  function StatsOf(p: Payload): (v: StatsView)
    requires IsDetail(p)
    ensures v.id == DetailId(p)
    ensures v.AnimeStats? <==> p.AnimePayload?
  {
    match p
    case AnimePayload(a) => AnimeStats(a.id, a.title, a.rating, a.ratingsCount, a.totalEpisodes, a.currentEpisode, a.status)
    case MoviePayload(m) => MovieStats(m.id, m.title, m.rating, m.ratingsCount, m.status, m.format)
  }

  // ---------------------------------------------------------------------------------------
  // Replies to a read
  // ---------------------------------------------------------------------------------------

  /** `getDetail`: a hit carries the stored timestamp and `cached: true`; a fresh record has
      neither a total nor `cached`; a failed scrape is a 500 with its message. */
  function DetailReply(read: Read, t: int): Reply<Payload> {
    match read
    case Cached(h) => DataReply(h.data, None, true, Some(h.timestamp), None, t)
    case Fresh(d) => DataReply(d, None, false, None, None, t)
    case Failed(m) => ErrorReply(500, m, t)
  }

  function SynopsisReply(read: Read, t: int): Reply<SynopsisView>
    requires ReadsDetail(read)
  {
    match read.Data()
    case Err(m) => ErrorReply(500, m, t)
    case Ok(p) => DataReply(SynopsisOf(p), None, false, None, None, t)
  }

  function StreamingReply(read: Read, t: int): Reply<StreamingView>
    requires ReadsDetail(read)
  {
    match read.Data()
    case Err(m) => ErrorReply(500, m, t)
    case Ok(p) => DataReply(StreamingOf(p), None, false, None, None, t)
  }

  function StatsReply(read: Read, t: int): Reply<StatsView>
    requires ReadsDetail(read)
  {
    match read.Data()
    case Err(m) => ErrorReply(500, m, t)
    case Ok(p) => DataReply(StatsOf(p), None, false, None, None, t)
  }

  // ---------------------------------------------------------------------------------------
  // Downloads
  // ---------------------------------------------------------------------------------------

  /** The JSON document a download sends: `exportedAt`, `source`, the movie `type` tag, and
      the record or records. */
  datatype ExportBody<T> = ExportBody(exportedAt: int, source: string, typeTag: Option<string>, content: T)

  /** A batch: `totalAnime`/`totalMovies` and the records. */
  datatype Batch = Batch(total: nat, records: seq<Payload>)

  /** A download with its file name, or the JSON error reply sent instead. */
  datatype Export<T> = File(filename: string, body: ExportBody<T>) | Refused(reply: Reply<T>)

  /** The characters Node accepts in a header value: tab, printable ASCII and 0x80-0xFF. */
  predicate HeaderChar(c: char) {
    c == '\t' || (' ' <= c <= '~') || ('\U{80}' <= c <= '\U{FF}')
  }

  predicate HeaderSafe(s: string) {
    forall i :: 0 <= i < |s| ==> HeaderChar(s[i])
  }

  /** `<prefix>${id}_${title.replace(/\s+/g, '_')}.json`. */
  function ExportName(section: Section, id: string, title: string): string {
    section.FilePrefix() + id + "_" + ReplaceWhitespaceRuns(title, "_") + ".json"
  }

  /** `exportToJSON` after the read: a null title throws on `replace`, a file name `setHeader`
      refuses throws, and either is answered with a 500. */
  function ExportReply(section: Section, id: string, read: Read, exportedAt: int, t: int): (r: Export<Payload>)
    requires ReadsDetail(read)
    ensures r.File? <==> read.Data().Ok? && DetailTitle(read.Data().value).Some? &&
                         HeaderSafe(ExportName(section, id, DetailTitle(read.Data().value).value))
    ensures r.File? ==> r.body.content == read.Data().value && r.body.source == ExportSource &&
                        r.filename == ExportName(section, id, DetailTitle(read.Data().value).value)
    ensures r.Refused? ==> r.reply.status == 500 && !r.reply.body.success
  {
    match read.Data()
    case Err(m) => Refused(ErrorReply(500, m, t))
    case Ok(p) =>
      match DetailTitle(p)
      case None => Refused(ErrorReply(500, NullTitleMessage, t))
      case Some(title) =>
        var name := ExportName(section, id, title);
        if !HeaderSafe(name) then Refused(ErrorReply(500, InvalidHeaderMessage, t))
        else File(name, ExportBody(exportedAt, ExportSource, section.TypeTag(), p))
  }

  /** The `ids` field of the request body: an array of ids, or anything else. */
  datatype IdsField = NotAnArray | Ids(ids: seq<string>)

  /** The body check of `exportMultipleToJSON`: the message of the 400, if any. */
  function BatchCheck(section: Section, field: IdsField): (r: Option<string>)
    ensures r.None? <==> field.Ids? && 1 <= |field.ids| <= MaxBatch
    ensures r.Some? ==> r.value == (if field.Ids? && |field.ids| > MaxBatch then section.TooManyMessage() else section.NoIdsMessage())
  {
    if field.NotAnArray? || |field.ids| == 0 then Some(section.NoIdsMessage())
    else if |field.ids| > MaxBatch then Some(section.TooManyMessage())
    else None
  }

  /** A read of one id of a batch: the store before it, the id, the clock reading of its
      `get` and that of its `set`, to the store after it and what it read. */
  type Reader = (Store, string, int, int) -> (Store, Read)

  /** Where a batch stands: the store and the records collected so far. */
  datatype Progress = Progress(store: Store, got: seq<Payload>)

  /** The store and the records after the first `k` ids of a batch, the `i`-th read at
      `getTimes[i]` and its miss written at `setTimes[i]`; a failed id is skipped. */
  function BatchUpTo(step: Reader, s0: Store, ids: seq<string>, getTimes: seq<int>, setTimes: seq<int>, k: nat): (r: Progress)
    requires k <= |ids| && k <= |getTimes| && k <= |setTimes|
    ensures |r.got| <= k
  {
    if k == 0 then Progress(s0, [])
    else
      var prev := BatchUpTo(step, s0, ids, getTimes, setTimes, k - 1);
      var read := step(prev.store, ids[k - 1], getTimes[k - 1], setTimes[k - 1]);
      Progress(read.0, Push(prev.got, read.1))
  }

  /** `details.push(detailData)` after a read that did not throw. */
  function Push(got: seq<Payload>, read: Read): (r: seq<Payload>)
    ensures |r| <= |got| + 1
  {
    match read.Data()
    case Err(_) => got
    case Ok(p) => got + [p]
  }

  /** The positions, among the first `k` ids, of the reads that yielded data. */
  function Picked(step: Reader, s0: Store, ids: seq<string>, getTimes: seq<int>, setTimes: seq<int>, k: nat): (idx: seq<nat>)
    requires k <= |ids| && k <= |getTimes| && k <= |setTimes|
  {
    if k == 0 then []
    else
      var prev := BatchUpTo(step, s0, ids, getTimes, setTimes, k - 1);
      var read := step(prev.store, ids[k - 1], getTimes[k - 1], setTimes[k - 1]);
      Picked(step, s0, ids, getTimes, setTimes, k - 1) + (if read.1.Data().Ok? then [k - 1] else [])
  }

  /** The cache-first read of one id of a batch. */
  function BatchRead(section: Section, s: Store, respond: (nat, string) -> Result<Document>, id: string,
                     now: int, later: int): (Store, Read)
  {
    ReadStep(s, respond, section.Key(id), section.Source(id), now, later)
  }

  /** The reader of this controller's batch. */
  function DetailReader(section: Section, respond: (nat, string) -> Result<Document>): Reader {
    (s: Store, id: string, now: int, later: int) => BatchRead(section, s, respond, id, now, later)
  }

  function BatchName(section: Section, stamp: int): string {
    section.BatchFilePrefix() + IntToString(stamp) + ".json"
  }

  // ---------------------------------------------------------------------------------------
  // Handlers
  // ---------------------------------------------------------------------------------------

  /** The read every single-id handler makes: `get(key)`, and on a miss the scrape and `set`. */
  method ReadDetail(section: Section, cache: Cache, site: Site, id: string, now: int, later: int) returns (read: Read)
    requires cache.Valid() && EntriesHold(cache.entries)
    modifies cache, site
    ensures cache.Valid() && EntriesHold(cache.entries)
    ensures (StoreOf(cache, site), read) ==
            ReadStep(old(StoreOf(cache, site)), site.respond, section.Key(id), section.Source(id), now, later)
    ensures read.Data().Ok? ==> section.RecordOf(id, read.Data().value)
  {
    ghost var s0 := StoreOf(cache, site);
    read := CacheFirst(cache, site, section.Key(id), section.Source(id), now, later);
    DetailReadHolds(section, s0, site.respond, id, now, later);
  }

  /** `getDetail`. */
  method GetDetail(section: Section, cache: Cache, site: Site, id: string, now: int, later: int) returns (reply: Reply<Payload>)
    requires cache.Valid() && EntriesHold(cache.entries)
    modifies cache, site
    ensures cache.Valid() && EntriesHold(cache.entries)
    ensures id == [] ==> StoreOf(cache, site) == old(StoreOf(cache, site)) && reply == ErrorReply(400, section.MissingIdMessage(), now)
    ensures id != [] ==>
      var (s, read) := ReadStep(old(StoreOf(cache, site)), site.respond, section.Key(id), section.Source(id), now, later);
      StoreOf(cache, site) == s && reply == DetailReply(read, later)
    ensures reply.status == 200 ==> reply.body.data.Some? && section.RecordOf(id, reply.body.data.value)
  {
    if id == [] {
      return ErrorReply(400, section.MissingIdMessage(), now);
    }
    var read := ReadDetail(section, cache, site, id, now, later);
    reply := DetailReply(read, later);
  }

  /** `getSynopsis`. */
  method GetSynopsis(section: Section, cache: Cache, site: Site, id: string, now: int, later: int) returns (reply: Reply<SynopsisView>)
    requires cache.Valid() && EntriesHold(cache.entries)
    modifies cache, site
    ensures cache.Valid() && EntriesHold(cache.entries)
    ensures id == [] ==> StoreOf(cache, site) == old(StoreOf(cache, site)) && reply == ErrorReply(400, section.MissingIdMessage(), now)
    ensures id != [] ==>
      var (s, read) := ReadStep(old(StoreOf(cache, site)), site.respond, section.Key(id), section.Source(id), now, later);
      StoreOf(cache, site) == s && ReadsDetail(read) && reply == SynopsisReply(read, later)
    ensures reply.status == 200 ==> reply.body.data.Some? && reply.body.data.value.id == id
  {
    if id == [] {
      return ErrorReply(400, section.MissingIdMessage(), now);
    }
    var read := ReadDetail(section, cache, site, id, now, later);
    reply := SynopsisReply(read, later);
  }

  /** `getStreaming`. */
  method GetStreaming(section: Section, cache: Cache, site: Site, id: string, now: int, later: int) returns (reply: Reply<StreamingView>)
    requires cache.Valid() && EntriesHold(cache.entries)
    modifies cache, site
    ensures cache.Valid() && EntriesHold(cache.entries)
    ensures id == [] ==> StoreOf(cache, site) == old(StoreOf(cache, site)) && reply == ErrorReply(400, section.MissingIdMessage(), now)
    ensures id != [] ==>
      var (s, read) := ReadStep(old(StoreOf(cache, site)), site.respond, section.Key(id), section.Source(id), now, later);
      StoreOf(cache, site) == s && ReadsDetail(read) && reply == StreamingReply(read, later)
    ensures reply.status == 200 ==> reply.body.data.Some? && reply.body.data.value.id == id
  {
    if id == [] {
      return ErrorReply(400, section.MissingIdMessage(), now);
    }
    var read := ReadDetail(section, cache, site, id, now, later);
    reply := StreamingReply(read, later);
  }

  /** `getStats`: the anime controller answers with the anime fields, the movie controller
      with the movie fields. */
  method GetStats(section: Section, cache: Cache, site: Site, id: string, now: int, later: int) returns (reply: Reply<StatsView>)
    requires cache.Valid() && EntriesHold(cache.entries)
    modifies cache, site
    ensures cache.Valid() && EntriesHold(cache.entries)
    ensures id == [] ==> StoreOf(cache, site) == old(StoreOf(cache, site)) && reply == ErrorReply(400, section.MissingIdMessage(), now)
    ensures id != [] ==>
      var (s, read) := ReadStep(old(StoreOf(cache, site)), site.respond, section.Key(id), section.Source(id), now, later);
      StoreOf(cache, site) == s && ReadsDetail(read) && reply == StatsReply(read, later)
    ensures reply.status == 200 ==> reply.body.data.Some? && reply.body.data.value.id == id &&
                                    (reply.body.data.value.AnimeStats? <==> section.AnimeSection?)
  {
    if id == [] {
      return ErrorReply(400, section.MissingIdMessage(), now);
    }
    var read := ReadDetail(section, cache, site, id, now, later);
    reply := StatsReply(read, later);
  }

  /** `exportToJSON`. */
  method ExportOne(section: Section, cache: Cache, site: Site, id: string, now: int, later: int, exportedAt: int)
    returns (r: Export<Payload>)
    requires cache.Valid() && EntriesHold(cache.entries)
    modifies cache, site
    ensures cache.Valid() && EntriesHold(cache.entries)
    ensures id == [] ==> StoreOf(cache, site) == old(StoreOf(cache, site)) && r == Refused(ErrorReply(400, section.MissingIdMessage(), now))
    ensures id != [] ==>
      var (s, read) := ReadStep(old(StoreOf(cache, site)), site.respond, section.Key(id), section.Source(id), now, later);
      StoreOf(cache, site) == s && ReadsDetail(read) && r == ExportReply(section, id, read, exportedAt, later)
    ensures r.File? ==> section.RecordOf(id, r.body.content)
  {
    if id == [] {
      return Refused(ErrorReply(400, section.MissingIdMessage(), now));
    }
    var read := ReadDetail(section, cache, site, id, now, later);
    r := ExportReply(section, id, read, exportedAt, later);
  }

  /** One read of a batch. */
  method ReadOne(section: Section, cache: Cache, site: Site, id: string, now: int, later: int) returns (read: Read)
    requires cache.Valid()
    modifies cache, site
    ensures cache.Valid()
    ensures (StoreOf(cache, site), read) == BatchRead(section, old(StoreOf(cache, site)), site.respond, id, now, later)
  {
    read := CacheFirst(cache, site, section.Key(id), section.Source(id), now, later);
  }

  /** The loop of `exportMultipleToJSON`: a cache-first read per id, in order, pushing the
      data of each read that did not throw. */
  method ReadBatch(section: Section, cache: Cache, site: Site, ids: seq<string>, getTimes: seq<int>, setTimes: seq<int>)
    returns (got: seq<Payload>)
    requires cache.Valid()
    requires |getTimes| >= |ids| && |setTimes| >= |ids|
    modifies cache, site
    ensures cache.Valid()
    ensures Progress(StoreOf(cache, site), got) == BatchUpTo(DetailReader(section, site.respond), old(StoreOf(cache, site)), ids, getTimes, setTimes, |ids|)
  {
    ghost var s0 := StoreOf(cache, site);
    ghost var step := DetailReader(section, site.respond);
    got := [];
    var i := 0;
    while i < |ids|
      invariant 0 <= i <= |ids|
      invariant cache.Valid()
      invariant Progress(StoreOf(cache, site), got) == BatchUpTo(step, s0, ids, getTimes, setTimes, i)
    {
      ghost var before := StoreOf(cache, site);
      var read := ReadOne(section, cache, site, ids[i], getTimes[i], setTimes[i]);
      assert (StoreOf(cache, site), read) == step(before, ids[i], getTimes[i], setTimes[i]);
      got := Push(got, read);
      i := i + 1;
    }
  }

  /** `exportMultipleToJSON`: the body check, then a cache-first read per id in order, a
      failed one skipped; the file name carries a clock reading taken after the loop. */
  method ExportMany(section: Section, cache: Cache, site: Site, field: IdsField, now: int,
                    getTimes: seq<int>, setTimes: seq<int>, exportedAt: int, fileStamp: int)
    returns (r: Export<Batch>)
    requires cache.Valid() && EntriesHold(cache.entries)
    requires field.Ids? ==> |getTimes| >= |field.ids| && |setTimes| >= |field.ids|
    modifies cache, site
    ensures cache.Valid() && EntriesHold(cache.entries)
    ensures BatchCheck(section, field).Some? ==>
      StoreOf(cache, site) == old(StoreOf(cache, site)) && r == Refused(ErrorReply(400, BatchCheck(section, field).value, now))
    ensures BatchCheck(section, field).None? ==>
      var Progress(s, got) := BatchUpTo(DetailReader(section, site.respond), old(StoreOf(cache, site)), field.ids, getTimes, setTimes, |field.ids|);
      StoreOf(cache, site) == s &&
      r == File(BatchName(section, fileStamp), ExportBody(exportedAt, ExportSource, section.TypeTag(), Batch(|got|, got)))
    ensures r.File? ==> r.body.content.total == |r.body.content.records| <= |field.ids|
  {
    var check := BatchCheck(section, field);
    if check.Some? {
      return Refused(ErrorReply(400, check.value, now));
    }
    ghost var s0 := StoreOf(cache, site);
    var got := ReadBatch(section, cache, site, field.ids, getTimes, setTimes);
    assert EntriesHold(cache.entries) by {
      ReaderFitsDetail(section, site.respond);
      BatchInOrder(section, DetailReader(section, site.respond), s0, field.ids, getTimes, setTimes, |field.ids|);
    }
    r := File(BatchName(section, fileStamp), ExportBody(exportedAt, ExportSource, section.TypeTag(), Batch(|got|, got)));
  }

  // ---------------------------------------------------------------------------------------
  // Properties
  // ---------------------------------------------------------------------------------------

  /** On a store whose entries fit their keys, a read of `<prefix><id>` yields this
      controller's record of `id` whenever it yields data, and the store keeps fitting. */
  lemma DetailReadHolds(section: Section, s: Store, respond: (nat, string) -> Result<Document>, id: string, now: int, later: int)
    requires EntriesHold(s.entries)
    ensures var (s', read) := ReadStep(s, respond, section.Key(id), section.Source(id), now, later);
      EntriesHold(s'.entries) && (read.Data().Ok? ==> section.RecordOf(id, read.Data().value))
  {
    var key := section.Key(id);
    DetailSourcesFit(respond, |s.requests|, id);
    FittingStepsHold(s, respond, key, section.Source(id), now, later);
    assert key[|section.Prefix()|..] == id;
    if section.AnimeSection? {
      assert StartsWith(key, AnimeDetailPrefix);
    } else {
      assert StartsWith(key, MovieDetailPrefix);
    }
  }

  /** One read of a batch keeps the store fitting and yields the record of its id. */
  lemma BatchReadHolds(section: Section, s: Store, respond: (nat, string) -> Result<Document>, id: string, now: int, later: int)
    requires EntriesHold(s.entries)
    ensures var step := BatchRead(section, s, respond, id, now, later);
      EntriesHold(step.0.entries) && (step.1.Data().Ok? ==> section.RecordOf(id, step.1.Data().value))
  {
    DetailReadHolds(section, s, respond, id, now, later);
  }

  /** A read whose site answers every request yields data. */
  lemma AnsweredReadOk(section: Section, s: Store, respond: (nat, string) -> Result<Document>, id: string, now: int, later: int)
    requires forall n, u :: respond(n, u).Ok?
    ensures BatchRead(section, s, respond, id, now, later).1.Data().Ok?
  {
    assert respond(|s.requests|, AnimeDetailService.DetailUrl(id)).Ok?;
  }

  /** The controller's reader fits. */
  lemma ReaderFitsDetail(section: Section, respond: (nat, string) -> Result<Document>)
    ensures var step := DetailReader(section, respond);
      forall s: Store, id: string, now: int, later: int :: EntriesHold(s.entries) ==>
        EntriesHold(step(s, id, now, later).0.entries) &&
        (step(s, id, now, later).1.Data().Ok? ==> section.RecordOf(id, step(s, id, now, later).1.Data().value))
  {
    var step := DetailReader(section, respond);
    forall s: Store, id: string, now: int, later: int | EntriesHold(s.entries)
      ensures EntriesHold(step(s, id, now, later).0.entries) &&
              (step(s, id, now, later).1.Data().Ok? ==> section.RecordOf(id, step(s, id, now, later).1.Data().value))
    {
      BatchReadHolds(section, s, respond, id, now, later);
    }
  }

  /** On a site that answers every request, the controller's reader always yields data. */
  lemma ReaderAnswersDetail(section: Section, respond: (nat, string) -> Result<Document>)
    requires forall n, u :: respond(n, u).Ok?
    ensures var step := DetailReader(section, respond); forall s: Store, id: string, now: int, later: int :: step(s, id, now, later).1.Data().Ok?
  {
    var step := DetailReader(section, respond);
    forall s: Store, id: string, now: int, later: int
      ensures step(s, id, now, later).1.Data().Ok?
    {
      AnsweredReadOk(section, s, respond, id, now, later);
    }
  }

  /** `idx` lists positions below `k` in increasing order, and the `j`-th record is the
      record of the id at the `j`-th position. */
  predicate InOrder(section: Section, ids: seq<string>, k: nat, idx: seq<nat>, got: seq<Payload>)
    requires k <= |ids|
  {
    |idx| == |got| &&
    (forall a, b :: 0 <= a < b < |idx| ==> idx[a] < idx[b]) &&
    (forall j :: 0 <= j < |idx| ==> idx[j] < k && section.RecordOf(ids[idx[j]], got[j]))
  }

  /** On a fitting store and with a fitting reader, a batch keeps the store fitting, and its
      records are those of the ids whose read yielded data, in the order of the ids. */
  lemma {:induction false} BatchInOrder(section: Section, step: Reader, s0: Store, ids: seq<string>,
                                        getTimes: seq<int>, setTimes: seq<int>, k: nat)
    requires k <= |ids| && k <= |getTimes| && k <= |setTimes|
    requires EntriesHold(s0.entries)
    requires forall s: Store, id: string, now: int, later: int :: EntriesHold(s.entries) ==>
      EntriesHold(step(s, id, now, later).0.entries) &&
      (step(s, id, now, later).1.Data().Ok? ==> section.RecordOf(id, step(s, id, now, later).1.Data().value))
    ensures var r := BatchUpTo(step, s0, ids, getTimes, setTimes, k);
      EntriesHold(r.store.entries) && InOrder(section, ids, k, Picked(step, s0, ids, getTimes, setTimes, k), r.got)
  {
    if k > 0 {
      var prev := BatchUpTo(step, s0, ids, getTimes, setTimes, k - 1);
      var idx := Picked(step, s0, ids, getTimes, setTimes, k - 1);
      var id, now, later := ids[k - 1], getTimes[k - 1], setTimes[k - 1];
      var read := step(prev.store, id, now, later);
      assert EntriesHold(prev.store.entries) && InOrder(section, ids, k - 1, idx, prev.got) by {
        BatchInOrder(section, step, s0, ids, getTimes, setTimes, k - 1);
      }
      assert EntriesHold(read.0.entries) && (read.1.Data().Ok? ==> section.RecordOf(id, read.1.Data().value));
      PushInOrder(section, ids, k, idx, prev.got, read.1);
    }
  }

  /** Pushing what a read of `ids[k - 1]` yields keeps the records in the order of the ids. */
  lemma PushInOrder(section: Section, ids: seq<string>, k: nat, idx: seq<nat>, got: seq<Payload>, read: Read)
    requires 0 < k <= |ids|
    requires InOrder(section, ids, k - 1, idx, got)
    requires read.Data().Ok? ==> section.RecordOf(ids[k - 1], read.Data().value)
    ensures InOrder(section, ids, k, idx + (if read.Data().Ok? then [k - 1] else []), Push(got, read))
  {
  }

  /** With a reader that always yields data, every id is picked, in order. */
  lemma {:induction false} AllPicked(step: Reader, s0: Store, ids: seq<string>, getTimes: seq<int>, setTimes: seq<int>, k: nat)
    requires k <= |ids| && k <= |getTimes| && k <= |setTimes|
    requires forall s: Store, id: string, now: int, later: int :: step(s, id, now, later).1.Data().Ok?
    ensures var idx := Picked(step, s0, ids, getTimes, setTimes, k);
      |idx| == k && forall j :: 0 <= j < k ==> idx[j] == j
  {
    if k > 0 {
      var prev := BatchUpTo(step, s0, ids, getTimes, setTimes, k - 1);
      var id, now, later := ids[k - 1], getTimes[k - 1], setTimes[k - 1];
      assert step(prev.store, id, now, later).1.Data().Ok?;
      AllPicked(step, s0, ids, getTimes, setTimes, k - 1);
    }
  }

  /** When the site answers every request, no id is skipped: the batch holds the records of
      the ids, in their order. */
  lemma BatchComplete(section: Section, s0: Store, respond: (nat, string) -> Result<Document>, ids: seq<string>,
                      getTimes: seq<int>, setTimes: seq<int>)
    requires |getTimes| >= |ids| && |setTimes| >= |ids|
    requires EntriesHold(s0.entries)
    requires forall n, u :: respond(n, u).Ok?
    ensures var r := BatchUpTo(DetailReader(section, respond), s0, ids, getTimes, setTimes, |ids|);
      |r.got| == |ids| && forall j :: 0 <= j < |ids| ==> section.RecordOf(ids[j], r.got[j])
  {
    var step := DetailReader(section, respond);
    ReaderFitsDetail(section, respond);
    ReaderAnswersDetail(section, respond);
    BatchInOrder(section, step, s0, ids, getTimes, setTimes, |ids|);
    AllPicked(step, s0, ids, getTimes, setTimes, |ids|);
  }

  /** A batch skips an id exactly when its read fails: the records are those of the reads
      that yielded data, in the order of the ids. */
  lemma BatchSkipsFailures(section: Section, s0: Store, respond: (nat, string) -> Result<Document>, ids: seq<string>,
                           getTimes: seq<int>, setTimes: seq<int>)
    requires |getTimes| >= |ids| && |setTimes| >= |ids|
    requires EntriesHold(s0.entries)
    ensures var step := DetailReader(section, respond);
      var r := BatchUpTo(step, s0, ids, getTimes, setTimes, |ids|);
      EntriesHold(r.store.entries) && InOrder(section, ids, |ids|, Picked(step, s0, ids, getTimes, setTimes, |ids|), r.got)
  {
    ReaderFitsDetail(section, respond);
    BatchInOrder(section, DetailReader(section, respond), s0, ids, getTimes, setTimes, |ids|);
  }

  // ---------------------------------------------------------------------------------------
  // File names
  // ---------------------------------------------------------------------------------------

  predicate NoWhitespace(s: string) {
    forall i :: 0 <= i < |s| ==> !IsWhitespace(s[i])
  }

  /** Replacing the whitespace runs with a replacement that has none leaves no whitespace, and
      every character left comes from the text or the replacement. */
  lemma {:induction false} CollapseChars(s: string, rep: string, inRun: bool)
    requires NoWhitespace(rep)
    ensures var r := CollapseFrom(s, rep, inRun);
      NoWhitespace(r) && forall i :: 0 <= i < |r| ==> r[i] in s || r[i] in rep
  {
    if s != [] {
      CollapseChars(s[1..], rep, IsWhitespace(s[0]));
      var rest := CollapseFrom(s[1..], rep, IsWhitespace(s[0]));
      var r := CollapseFrom(s, rep, inRun);
      var head: string := if IsWhitespace(s[0]) then (if inRun then [] else rep) else [s[0]];
      assert r == head + rest;
      forall i | 0 <= i < |r|
        ensures !IsWhitespace(r[i]) && (r[i] in s || r[i] in rep)
      {
        if i >= |head| {
          assert r[i] == rest[i - |head|];
          assert rest[i - |head|] in s[1..] ==> rest[i - |head|] in s;
        }
      }
    }
  }

  /** A text without whitespace is left as it is. */
  lemma {:induction false} CollapsePlain(s: string, rep: string, inRun: bool)
    requires NoWhitespace(s)
    ensures CollapseFrom(s, rep, inRun) == s
  {
    if s != [] {
      assert !IsWhitespace(s[0]);
      CollapsePlain(s[1..], rep, false);
      assert s == [s[0]] + s[1..];
    }
  }

  /** The download's file name: the controller's prefix, the id, an underscore, the title
      with each whitespace run turned into one underscore, and ".json"; a title without
      whitespace goes in unchanged. */
  lemma ExportNameShape(section: Section, id: string, title: string)
    ensures var name := ExportName(section, id, title);
      exists middle :: NoWhitespace(middle) && |middle| <= |title| &&
        name == section.FilePrefix() + id + "_" + middle + ".json" &&
        (NoWhitespace(title) ==> middle == title)
  {
    var middle := ReplaceWhitespaceRuns(title, "_");
    CollapseChars(title, "_", false);
    CollapseShorter(title, "_", false);
    if NoWhitespace(title) {
      CollapsePlain(title, "_", false);
    }
    assert ExportName(section, id, title) == section.FilePrefix() + id + "_" + middle + ".json";
  }

  /** An id and a title of header-safe characters make a name `setHeader` accepts. */
  lemma ExportNameSafe(section: Section, id: string, title: string)
    requires HeaderSafe(id) && HeaderSafe(title)
    ensures HeaderSafe(ExportName(section, id, title))
  {
    var middle := ReplaceWhitespaceRuns(title, "_");
    CollapseChars(title, "_", false);
    var pre := section.FilePrefix() + id + "_";
    assert HeaderSafe(pre) by {
      assert HeaderSafe(section.FilePrefix());
    }
    assert HeaderSafe(middle) by {
      forall i | 0 <= i < |middle|
        ensures HeaderChar(middle[i])
      {
        assert middle[i] in title || middle[i] in "_";
      }
    }
    SafeConcat(pre, middle);
    SafeConcat(pre + middle, ".json");
  }

  lemma SafeConcat(a: string, b: string)
    requires HeaderSafe(a) && HeaderSafe(b)
    ensures HeaderSafe(a + b)
  {
    forall i | 0 <= i < |a + b|
      ensures HeaderChar((a + b)[i])
    {
      if i >= |a| { assert (a + b)[i] == b[i - |a|]; }
    }
  }

  /** With a one-character replacement the result is never longer than the text. */
  lemma {:induction false} CollapseShorter(s: string, rep: string, inRun: bool)
    requires |rep| == 1
    ensures |CollapseFrom(s, rep, inRun)| <= |s|
  {
    if s != [] {
      CollapseShorter(s[1..], rep, IsWhitespace(s[0]));
    }
  }
}
