/** The first, single-file version of the server: one hard-coded listing page, a one-slot
    cache (`cachedData` and `lastScrapedTime`), and four endpoints. Its entry loop builds the
    same records as the service's `_extractAnimeInfo`, but has no per-entry `try`: an entry
    that throws aborts the whole scrape. */
module LegacyServer {
  import opened Wrappers
  import opened Text
  import opened Records
  import opened Dom
  import opened Http
  import opened Collections
  import opened DataFormatter
  import opened ScrapeService
  import AnimeController

  /** The one page this server scrapes. */
  const LegacyUrl := "https://www.livechart.me/fall-2025/tv?ongoing=all"

  /** One hour, in milliseconds. */
  const LegacyTtl: int := 60 * 60 * 1000

  const RefreshedMessage := "Cache refreshed successfully"

  // ---------------------------------------------------------------------------------------
  // The scrape
  // ---------------------------------------------------------------------------------------

  /** `title || animeTitle`: the entry is kept when this is not empty. */
  function LegacyTitle(e: ListingEntry): string {
    var title := Trim(e.headingText);
    if title != [] then title else e.titleAttr.GetOr("")
  }

  /** The record the loop body builds, written as it stands inline: the episode rule with no
      empty-text guard, and the studio rule applied to the trimmed text. */
  function LegacyRecord(e: ListingEntry): ListingRecord {
    var studio := StudioRule(Trim(e.studioText));
    ListingRecord(
      Given(e.idAttr),
      LegacyTitle(e),
      AbsoluteLink(e.animeHref),
      EntryStatus(e.statusText, e.descendantText),
      EpisodeRule(Trim(e.episodeText)),
      studio,
      OrElse(Trim(e.scoreText), "N/A"),
      Given(e.posterSrc))
  }

  /** The first entry that throws, if any. */
  function FirstUnreadable(nodes: seq<EntryNode>): (r: Option<nat>)
    ensures r.Some? ==> r.value < |nodes| && nodes[r.value].Unreadable? &&
                        forall j :: 0 <= j < r.value ==> nodes[j].Readable?
    ensures r.None? ==> forall j :: 0 <= j < |nodes| ==> nodes[j].Readable?
  {
    if nodes == [] then None
    else if nodes[0].Unreadable? then Some(0)
    else match FirstUnreadable(nodes[1..])
      case None => None
      case Some(i) => Some(i + 1)
  }

  /** What the entry loop gives: the error of the first entry that throws, else the records
      of the entries with a title, in document order. */
  function LegacyOutcome(nodes: seq<EntryNode>): Result<seq<ListingRecord>> {
    match FirstUnreadable(nodes)
    case Some(i) => Err(nodes[i].reason)
    case None => Ok(Parsed(nodes))
  }

  /** The entry loop of `scrapeAnimeData`. */
  method ParseLegacy(nodes: seq<EntryNode>) returns (r: Result<seq<ListingRecord>>)
    ensures r == LegacyOutcome(nodes)
  {
    var animeList: seq<ListingRecord> := [];
    var i := 0;
    while i < |nodes|
      invariant 0 <= i <= |nodes|
      invariant FirstUnreadable(nodes[..i]).None?
      invariant animeList == Parsed(nodes[..i])
    {
      FirstUnreadableStep(nodes, i);
      match nodes[i] {
        case Unreadable(m) =>
          return Err(m);
        case Readable(e) =>
          LegacyKeep(nodes, i, animeList);
          if LegacyTitle(e) != [] {
            animeList := animeList + [LegacyRecord(e)];
          }
      }
      i := i + 1;
    }
    assert nodes[..i] == nodes;
    r := Ok(animeList);
  }

  /** The scrape on a site whose `n`-th answer is `respond(n, _)`: a failed request is
      rethrown with its own message. */
  function LegacyFetchOutcome(respond: (nat, string) -> Result<Document>, n: nat): Result<seq<ListingRecord>> {
    match respond(n, LegacyUrl)
    case Err(m) => Err(m)
    case Ok(doc) => LegacyOutcome(doc.listing)
  }

  /** `scrapeAnimeData`: one request, then the entry loop. */
  method ScrapeLegacy(site: Site) returns (r: Result<seq<ListingRecord>>)
    modifies site
    ensures site.requests == old(site.requests) + [LegacyUrl]
    ensures r == LegacyFetchOutcome(site.respond, |old(site.requests)|)
  {
    var page := site.Fetch(LegacyUrl);
    match page
    case Err(m) =>
      r := Err(m);
    case Ok(doc) =>
      r := ParseLegacy(doc.listing);
  }

  // ---------------------------------------------------------------------------------------
  // The server
  // ---------------------------------------------------------------------------------------

  /** The JSON bodies of the four endpoints. */
  datatype Body =
    | CachedBody(data: seq<ListingRecord>, cachedAt: int)
    | ScrapedBody(data: seq<ListingRecord>, scrapedAt: int, total: nat)
    | RefreshedBody(message: string, data: seq<ListingRecord>, total: nat)
    | SearchBody(data: seq<ListingRecord>, total: nat)

  /** A 200 with its body, or a 500 with the error message. */
  datatype LegacyReply = Success(body: Body) | Failure(status: nat, error: string)

  /** The health check: `cacheStatus` and `lastScrapedAt`. */
  datatype Health = Health(status: string, cacheStatus: string, lastScrapedAt: Option<int>)

  /** A timestamp slot is truthy when it is set and not 0. */
  predicate Stamped(t: Option<int>) {
    t.Some? && t.value != 0
  }

  /** The freshness test of `GET /api/anime`: data, a truthy time, and an age strictly below
      the TTL. */
  predicate Serves(data: Option<seq<ListingRecord>>, last: Option<int>, now: int) {
    data.Some? && Stamped(last) && now - last.value < LegacyTtl
  }

  /** The module-level state of the server. */
  class App {
    var cachedData: Option<seq<ListingRecord>>
    var lastScrapedTime: Option<int>

    constructor ()
      ensures cachedData.None? && lastScrapedTime.None?
    {
      cachedData := None;
      lastScrapedTime := None;
    }

    /** `GET /api/anime`: the cached data while fresh, else a scrape stored with the time the
        request started. */
    method GetAnime(site: Site, now: int) returns (r: LegacyReply)
      modifies this, site
      ensures Serves(old(cachedData), old(lastScrapedTime), now) ==>
        r == Success(CachedBody(old(cachedData).value, old(lastScrapedTime).value)) &&
        cachedData == old(cachedData) && lastScrapedTime == old(lastScrapedTime) && site.requests == old(site.requests)
      ensures !Serves(old(cachedData), old(lastScrapedTime), now) ==>
        site.requests == old(site.requests) + [LegacyUrl] &&
        match LegacyFetchOutcome(site.respond, |old(site.requests)|)
        case Err(m) => r == Failure(500, m) && cachedData == old(cachedData) && lastScrapedTime == old(lastScrapedTime)
        case Ok(list) => r == Success(ScrapedBody(list, now, |list|)) && cachedData == Some(list) && lastScrapedTime == Some(now)
    {
      if Serves(cachedData, lastScrapedTime, now) {
        return Success(CachedBody(cachedData.value, lastScrapedTime.value));
      }
      var animeData := ScrapeLegacy(site);
      match animeData
      case Err(m) =>
        r := Failure(500, m);
      case Ok(list) =>
        cachedData := Some(list);
        lastScrapedTime := Some(now);
        r := Success(ScrapedBody(list, now, |list|));
    }

    /** `POST /api/anime/refresh`: always scrapes; the stored time is read after the fetch. */
    method Refresh(site: Site, later: int) returns (r: LegacyReply)
      modifies this, site
      ensures site.requests == old(site.requests) + [LegacyUrl]
      ensures match LegacyFetchOutcome(site.respond, |old(site.requests)|)
        case Err(m) => r == Failure(500, m) && cachedData == old(cachedData) && lastScrapedTime == old(lastScrapedTime)
        case Ok(list) => r == Success(RefreshedBody(RefreshedMessage, list, |list|)) &&
                         cachedData == Some(list) && lastScrapedTime == Some(later)
    {
      var animeData := ScrapeLegacy(site);
      match animeData
      case Err(m) =>
        r := Failure(500, m);
      case Ok(list) =>
        cachedData := Some(list);
        lastScrapedTime := Some(later);
        r := Success(RefreshedBody(RefreshedMessage, list, |list|));
    }

    /** `GET /api/anime/search/:title`: searches the cached data whatever its age; only an
        empty slot is filled by a scrape. There is no minimum query length. */
    method Search(site: Site, title: string, later: int) returns (r: LegacyReply)
      modifies this, site
      ensures old(cachedData).Some? ==>
        r == Success(SearchBody(SearchIn(old(cachedData).value, title), |SearchIn(old(cachedData).value, title)|)) &&
        cachedData == old(cachedData) && lastScrapedTime == old(lastScrapedTime) && site.requests == old(site.requests)
      ensures old(cachedData).None? ==>
        site.requests == old(site.requests) + [LegacyUrl] &&
        match LegacyFetchOutcome(site.respond, |old(site.requests)|)
        case Err(m) => r == Failure(500, m) && cachedData == old(cachedData) && lastScrapedTime == old(lastScrapedTime)
        case Ok(list) => r == Success(SearchBody(SearchIn(list, title), |SearchIn(list, title)|)) &&
                         cachedData == Some(list) && lastScrapedTime == Some(later)
    {
      var animeData: seq<ListingRecord>;
      if cachedData.Some? {
        animeData := cachedData.value;
      } else {
        var fetched := ScrapeLegacy(site);
        if fetched.Err? {
          return Failure(500, fetched.message);
        }
        animeData := fetched.value;
        cachedData := Some(animeData);
        lastScrapedTime := Some(later);
      }
      var results := SearchIn(animeData, title);
      r := Success(SearchBody(results, |results|));
    }

    /** `GET /api/health`: "filled" exactly when the slot holds data, an empty list included. */
    function HealthCheck(): (h: Health)
      reads this
      ensures h.status == "ok"
      ensures h.cacheStatus == (if cachedData.Some? then "filled" else "empty")
      ensures h.lastScrapedAt.Some? <==> Stamped(lastScrapedTime)
      ensures h.lastScrapedAt.Some? ==> h.lastScrapedAt == lastScrapedTime
    {
      Health("ok", if cachedData.Some? then "filled" else "empty",
             if Stamped(lastScrapedTime) then lastScrapedTime else None)
    }
  }

  /** The search filter: the records whose lower-cased title contains the lower-cased query. */
  function SearchIn(list: seq<ListingRecord>, title: string): seq<ListingRecord> {
    Filter(list, AnimeController.TitleMatches(ToLower(title)))
  }

  // ---------------------------------------------------------------------------------------
  // Properties
  // ---------------------------------------------------------------------------------------

  /** The inline record is the service's `_extractAnimeInfo` record, and the inline keep test
      is the service's. */
  lemma LegacyRecordIsService(e: ListingEntry)
    ensures LegacyRecord(e) == ExtractAnimeInfo(e)
    ensures LegacyTitle(e) == EntryTitle(e)
  {
    assert CleanEpisodeInfo(Trim(e.episodeText)) == EpisodeRule(Trim(e.episodeText)) by {
      CleanEpisodeInfoIsEpisodeRule(Trim(e.episodeText));
    }
    assert CleanStudio(Trim(e.studioText)) == StudioRule(Trim(e.studioText)) by {
      CleanStudioShape(Trim(e.studioText));
    }
  }

  /** One readable entry contributes what the inline keep test and record give. */
  lemma LegacyKeep(nodes: seq<EntryNode>, i: nat, list: seq<ListingRecord>)
    requires i < |nodes| && nodes[i].Readable? && list == Parsed(nodes[..i])
    ensures LegacyTitle(nodes[i].entry) != [] ==> Parsed(nodes[..i + 1]) == list + [LegacyRecord(nodes[i].entry)]
    ensures LegacyTitle(nodes[i].entry) == [] ==> Parsed(nodes[..i + 1]) == list
  {
    ConcatMapStep(nodes, i, Keep);
    LegacyRecordIsService(nodes[i].entry);
  }

  /** The first entry that throws is the one the loop stops at. */
  lemma {:induction false} FirstUnreadableAt(nodes: seq<EntryNode>, i: nat)
    requires i < |nodes| && nodes[i].Unreadable?
    requires forall j :: 0 <= j < i ==> nodes[j].Readable?
    ensures FirstUnreadable(nodes) == Some(i)
  {
    if i > 0 {
      assert nodes[0].Readable?;
      FirstUnreadableAt(nodes[1..], i - 1);
    }
  }

  /** With no entry that throws, there is no first one. */
  lemma {:induction false} AllReadable(nodes: seq<EntryNode>)
    requires forall j :: 0 <= j < |nodes| ==> nodes[j].Readable?
    ensures FirstUnreadable(nodes).None?
  {
    if nodes != [] {
      AllReadable(nodes[1..]);
    }
  }

  /** One step of the entry loop: a readable entry extends the throw-free prefix, and an
      entry that throws after a throw-free prefix is the first one. */
  lemma FirstUnreadableStep(nodes: seq<EntryNode>, i: nat)
    requires i < |nodes| && FirstUnreadable(nodes[..i]).None?
    ensures nodes[i].Readable? ==> FirstUnreadable(nodes[..i + 1]).None?
    ensures nodes[i].Unreadable? ==> FirstUnreadable(nodes) == Some(i)
  {
    assert forall j :: 0 <= j < i ==> nodes[..i][j] == nodes[j];
    if nodes[i].Readable? {
      assert forall j :: 0 <= j < i + 1 ==> nodes[..i + 1][j] == nodes[j];
      AllReadable(nodes[..i + 1]);
    } else {
      FirstUnreadableAt(nodes, i);
    }
  }

  /** Where no entry throws, the legacy scrape and the service's parse give the same list;
      where one does, the legacy scrape fails while the service skips that entry. */
  lemma LegacyAgreesWithService(nodes: seq<EntryNode>)
    ensures FirstUnreadable(nodes).None? ==> LegacyOutcome(nodes) == Ok(Parsed(nodes))
    ensures FirstUnreadable(nodes).Some? ==> (LegacyOutcome(nodes).Err? && |Parsed(nodes)| < |nodes|)
  {
    if FirstUnreadable(nodes).Some? {
      var i := FirstUnreadable(nodes).value;
      assert nodes == nodes[..i] + [nodes[i]] + nodes[i + 1..];
      SkipShortens(nodes[..i], nodes[i], nodes[i + 1..]);
    }
  }

  /** An entry that throws yields no record in the service's parse. */
  lemma SkipShortens(a: seq<EntryNode>, n: EntryNode, b: seq<EntryNode>)
    requires n.Unreadable?
    ensures |Parsed(a + [n] + b)| < |a + [n] + b|
  {
    var x := a + [n];
    assert Parsed(x + b) == Parsed(x) + Parsed(b) by {
      ConcatMapAppend(x, b, Keep);
    }
    assert Parsed(x) == Parsed(a) by {
      ConcatMapAppend(a, [n], Keep);
      SkippedEntry(n);
    }
    assert |Parsed(a)| <= |a| && |Parsed(b)| <= |b| by {
      ParsedAppend(a, b);
      ParsedAppend(b, []);
    }
  }

  /** The service's parse takes nothing from an entry that throws. */
  lemma SkippedEntry(n: EntryNode)
    requires n.Unreadable?
    ensures Parsed([n]) == []
  {
    ConcatMapStep([n], 0, Keep);
    assert [n][..0] == [] && [n][..1] == [n];
  }

  /** The cache is served for less than one TTL after the stored time, and not at the TTL;
      a request at the epoch (time 0) stores a falsy time, which is never served. */
  lemma FreshnessWindow(data: seq<ListingRecord>, t: int, now: int)
    ensures Serves(Some(data), Some(t), now) <==> t != 0 && now - t < LegacyTtl
    ensures !Serves(Some(data), Some(t), t + LegacyTtl)
    ensures !Serves(Some(data), Some(0), now)
  {
  }

  /** A record is a search hit exactly when it is in the data and its lower-cased title
      contains the lower-cased query; the empty query matches every record. */
  lemma SearchMembers(list: seq<ListingRecord>, title: string, r: ListingRecord)
    ensures r in SearchIn(list, title) <==> r in list && Contains(ToLower(r.title), ToLower(title))
    ensures title == [] ==> SearchIn(list, title) == list
  {
    var p := AnimeController.TitleMatches(ToLower(title));
    if r in SearchIn(list, title) {
      FilterFrom(list, p, r);
    }
    if r in list && Contains(ToLower(r.title), ToLower(title)) {
      FilterHas(list, p, r);
    }
    if title == [] {
      assert ToLower(title) == [];
      assert forall i :: 0 <= i < |list| ==> p(list[i]) by {
        forall i | 0 <= i < |list|
          ensures p(list[i])
        {
          assert OccursAt(ToLower(list[i].title), [], 0);
        }
      }
      FilterAll(list, p);
    }
  }
}
