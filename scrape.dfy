/** The season listing scraper: season and year defaulting, season validation, listing URLs,
    the per-entry record builder and the document-order entry loop. */
module ScrapeService {
  import opened Wrappers
  import opened Text
  import opened Records
  import opened Dom
  import opened Http
  import opened DataFormatter
  import opened Collections

  const Seasons: seq<string> := ["winter", "spring", "summer", "fall"]

  /** The listing pages, by their path segment. */
  datatype Kind = Tv | Movies | Ovas | All {
    function Segment(): string {
      match this
      case Tv => "tv"
      case Movies => "movies"
      case Ovas => "ovas"
      case All => "all"
    }

    /** The prefix of the error a failed scrape of this kind reports. */
    function FailurePrefix(): string {
      match this
      case Tv => "Scraping failed: "
      case Movies => "Movie scraping failed: "
      case Ovas => "OVA scraping failed: "
      case All => "All scraping failed: "
    }
  }

  /** The season of a zero-based month: months 0-2 winter, 3-5 spring, 6-8 summer, and
      9-11 fall, i.e. the quarter of the year the month falls in. */
  function DefaultSeason(month: nat): (s: string)
    requires month < 12
    ensures s == Seasons[month / 3]
  {
    if month < 3 then "winter"
    else if month < 6 then "spring"
    else if month < 9 then "summer"
    else "fall"
  }

  /** A present, non-empty query value; `""` counts as missing, as JavaScript's `!` has it. */
  function Given(v: Option<string>): Option<string> {
    if v.Some? && v.value != [] then v else None
  }

  /** The season and year a scrape uses: the ones given, else the season of `month` and the
      year the service was loaded in (`bootYear`). */
  function ResolveSeasonYear(season: Option<string>, year: Option<string>, month: nat, bootYear: int): (r: (string, string))
    requires month < 12
    ensures Given(season).Some? ==> r.0 == season.value
    ensures Given(season).None? ==> r.0 in Seasons
    ensures Given(year).Some? ==> r.1 == year.value
    ensures Given(year).None? ==> r.1 == IntToString(bootYear)
  {
    (if Given(season).Some? then season.value else DefaultSeason(month),
     if Given(year).Some? then year.value else IntToString(bootYear))
  }

  /** A season is accepted when its lower-case form is one of the four. */
  predicate ValidSeason(season: string) {
    ToLower(season) in Seasons
  }

  const InvalidSeasonMessage := "Invalid season. Must be one of: winter, spring, summer, fall"

  /** The listing page URL; the season goes in as given, not lower-cased. */
  function ListingUrl(season: string, year: string, kind: Kind): (u: string)
    ensures StartsWith(u, LivechartBaseUrl + "/" + season + "-" + year + "/")
  {
    var head := LivechartBaseUrl + "/" + season + "-" + year + "/";
    var u := head + kind.Segment() + "?ongoing=all";
    assert u[..|head|] == head;
    u
  }

  /** An href as the record stores it: absent or empty is None, an `http` URL is kept, and
      a site-relative path is prefixed with the base URL. */
  function AbsoluteLink(href: Option<string>): (r: Option<string>)
    ensures r.None? <==> href.None? || href.value == []
    ensures r.Some? && StartsWith(href.value, "http") ==> r.value == href.value
    ensures r.Some? && !StartsWith(href.value, "http") ==> r.value == LivechartBaseUrl + href.value
  {
    if href.None? || href.value == [] then None
    else if StartsWith(href.value, "http") then href
    else Some(LivechartBaseUrl + href.value)
  }

  /** `str || fallback` for a string. */
  function OrElse(s: string, fallback: string): (r: string)
    ensures s != [] ==> r == s
    ensures s == [] ==> r == fallback
  {
    if s != [] then s else fallback
  }

  /** The status of a listing entry: its trimmed status text, else a scan of the entry's
      text for "Ongoing", then "Upcoming", else "Unknown". */
  function EntryStatus(statusText: string, descendantText: string): (s: string)
    ensures s != []
    ensures Trim(statusText) != [] ==> s == Trim(statusText)
    ensures Trim(statusText) == [] ==>
              s == (if Contains(descendantText, "Ongoing") then "Ongoing"
                    else if Contains(descendantText, "Upcoming") then "Upcoming"
                    else "Unknown")
  {
    var st := Trim(statusText);
    if st != [] then st
    else if Contains(descendantText, "Ongoing") then "Ongoing"
    else if Contains(descendantText, "Upcoming") then "Upcoming"
    else "Unknown"
  }

  /** The title of a listing entry: the trimmed heading, else the `data-anime-title`
      attribute as it stands (a missing one reads as ""). */
  function EntryTitle(e: ListingEntry): (t: string)
    ensures t != [] <==> Trim(e.headingText) != [] || Given(e.titleAttr).Some?
  {
    OrElse(Trim(e.headingText), e.titleAttr.GetOr(""))
  }

  /** `_extractAnimeInfo`: the record built from one listing entry. */
  function ExtractAnimeInfo(e: ListingEntry): ListingRecord {
    ListingRecord(
      Given(e.idAttr),
      EntryTitle(e),
      AbsoluteLink(e.animeHref),
      EntryStatus(e.statusText, e.descendantText),
      CleanEpisodeInfo(Trim(e.episodeText)),
      CleanStudio(Trim(e.studioText)),
      OrElse(Trim(e.scoreText), "N/A"),
      Given(e.posterSrc))
  }

  /** The status and the score of a record are never empty, and its title is empty only
      when both the heading and the title attribute are. */
  lemma ExtractedNonEmpty(e: ListingEntry)
    ensures var r := ExtractAnimeInfo(e);
      r.status != [] && r.score != [] &&
      (r.title != [] <==> Trim(e.headingText) != [] || Given(e.titleAttr).Some?)
  {
  }

  /** Episodes are "N/A" or "EP" and digits; the studio is "N/A" or a clean single name. */
  lemma ExtractedNormalised(e: ListingEntry)
    ensures var r := ExtractAnimeInfo(e);
      (r.episodes == "N/A" || (|r.episodes| > 2 && r.episodes[..2] == "EP" && AllDigits(r.episodes[2..]))) &&
      (r.studio == "N/A" || CleanStudioName(r.studio))
  {
    CleanStudioShape(Trim(e.studioText));
  }

  /** An absent or empty id, poster or href becomes null. */
  lemma ExtractedNulls(e: ListingEntry)
    ensures var r := ExtractAnimeInfo(e);
      (r.id.None? <==> e.idAttr.None? || e.idAttr.value == []) &&
      (r.poster.None? <==> e.posterSrc.None? || e.posterSrc.value == []) &&
      (r.link.None? <==> e.animeHref.None? || e.animeHref.value == [])
  {
  }

  /** What the entry loop contributes for one entry: its record when the entry is readable
      and the record has a title, else nothing. */
  function Keep(n: EntryNode): (rs: seq<ListingRecord>)
    ensures |rs| <= 1
  {
    if n.Readable? && EntryTitle(n.entry) != [] then [ExtractAnimeInfo(n.entry)] else []
  }

  /** The records the entry loop keeps, in document order. */
  function Parsed(nodes: seq<EntryNode>): seq<ListingRecord> {
    ConcatMap(nodes, Keep)
  }

  /** Parsing distributes over concatenation, and yields at most one record per entry. */
  lemma ParsedAppend(a: seq<EntryNode>, b: seq<EntryNode>)
    ensures Parsed(a + b) == Parsed(a) + Parsed(b)
    ensures |Parsed(a)| <= |a|
  {
    ConcatMapAppend(a, b, Keep);
    ConcatMapShort(a, Keep);
  }

  /** A record is kept exactly when it is the record of a readable entry with a title, and
      every kept record passes `isValidAnime`. */
  lemma ParsedMembers(nodes: seq<EntryNode>, r: ListingRecord)
    ensures r in Parsed(nodes) <==>
      exists i :: 0 <= i < |nodes| && nodes[i].Readable? && EntryTitle(nodes[i].entry) != [] &&
                  r == ExtractAnimeInfo(nodes[i].entry)
    ensures r in Parsed(nodes) ==> IsValidAnime(Some(r))
  {
    if r in Parsed(nodes) {
      ConcatMapFrom(nodes, Keep, r);
    }
    if exists i :: 0 <= i < |nodes| && nodes[i].Readable? && EntryTitle(nodes[i].entry) != [] &&
                  r == ExtractAnimeInfo(nodes[i].entry) {
      var i :| 0 <= i < |nodes| && nodes[i].Readable? && EntryTitle(nodes[i].entry) != [] &&
               r == ExtractAnimeInfo(nodes[i].entry);
      ConcatMapHas(nodes, Keep, i, r);
    }
  }

  /** `_parseAnimeData`: the entry loop; an Unreadable entry is skipped and the loop goes on. */
  method ParseAnimeData(nodes: seq<EntryNode>) returns (list: seq<ListingRecord>)
    ensures list == Parsed(nodes)
  {
    list := [];
    var i := 0;
    while i < |nodes|
      invariant 0 <= i <= |nodes|
      invariant list == Parsed(nodes[..i])
    {
      ConcatMapStep(nodes, i, Keep);
      match nodes[i] {
        case Unreadable(_) =>
        case Readable(e) =>
          var anime := ExtractAnimeInfo(e);
          if anime.title != [] {
            list := list + [anime];
          }
          assert anime.title == EntryTitle(e);
      }
      i := i + 1;
    }
    assert nodes[..i] == nodes;
  }

  /** The requests a listing scrape makes: none when the season is rejected, else the page. */
  function ListingRequests(kind: Kind, season: Option<string>, year: Option<string>, month: nat, bootYear: int): seq<string>
    requires month < 12
  {
    var (s, y) := ResolveSeasonYear(season, year, month, bootYear);
    if ValidSeason(s) then [ListingUrl(s, y, kind)] else []
  }

  /** What a listing scrape returns when the site answers the `n`-th request with `respond`. */
  function ListingOutcome(respond: (nat, string) -> Result<Document>, n: nat, kind: Kind,
                          season: Option<string>, year: Option<string>, month: nat, bootYear: int): Result<seq<ListingRecord>>
    requires month < 12
  {
    var (s, y) := ResolveSeasonYear(season, year, month, bootYear);
    if !ValidSeason(s) then Err(kind.FailurePrefix() + InvalidSeasonMessage)
    else match respond(n, ListingUrl(s, y, kind))
      case Err(m) => Err(kind.FailurePrefix() + m)
      case Ok(doc) => Ok(Parsed(doc.listing))
  }

  /** `scrapeAllAnime`/`scrapeAllMovies`/`scrapeAllOVAs`/`scrapeAll`: default the season and
      year, reject an invalid season before any request, fetch the listing page and parse it. */
  method ScrapeListing(site: Site, kind: Kind, season: Option<string>, year: Option<string>, month: nat, bootYear: int)
    returns (r: Result<seq<ListingRecord>>)
    requires month < 12
    modifies site
    ensures var (s, y) := ResolveSeasonYear(season, year, month, bootYear);
      if !ValidSeason(s) then
        r == Err(kind.FailurePrefix() + InvalidSeasonMessage) && site.requests == old(site.requests)
      else
        site.requests == old(site.requests) + [ListingUrl(s, y, kind)] &&
        match site.respond(|old(site.requests)|, ListingUrl(s, y, kind))
        case Err(m) => r == Err(kind.FailurePrefix() + m)
        case Ok(doc) => r == Ok(Parsed(doc.listing))
    ensures r == ListingOutcome(site.respond, |old(site.requests)|, kind, season, year, month, bootYear)
    ensures site.requests == old(site.requests) + ListingRequests(kind, season, year, month, bootYear)
  {
    var (s, y) := ResolveSeasonYear(season, year, month, bootYear);
    if !ValidSeason(s) {
      return Err(kind.FailurePrefix() + InvalidSeasonMessage);
    }
    var page := site.Fetch(ListingUrl(s, y, kind));
    match page
    case Err(m) =>
      r := Err(kind.FailurePrefix() + m);
    case Ok(doc) =>
      var list := ParseAnimeData(doc.listing);
      r := Ok(list);
  }
}
