/** The stand-alone scraper script: the same hard-coded listing page as the first server,
    a per-entry `try` that skips an entry that throws, and a richer record with genres and
    an air date. Its fall-backs are simpler than the service's: a bare "Unknown" status and
    the studio text as it stands. */
module ScraperScript {
  import opened Wrappers
  import opened Text
  import opened Dom
  import opened Http
  import opened Collections
  import opened DataFormatter
  import opened ScrapeService

  const ScriptUrl := "https://www.livechart.me/fall-2025/tv?ongoing=all"

  /** One record of the script's output. */
  datatype ScriptRecord = ScriptRecord(
    id: Option<string>,
    title: string,
    link: Option<string>,
    status: string,
    episodes: string,
    studio: string,
    score: string,
    genres: seq<string>,
    airDate: string,
    poster: Option<string>)

  // ---------------------------------------------------------------------------------------
  // Genres
  // ---------------------------------------------------------------------------------------

  /** What one genre element adds: its trimmed text, unless that is empty. */
  function GenreOf(text: string): (g: seq<string>)
    ensures |g| <= 1
  {
    var genre := Trim(text);
    if genre != [] then [genre] else []
  }

  /** The genres of an entry: the non-empty trimmed texts, in order, duplicates kept. */
  function Genres(texts: seq<string>): seq<string> {
    ConcatMap(texts, GenreOf)
  }

  /** The genre loop: each element's trimmed text is pushed when it is not empty. */
  method CollectGenres(texts: seq<string>) returns (genres: seq<string>)
    ensures genres == Genres(texts)
  {
    genres := [];
    var i := 0;
    while i < |texts|
      invariant 0 <= i <= |texts|
      invariant genres == Genres(texts[..i])
    {
      ConcatMapStep(texts, i, GenreOf);
      var genre := Trim(texts[i]);
      if genre != [] {
        genres := genres + [genre];
      }
      i := i + 1;
    }
    assert texts[..i] == texts;
  }

  // ---------------------------------------------------------------------------------------
  // Records
  // ---------------------------------------------------------------------------------------

  /** The trimmed heading, else the title attribute as it stands. */
  function ScriptTitle(e: ScriptEntry): string {
    OrElse(Trim(e.headingText), e.titleAttr.GetOr(""))
  }

  /** The record the loop body builds for one entry. */
  function ScriptRecordOf(e: ScriptEntry): ScriptRecord {
    ScriptRecord(
      Given(e.idAttr),
      ScriptTitle(e),
      AbsoluteLink(e.animeHref),
      OrElse(Trim(e.statusText), "Unknown"),
      OrElse(EpisodeRule(Trim(e.episodeText)), "N/A"),
      OrElse(Trim(e.studioText), "N/A"),
      OrElse(Trim(e.scoreText), "N/A"),
      Genres(e.genreTexts),
      OrElse(Trim(e.airDateText), "N/A"),
      Given(e.posterSrc))
  }

  /** What the loop contributes for one entry: nothing for an entry that throws (it is
      logged and skipped) or has no title, else its record. */
  function ScriptKeep(n: ScriptNode): (rs: seq<ScriptRecord>)
    ensures |rs| <= 1
  {
    if n.ScriptReadable? && ScriptTitle(n.entry) != [] then [ScriptRecordOf(n.entry)] else []
  }

  /** The records the script keeps, in document order. */
  function ScriptParsed(nodes: seq<ScriptNode>): seq<ScriptRecord> {
    ConcatMap(nodes, ScriptKeep)
  }

  /** The body of the `each` callback for a readable entry. */
  method ExtractScriptEntry(e: ScriptEntry) returns (rs: seq<ScriptRecord>)
    ensures rs == ScriptKeep(ScriptReadable(e))
  {
    var title := ScriptTitle(e);
    var genres := CollectGenres(e.genreTexts);
    if title != [] {
      rs := [ScriptRecord(
        Given(e.idAttr),
        title,
        AbsoluteLink(e.animeHref),
        OrElse(Trim(e.statusText), "Unknown"),
        OrElse(EpisodeRule(Trim(e.episodeText)), "N/A"),
        OrElse(Trim(e.studioText), "N/A"),
        OrElse(Trim(e.scoreText), "N/A"),
        genres,
        OrElse(Trim(e.airDateText), "N/A"),
        Given(e.posterSrc))];
    } else {
      rs := [];
    }
  }

  /** The entry loop: entries that throw are skipped. */
  method ParseScript(nodes: seq<ScriptNode>) returns (animeList: seq<ScriptRecord>)
    ensures animeList == ScriptParsed(nodes)
  {
    animeList := [];
    var i := 0;
    while i < |nodes|
      invariant 0 <= i <= |nodes|
      invariant animeList == ScriptParsed(nodes[..i])
    {
      ConcatMapStep(nodes, i, ScriptKeep);
      match nodes[i] {
        case ScriptUnreadable =>
        case ScriptReadable(e) =>
          var kept := ExtractScriptEntry(e);
          animeList := animeList + kept;
      }
      i := i + 1;
    }
    assert nodes[..i] == nodes;
  }

  /** The scrape on a site whose `n`-th answer is `respond(n, _)`: a failed request is
      rethrown, else the parsed entries. */
  function ScriptOutcome(respond: (nat, string) -> Result<Document>, n: nat): Result<seq<ScriptRecord>> {
    match respond(n, ScriptUrl)
    case Err(m) => Err(m)
    case Ok(doc) => Ok(ScriptParsed(doc.scriptEntries))
  }

  /** `scrapeAnimeData` of the script: one request, then the entry loop. */
  method ScrapeScript(site: Site) returns (r: Result<seq<ScriptRecord>>)
    modifies site
    ensures site.requests == old(site.requests) + [ScriptUrl]
    ensures r == ScriptOutcome(site.respond, |old(site.requests)|)
  {
    var response := site.Fetch(ScriptUrl);
    match response
    case Err(m) =>
      r := Err(m);
    case Ok(doc) =>
      var list := ParseScript(doc.scriptEntries);
      r := Ok(list);
  }

  // ---------------------------------------------------------------------------------------
  // Properties
  // ---------------------------------------------------------------------------------------

  /** Genre lists of consecutive element runs concatenate, with at most one genre per
      element. */
  lemma GenresAppend(a: seq<string>, b: seq<string>)
    ensures Genres(a + b) == Genres(a) + Genres(b)
    ensures |Genres(a)| <= |a|
  {
    ConcatMapAppend(a, b, GenreOf);
    ConcatMapShort(a, GenreOf);
  }

  /** Every kept genre is the non-empty trimmed text of some element, and is itself
      trimmed. */
  lemma GenresFrom(texts: seq<string>, g: string)
    requires g in Genres(texts)
    ensures g != [] && Trim(g) == g
    ensures exists i :: 0 <= i < |texts| && Trim(texts[i]) == g
  {
    ConcatMapFrom(texts, GenreOf, g);
    var i :| 0 <= i < |texts| && g in GenreOf(texts[i]);
    GenreOfShape(texts[i], g);
  }

  /** What one element adds is its trimmed text, non-empty and trimmed. */
  lemma GenreOfShape(t: string, g: string)
    requires g in GenreOf(t)
    ensures g == Trim(t) && g != [] && Trim(g) == g
  {
    TrimIdempotent(t);
  }

  /** Every non-empty trimmed element text is kept. */
  lemma GenresHas(texts: seq<string>, i: nat)
    requires i < |texts| && Trim(texts[i]) != []
    ensures Trim(texts[i]) in Genres(texts)
  {
    ConcatMapHas(texts, GenreOf, i, Trim(texts[i]));
  }

  /** Two elements with the same text give the genre twice: nothing is de-duplicated. */
  lemma GenresKeepDuplicates(t: string)
    requires Trim(t) != []
    ensures Genres([t, t]) == [Trim(t), Trim(t)]
  {
    GenresOne(t);
    GenresAppend([t], [t]);
    assert [t] + [t] == [t, t];
    assert GenreOf(t) == [Trim(t)];
  }

  /** One element gives what its own text gives. */
  lemma GenresOne(t: string)
    ensures Genres([t]) == GenreOf(t)
  {
    ConcatMapStep([t], 0, GenreOf);
    assert [t][..0] == [] && [t][..1] == [t];
  }

  /** The `|| 'N/A'` after the episode rule never fires: the rule always gives text. */
  lemma EpisodeFallbackUnused(s: string)
    ensures OrElse(EpisodeRule(s), "N/A") == EpisodeRule(s)
    ensures EpisodeRule(s) == "N/A" || (|EpisodeRule(s)| > 2 && EpisodeRule(s)[..2] == "EP" && AllDigits(EpisodeRule(s)[2..]))
  {
  }

  /** Status, studio, score and air date are never empty; an absent or empty id, poster or
      href is null. */
  lemma ScriptRecordShape(e: ScriptEntry)
    ensures var r := ScriptRecordOf(e);
      r.status != [] && r.studio != [] && r.score != [] && r.airDate != [] && r.episodes != [] &&
      (r.title != [] <==> Trim(e.headingText) != [] || Given(e.titleAttr).Some?) &&
      (r.id.None? <==> e.idAttr.None? || e.idAttr.value == []) &&
      (r.poster.None? <==> e.posterSrc.None? || e.posterSrc.value == []) &&
      (r.link.None? <==> e.animeHref.None? || e.animeHref.value == [])
  {
  }

  /** A record is in the output exactly when it is the record of a readable entry with a
      title. */
  lemma ScriptMembers(nodes: seq<ScriptNode>, r: ScriptRecord)
    ensures r in ScriptParsed(nodes) <==>
      exists i :: 0 <= i < |nodes| && nodes[i].ScriptReadable? && ScriptTitle(nodes[i].entry) != [] &&
                  r == ScriptRecordOf(nodes[i].entry)
  {
    if r in ScriptParsed(nodes) {
      ConcatMapFrom(nodes, ScriptKeep, r);
    }
    if exists i :: 0 <= i < |nodes| && nodes[i].ScriptReadable? && ScriptTitle(nodes[i].entry) != [] &&
                   r == ScriptRecordOf(nodes[i].entry) {
      var i :| 0 <= i < |nodes| && nodes[i].ScriptReadable? && ScriptTitle(nodes[i].entry) != [] &&
               r == ScriptRecordOf(nodes[i].entry);
      ConcatMapHas(nodes, ScriptKeep, i, r);
    }
  }

  /** An entry that throws takes nothing from its neighbours: the output is that of the
      entries before it followed by that of the entries after it. */
  lemma SkipUnreadable(a: seq<ScriptNode>, n: ScriptNode, b: seq<ScriptNode>)
    requires n.ScriptUnreadable?
    ensures ScriptParsed(a + [n] + b) == ScriptParsed(a) + ScriptParsed(b)
  {
    var x := a + [n];
    assert ScriptParsed(x + b) == ScriptParsed(x) + ScriptParsed(b) by {
      ConcatMapAppend(x, b, ScriptKeep);
    }
    assert ScriptParsed(x) == ScriptParsed(a) by {
      ConcatMapAppend(a, [n], ScriptKeep);
      ParsedOne(n);
    }
  }

  /** At most one record per entry. */
  lemma ScriptParsedShort(nodes: seq<ScriptNode>)
    ensures |ScriptParsed(nodes)| <= |nodes|
  {
    ConcatMapShort(nodes, ScriptKeep);
  }

  /** One entry gives what it contributes by itself. */
  lemma ParsedOne(n: ScriptNode)
    ensures ScriptParsed([n]) == ScriptKeep(n)
  {
    ConcatMapStep([n], 0, ScriptKeep);
    assert [n][..0] == [] && [n][..1] == [n];
  }
}
