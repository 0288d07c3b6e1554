/** The movie detail parser: fallback chains over alternative selectors, each ending in a
    default text, the studio and tag lists with their fallbacks, and the page fetch. */
module MovieDetailService {
  import opened Wrappers
  import opened Text
  import opened Records
  import opened Dom
  import opened Http
  import opened Collections
  import opened DataFormatter
  import opened ScrapeService
  import opened AnimeDetailService

  const MovieFailurePrefix := "Failed to scrape movie detail: "
  const TagLengthLimit := 50

  /** `/(\d+)\s*ratings?/i` matches at `p`; the optional 's' ends the pattern, so "rating"
      in any case after the digits and whitespace is what it needs. */
  predicate RatingCountAt(s: string, p: nat) {
    p < |s| && IsDigit(s[p]) && WordAt(s, SpaceRunEnd(s, DigitRunEnd(s, p)), "rating")
  }

  /** The capture of the leftmost match: its digit run. */
  function RatingCountIn(text: string): (r: Option<string>)
    ensures r.Some? ==> |r.value| > 0 && AllDigits(r.value)
  {
    match FirstAt(text, 0, RatingCountAt)
    case None => None
    case Some(p) => Some(RunAt(text, p))
  }

  /** `ratingsCount`: from the trimmed count text, else from the untrimmed `ratings` text. */
  function MovieRatingsCount(dom: MovieDom): Option<string> {
    var first := RatingCountIn(Trim(dom.ratingsCountText));
    if first.Some? then first else RatingCountIn(dom.ratingsClassText)
  }

  /** `$('div:contains(l)').next().text().trim() || $('dt:contains(l)').next().text().trim()`. */
  function NextValue(n: NextText): string {
    OrElse(Trim(n.afterDiv), Trim(n.afterDt))
  }

  function MovieTitle(dom: MovieDom): string {
    OrElse(Trim(dom.h1Text), Trim(dom.titleClassText))
  }

  function MovieStatus(dom: MovieDom): string {
    OrElse(OrElse(OrElse(Trim(dom.statusPrimary), Trim(dom.statusSecondary)), Trim(dom.statusClass)), "Unknown")
  }

  function MovieSynopsis(dom: MovieDom): string {
    OrElse(OrElse(OrElse(Trim(dom.synopsisPrimary), Trim(dom.synopsisClass)), Trim(dom.firstParagraph)), NoSynopsis)
  }

  /** The studio list: the distinct non-blank studio-target texts, or, when there are none,
      those of the fallback list. */
  function MovieStudios(dom: MovieDom): seq<string> {
    var primary := AppendNew([], TrimAll(dom.studioPrimary), NonBlank);
    if primary != [] then primary else AppendNew([], TrimAll(dom.studioFallback), NonBlank)
  }

  /** A tag text the loops push: not blank and shorter than 50 characters. */
  predicate TagFits(t: string) { 0 < |t| < TagLengthLimit }

  /** The pushed tags, duplicates kept: the tag-target texts, or, when none fits, the
      fallback texts. */
  function PushedTags(dom: MovieDom): seq<string> {
    var primary := Filter(TrimAll(dom.tagPrimary), TagFits);
    if primary != [] then primary else Filter(TrimAll(dom.tagFallback), TagFits)
  }

  function MovieLinks(id: string, hrefs: seq<string>): Links {
    Links(DetailUrl(id),
          FirstContaining(hrefs, "myanimelist"),
          FirstContaining(hrefs, "anilist"),
          FirstContaining(hrefs, "kitsu"),
          FirstContaining(hrefs, "imdb"))
  }

  /** The record `_parseMovieDetail` builds from a page. */
  function MovieDetailOf(dom: MovieDom, id: string): MovieDetail {
    var title := MovieTitle(dom);
    var rating := OrElse(Trim(dom.ratingPrimary), Trim(dom.ratingFallback));
    MovieDetail(
      id := id,
      title := title,
      originalTitle := OrElse(NextValue(dom.originalTitle), title),
      poster := if Given(dom.posterPrimary).Some? then dom.posterPrimary else Given(dom.posterSecondary),
      rating := RatingOf(rating),
      ratingsCount := MovieRatingsCount(dom),
      status := MovieStatus(dom),
      format := OrElse(NextValue(dom.format), "Movie"),
      source := OrElse(NextValue(dom.source), "Unknown"),
      runTime := OrElse(NextValue(dom.runTime), "Unknown"),
      releaseDate := OrElse(NextValue(dom.release), "Unknown"),
      studios := MovieStudios(dom),
      tags := Dedup(PushedTags(dom)),
      synopsis := MovieSynopsis(dom),
      streaming := OrElse(NextValue(dom.streams), "Not available"),
      links := MovieLinks(id, dom.hrefs))
  }

  /** A tag loop: each trimmed text that fits is pushed. */
  method PushFitting(texts: seq<string>) returns (tags: seq<string>)
    ensures tags == Filter(TrimAll(texts), TagFits)
  {
    var xs := TrimAll(texts);
    tags := [];
    var i := 0;
    while i < |xs|
      invariant 0 <= i <= |xs|
      invariant tags == Filter(xs[..i], TagFits)
    {
      PrefixOfPrefix(xs, i);
      var tag := xs[i];
      if TagFits(tag) {
        tags := tags + [tag];
      }
      i := i + 1;
    }
    WholePrefix(xs);
  }

  /** The studio loop, and the fallback loop when it found nothing. */
  method CollectMovieStudios(dom: MovieDom) returns (studios: seq<string>)
    ensures studios == MovieStudios(dom)
  {
    studios := PushNew([], TrimAll(dom.studioPrimary), NonBlank);
    if |studios| == 0 {
      studios := PushNew(studios, TrimAll(dom.studioFallback), NonBlank);
    }
  }

  /** The tag loop, and the fallback loop when it found nothing. */
  method CollectMovieTags(dom: MovieDom) returns (tags: seq<string>)
    ensures tags == PushedTags(dom)
  {
    tags := PushFitting(dom.tagPrimary);
    if |tags| == 0 {
      tags := PushFitting(dom.tagFallback);
    }
  }

  /** `_parseMovieDetail`. */
  method ParseMovieDetail(dom: MovieDom, id: string) returns (d: MovieDetail)
    ensures d == MovieDetailOf(dom, id)
  {
    var studios := CollectMovieStudios(dom);
    var tags := CollectMovieTags(dom);
    var title := MovieTitle(dom);
    var rating := OrElse(Trim(dom.ratingPrimary), Trim(dom.ratingFallback));
    d := MovieDetail(
      id := id,
      title := title,
      originalTitle := OrElse(NextValue(dom.originalTitle), title),
      poster := if Given(dom.posterPrimary).Some? then dom.posterPrimary else Given(dom.posterSecondary),
      rating := RatingOf(rating),
      ratingsCount := MovieRatingsCount(dom),
      status := MovieStatus(dom),
      format := OrElse(NextValue(dom.format), "Movie"),
      source := OrElse(NextValue(dom.source), "Unknown"),
      runTime := OrElse(NextValue(dom.runTime), "Unknown"),
      releaseDate := OrElse(NextValue(dom.release), "Unknown"),
      studios := if |studios| > 0 then studios else [],
      tags := Dedup(tags),
      synopsis := MovieSynopsis(dom),
      streaming := OrElse(NextValue(dom.streams), "Not available"),
      links := MovieLinks(id, dom.hrefs));
  }

  // ---------------------------------------------------------------------------------------
  // Properties of the record
  // ---------------------------------------------------------------------------------------

  /** Every text field that ends its chain in a default is never blank. */
  lemma MovieDefaults(dom: MovieDom, id: string)
    ensures var d := MovieDetailOf(dom, id);
      d.status != [] && d.format != [] && d.source != [] && d.runTime != [] &&
      d.releaseDate != [] && d.synopsis != [] && d.streaming != [] &&
      (NextValue(dom.format) == [] ==> d.format == "Movie") &&
      (MovieStatus(dom) == "Unknown" <== Trim(dom.statusPrimary) == [] && Trim(dom.statusSecondary) == [] && Trim(dom.statusClass) == [])
  {
  }

  /** The original title falls back to the title, and the title to the `title`-class text. */
  lemma MovieTitles(dom: MovieDom, id: string)
    ensures var d := MovieDetailOf(dom, id);
      (Trim(dom.h1Text) != [] ==> d.title == Trim(dom.h1Text)) &&
      (Trim(dom.h1Text) == [] ==> d.title == Trim(dom.titleClassText)) &&
      (NextValue(dom.originalTitle) != [] ==> d.originalTitle == NextValue(dom.originalTitle)) &&
      (NextValue(dom.originalTitle) == [] ==> d.originalTitle == d.title)
  {
  }

  /** The studios are distinct and non-blank; the fallback list is read only when the
      primary one yields nothing. */
  lemma MovieStudiosShape(dom: MovieDom, id: string)
    ensures var d := MovieDetailOf(dom, id);
      var ps, fs := TrimAll(dom.studioPrimary), TrimAll(dom.studioFallback);
      NoDup(d.studios) &&
      (forall i :: 0 <= i < |d.studios| ==> d.studios[i] != []) &&
      ((exists x :: x in ps && x != []) ==> forall x :: x in d.studios <==> x in ps && x != []) &&
      ((forall x :: x in ps ==> x == []) ==> forall x :: x in d.studios <==> x in fs && x != [])
  {
    assert MovieDetailOf(dom, id).studios == MovieStudios(dom);
    StudioFallback(TrimAll(dom.studioPrimary), TrimAll(dom.studioFallback));
  }

  lemma StudioFallback(ps: seq<string>, fs: seq<string>)
    ensures var primary := AppendNew([], ps, NonBlank);
      var r := if primary != [] then primary else AppendNew([], fs, NonBlank);
      NoDup(r) &&
      (forall i :: 0 <= i < |r| ==> r[i] != []) &&
      ((exists x :: x in ps && x != []) ==> forall x :: x in r <==> x in ps && x != []) &&
      ((forall x :: x in ps ==> x == []) ==> forall x :: x in r <==> x in fs && x != [])
  {
    var primary := AppendNew([], ps, NonBlank);
    var r := if primary != [] then primary else AppendNew([], fs, NonBlank);
    if exists x :: x in ps && x != [] {
      var x :| x in ps && x != [];
      assert x in primary;
    }
    if primary != [] {
      assert primary[0] in primary;
    }
    forall i | 0 <= i < |r| ensures r[i] != [] {
      assert r[i] in r;
    }
  }

  /** The tags are distinct, each fits the length bound, and they come from the tag targets
      when any of those fits, else from the fallback texts. */
  lemma MovieTagsShape(dom: MovieDom, id: string)
    ensures var d := MovieDetailOf(dom, id);
      var ps, fs := Filter(TrimAll(dom.tagPrimary), TagFits), Filter(TrimAll(dom.tagFallback), TagFits);
      NoDup(d.tags) &&
      (forall i :: 0 <= i < |d.tags| ==> 0 < |d.tags[i]| < TagLengthLimit) &&
      (ps != [] ==> forall x :: x in d.tags <==> x in ps) &&
      (ps == [] ==> forall x :: x in d.tags <==> x in fs)
  {
    assert MovieDetailOf(dom, id).tags == Dedup(PushedTags(dom));
    TagFallback(Filter(TrimAll(dom.tagPrimary), TagFits), Filter(TrimAll(dom.tagFallback), TagFits));
  }

  lemma TagFallback(ps: seq<string>, fs: seq<string>)
    requires forall i :: 0 <= i < |ps| ==> TagFits(ps[i])
    requires forall i :: 0 <= i < |fs| ==> TagFits(fs[i])
    ensures var r := Dedup(if ps != [] then ps else fs);
      NoDup(r) &&
      (forall i :: 0 <= i < |r| ==> 0 < |r[i]| < TagLengthLimit) &&
      (ps != [] ==> forall x :: x in r <==> x in ps) &&
      (ps == [] ==> forall x :: x in r <==> x in fs)
  {
    var pushed := if ps != [] then ps else fs;
    var r := Dedup(pushed);
    forall i | 0 <= i < |r| ensures 0 < |r[i]| < TagLengthLimit {
      assert r[i] in r;
      var j := IndexOfMember(pushed, r[i]);
    }
  }

  /** A pushed text is a trimmed text of the list that fits. */
  lemma FittingTags(texts: seq<string>, x: string)
    ensures x in Filter(TrimAll(texts), TagFits) <==> x in TrimAll(texts) && TagFits(x)
  {
    if x in TrimAll(texts) && TagFits(x) {
      FilterHas(TrimAll(texts), TagFits, x);
    }
    if x in Filter(TrimAll(texts), TagFits) {
      FilterFrom(TrimAll(texts), TagFits, x);
    }
  }

  /** The ratings count comes from the count text when it has a match. */
  lemma MovieRatingsCountShape(dom: MovieDom)
    ensures MovieRatingsCount(dom).Some? ==> AllDigits(MovieRatingsCount(dom).value)
    ensures RatingCountIn(Trim(dom.ratingsCountText)).Some? ==>
      MovieRatingsCount(dom) == RatingCountIn(Trim(dom.ratingsCountText))
  {
  }

  // ---------------------------------------------------------------------------------------
  // The fetch
  // ---------------------------------------------------------------------------------------

  function MovieOutcome(respond: (nat, string) -> Result<Document>, n: nat, id: string): Result<MovieDetail> {
    match respond(n, DetailUrl(id))
    case Err(m) => Err(MovieFailurePrefix + m)
    case Ok(doc) => Ok(MovieDetailOf(doc.movie, id))
  }

  /** `scrapeMovieDetail`: the page of a movie is its `/anime/` page. */
  method ScrapeMovieDetail(site: Site, id: string) returns (r: Result<MovieDetail>)
    modifies site
    ensures site.requests == old(site.requests) + [DetailUrl(id)]
    ensures r == MovieOutcome(site.respond, |old(site.requests)|, id)
  {
    var page := site.Fetch(DetailUrl(id));
    match page
    case Err(m) =>
      r := Err(MovieFailurePrefix + m);
    case Ok(doc) =>
      var d := ParseMovieDetail(doc.movie, id);
      r := Ok(d);
  }
}
