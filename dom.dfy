/** The parsed page, as the extractors see it. Selector matching (`find`, `:contains`,
    `.first()`, `.next()`, `.closest()`, removal of child elements) belongs to the markup
    library; each view below holds the strings and attributes those selectors deliver. A text
    of an empty selection is "", a missing attribute is None. */
module Dom {
  import opened Wrappers

  /** What the listing extractor reads from one `article.anime` element. */
  datatype ListingEntry = ListingEntry(
    headingText: string,       // first `h3, [data-anime-card-list-target]`
    titleAttr: Option<string>, // `data-anime-title`
    idAttr: Option<string>,    // `data-anime-id`
    animeHref: Option<string>, // href of the first `a[href*="/anime/"]`
    statusText: string,        // first `[class*="status"], .badge`
    descendantText: string,    // every `span, div` inside, concatenated
    episodeText: string,       // `[class*="episode"], .eps`
    studioText: string,        // `[class*="studio"]`
    scoreText: string,         // `.score, [class*="rating"]`
    posterSrc: Option<string>) // src of the first `img`

  /** A listing element; Unreadable stands for one on which reading a field throws, with the
      message of what it throws. */
  datatype EntryNode = Readable(entry: ListingEntry) | Unreadable(reason: string)

  /** What the stand-alone scraper script reads from one `article.anime` element; its
      selectors differ from the service's, so its texts are its own. */
  datatype ScriptEntry = ScriptEntry(
    headingText: string,
    titleAttr: Option<string>,
    idAttr: Option<string>,
    animeHref: Option<string>,
    statusText: string,        // first `[class*="status"], .badge, span[class*="badge"]`
    episodeText: string,       // `[class*="episode"], .eps, span[class*="ep"]`
    studioText: string,        // first `[class*="studio"], .studio`
    scoreText: string,         // first `.score, [class*="rating"], span[class*="score"]`
    posterSrc: Option<string>,
    genreTexts: seq<string>,   // each `[class*="genre"], .genre`
    airDateText: string)       // `[class*="date"], .air-date`

  datatype ScriptNode = ScriptReadable(entry: ScriptEntry) | ScriptUnreadable

  /** A `div` of a detail page as the labelled-field lookup sees it: the text of its
      small-heading descendants, and its own text once its child elements are removed. */
  datatype FieldDiv = FieldDiv(heading: string, ownText: string)

  /** A `div.text-sm` of a detail page: the text of its `div.font-medium` and its whole text. */
  datatype TextBlock = TextBlock(head: string, text: string)

  /** The first `div.font-medium` whose text is a given label: the text of its parent, the
      chip texts of the parent's next `.flex.flex-wrap.gap-2` sibling, and the parent's own
      text nodes. */
  datatype LabelBlock = LabelBlock(parentText: string, chips: seq<string>, textNodes: seq<string>)

  /** What the anime detail parser reads from a detail page. */
  datatype AnimeDom = AnimeDom(
    desktopTitle: string,            // first `div.text-xl.font-medium span.text-base-content`
    mobileTitle: string,             // first `div.text-xl.font-medium.line-clamp-1`
    mediumTitle: string,             // first `div.text-xl.font-medium`
    h1Text: string,                  // first `h1`
    posterByAlt: Option<string>,     // src of `img[alt*="poster"]`
    posterBySrc: Option<string>,     // src of `img[src*="poster"]`
    ratingText: string,              // first `span.text-lg.font-medium`
    statusBlock: Option<LabelBlock>, // label "Status"
    textBlocks: seq<TextBlock>,      // every `div.text-sm`
    divs: seq<FieldDiv>,             // every `div`
    sourceBlock: Option<LabelBlock>, // label "Source"
    scheduleLinkText: string,        // first `a[href*="/schedules/"] span.font-medium`
    headerText: string,              // `[data-controller="anime-details-header"]`
    studioBlock: Option<LabelBlock>, // label "Studio" or "Studios"
    tagsBlock: Option<LabelBlock>,   // label "Tags"
    italicText: string,              // first `div.text-italic`
    synopsisText: string,            // `[data-anime-details-target="synopsis"]`
    hrefs: seq<string>)              // every anchor's href, in document order

  /** The `.next()` text after the `div:contains(label)` and `dt:contains(label)` matches. */
  datatype NextText = NextText(afterDiv: string, afterDt: string)

  /** What the movie detail parser reads from a detail page. */
  datatype MovieDom = MovieDom(
    h1Text: string,
    titleClassText: string,           // first `[class*="title"]`
    posterPrimary: Option<string>,    // first `img[alt*="poster"], img[class*="poster"]`
    posterSecondary: Option<string>,  // first `img[src*="poster"]`
    ratingPrimary: string,            // first `span.text-lg.font-medium`
    ratingFallback: string,           // first `[class*="rating"], .score`
    ratingsCountText: string,         // `div.text-sm.text-base-content/75`
    ratingsClassText: string,         // `[class*="ratings"]`
    statusPrimary: string,            // first `div.text-sm.font-medium`
    statusSecondary: string,          // first `div.text-sm.text-base-content`
    statusClass: string,              // first `[class*="status"]`
    originalTitle: NextText,
    format: NextText,
    source: NextText,
    runTime: NextText,
    release: NextText,
    streams: NextText,
    studioPrimary: seq<string>,       // `a, span` in the studio-target `div`
    studioFallback: seq<string>,      // `a, span` after `div:contains("Studios")`
    tagPrimary: seq<string>,          // tag-target `span`s
    tagFallback: seq<string>,         // `[class*="tag"], [class*="genre"], [class*="badge"]`
    synopsisPrimary: string,
    synopsisClass: string,            // first `[class*="synopsis"], [class*="description"]`
    firstParagraph: string,
    hrefs: seq<string>)

  /** One anime block of a schedule day. */
  datatype ScheduleItem = ScheduleItem(
    titleTarget: string,          // `[data-schedule-anime-target="title"]`
    anchorTitle: Option<string>,  // `title` attribute of the `/anime/` anchor
    emphasisText: string,         // first `.text-base-content, .font-medium`
    anchorText: string,           // text of the `/anime/` anchors
    timeTarget: string,           // `[data-timeslot-targets="time"]`
    smallText: string,            // first `span[class*="text-sm"]`
    href: Option<string>,         // href of the first `/anime/` anchor
    imgSrc: Option<string>,
    studioText: string,           // first `.text-xs, [class*="studio"]`
    statusText: string,           // first `[class*="badge"], [class*="status"]`
    episodeText: string)          // `[class*="episode"], .text-xs`

  /** The schedule page: for each day whose container was found, its anime blocks. */
  datatype ScheduleDom = ScheduleDom(days: map<string, seq<ScheduleItem>>)

  /** A fetched page, with the view of every parser that may read it. */
  datatype Document = Document(
    listing: seq<EntryNode>,
    scriptEntries: seq<ScriptNode>,
    anime: AnimeDom,
    movie: MovieDom,
    schedule: ScheduleDom)
}
