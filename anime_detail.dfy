/** The anime detail parser: the labelled-field lookup, the title fallbacks, the
    regular-expression extractors (rating, ratings count, episodes, the airing episode,
    premiere date, season), the studio and tag lists, synopsis and external links; and the
    page fetch around it. */
module AnimeDetailService {
  import opened Wrappers
  import opened Text
  import opened Records
  import opened Dom
  import opened Http
  import opened Collections
  import opened DataFormatter
  import opened ScrapeService

  const DetailFailurePrefix := "Failed to scrape anime detail: "
  const NoSynopsis := "No synopsis available"
  const OriginalTitleLabel := "Original title"
  const EnDash: char := '\U{2013}'

  function DetailUrl(id: string): string {
    LivechartBaseUrl + "/anime/" + id
  }

  // ---------------------------------------------------------------------------------------
  // getField
  // ---------------------------------------------------------------------------------------

  /** A div `getField` takes a value from: its heading is `key` and its own text is not
      blank. */
  predicate FieldMatches(d: FieldDiv, key: string) {
    Trim(d.heading) == key && Trim(d.ownText) != []
  }

  /** What `getField(key)` returns: the trimmed own text of the last matching div, or null. */
  function LastField(divs: seq<FieldDiv>, key: string): (r: Option<string>)
    ensures r.Some? ==> r.value != []
  {
    if divs == [] then None
    else if FieldMatches(divs[|divs| - 1], key) then Some(Trim(divs[|divs| - 1].ownText))
    else LastField(divs[..|divs| - 1], key)
  }

  /** The last matching div decides, whatever the earlier ones hold. */
  lemma {:induction false} LastFieldIsLast(divs: seq<FieldDiv>, key: string, i: nat)
    requires i < |divs| && FieldMatches(divs[i], key)
    requires forall j :: i < j < |divs| ==> !FieldMatches(divs[j], key)
    ensures LastField(divs, key) == Some(Trim(divs[i].ownText))
  {
    if i < |divs| - 1 {
      var init := divs[..|divs| - 1];
      assert LastField(divs, key) == LastField(init, key) by {
        assert !FieldMatches(divs[|divs| - 1], key);
      }
      assert FieldMatches(init[i], key) by {
        assert init[i] == divs[i];
      }
      assert forall j :: i < j < |init| ==> !FieldMatches(init[j], key) by {
        forall j | i < j < |init| ensures !FieldMatches(init[j], key) {
          assert init[j] == divs[j];
        }
      }
      LastFieldIsLast(init, key, i);
    }
  }

  /** Without a matching div the lookup gives null. */
  lemma {:induction false} LastFieldNone(divs: seq<FieldDiv>, key: string)
    requires forall j :: 0 <= j < |divs| ==> !FieldMatches(divs[j], key)
    ensures LastField(divs, key) == None
  {
    if divs != [] {
      var init := divs[..|divs| - 1];
      assert forall j :: 0 <= j < |init| ==> init[j] == divs[j];
      LastFieldNone(init, key);
    }
  }

  /** A matching div with a blank own text is passed over: a later blank value never
      replaces an earlier one. */
  lemma BlankFieldIgnored(divs: seq<FieldDiv>, key: string, d: FieldDiv)
    requires Trim(d.ownText) == []
    ensures LastField(divs + [d], key) == LastField(divs, key)
  {
    assert (divs + [d])[..|divs|] == divs;
  }

  /** `getField`: the loop over every div, keeping the last non-blank value. */
  method GetField(divs: seq<FieldDiv>, key: string) returns (value: Option<string>)
    ensures value == LastField(divs, key)
  {
    value := None;
    var i := 0;
    while i < |divs|
      invariant 0 <= i <= |divs|
      invariant value == LastField(divs[..i], key)
    {
      PrefixOfPrefix(divs, i);
      var heading := Trim(divs[i].heading);
      if heading == key {
        var raw := Trim(divs[i].ownText);
        if raw != [] {
          value := Some(raw);
        }
      }
      i := i + 1;
    }
    WholePrefix(divs);
  }

  // ---------------------------------------------------------------------------------------
  // Original title: the last `div.text-sm` headed "Original title" wins, even a blank one.
  // ---------------------------------------------------------------------------------------

  function OriginalTitleIn(blocks: seq<TextBlock>): Option<string> {
    if blocks == [] then None
    else
      var b := blocks[|blocks| - 1];
      if Trim(b.head) == OriginalTitleLabel then Some(Trim(RemoveFirst(b.text, OriginalTitleLabel)))
      else OriginalTitleIn(blocks[..|blocks| - 1])
  }

  /** The last block headed "Original title" decides, even when its value is blank. */
  lemma {:induction false} OriginalTitleLastWins(blocks: seq<TextBlock>, i: nat)
    requires i < |blocks| && Trim(blocks[i].head) == OriginalTitleLabel
    requires forall j :: i < j < |blocks| ==> Trim(blocks[j].head) != OriginalTitleLabel
    ensures OriginalTitleIn(blocks) == Some(Trim(RemoveFirst(blocks[i].text, OriginalTitleLabel)))
  {
    if i < |blocks| - 1 {
      var init := blocks[..|blocks| - 1];
      assert forall j :: i < j < |init| ==> init[j] == blocks[j];
      OriginalTitleLastWins(init, i);
    }
  }

  method FindOriginalTitle(blocks: seq<TextBlock>) returns (originalTitle: Option<string>)
    ensures originalTitle == OriginalTitleIn(blocks)
  {
    originalTitle := None;
    var i := 0;
    while i < |blocks|
      invariant 0 <= i <= |blocks|
      invariant originalTitle == OriginalTitleIn(blocks[..i])
    {
      PrefixOfPrefix(blocks, i);
      var head := Trim(blocks[i].head);
      if head == OriginalTitleLabel {
        originalTitle := Some(Trim(RemoveFirst(blocks[i].text, OriginalTitleLabel)));
      }
      i := i + 1;
    }
    WholePrefix(blocks);
  }

  // ---------------------------------------------------------------------------------------
  // Regular-expression extractors
  // ---------------------------------------------------------------------------------------

  /** The capture of `/(\d+\.?\d*)/` that starts at the digit `i`, as whole and fraction
      digits: the digit run, and when a '.' follows it, the digit run after the '.'. */
  function NumberAt(s: string, i: nat): (r: (string, string))
    requires i < |s| && IsDigit(s[i])
    ensures |r.0| > 0 && AllDigits(r.0) && AllDigits(r.1)
  {
    var e := DigitRunEnd(s, i);
    if e < |s| && s[e] == '.' then (s[i..e], s[e + 1..DigitRunEnd(s, e + 1)]) else (s[i..e], "")
  }

  /** `parseFloat` of the first match of `/(\d+\.?\d*)/`: the decimal value of the number
      that starts at the first digit; null when the text has no digit. */
  function RatingOf(text: string): Option<real> {
    match FirstDigitFrom(text, 0)
    case None => None
    case Some(i) =>
      var (whole, fraction) := NumberAt(text, i);
      Some(DecimalValue(whole, fraction))
  }

  /** `word` in any ASCII letter case at `q`, as a case-insensitive pattern matches it. */
  predicate WordAt(s: string, q: nat, word: string) {
    q + |word| <= |s| && ToLower(s[q..q + |word|]) == word
  }

  /** `/(\d+)\s*ratings/i` matches at `p`. The greedy digit run ends where the run that holds
      `p` ends, and a shorter run would leave a digit where the whitespace or letter must be,
      so the match exists exactly when this holds. */
  predicate RatingsCountAt(s: string, p: nat) {
    p < |s| && IsDigit(s[p]) && WordAt(s, SpaceRunEnd(s, DigitRunEnd(s, p)), "ratings")
  }

  /** The capture: the digit run of the leftmost match. */
  function RatingsCountOf(text: string): (r: Option<string>)
    ensures r.Some? ==> |r.value| > 0 && AllDigits(r.value)
  {
    match FirstAt(text, 0, RatingsCountAt)
    case None => None
    case Some(p) => Some(RunAt(text, p))
  }

  /** `/\/\s*(\d+|–)/` matches at `p`: a slash, optional whitespace, then a digit or an en
      dash. */
  predicate SlashAt(s: string, p: nat) {
    p < |s| && s[p] == '/' &&
    var q := SpaceRunEnd(s, p + 1);
    q < |s| && (IsDigit(s[q]) || s[q] == EnDash)
  }

  /** `totalEpisodes`: from the "Episodes" field, the number after the first qualifying
      slash; null when there is no field, no match, or the match is the en dash. */
  function TotalEpisodesOf(raw: Option<string>): Option<nat> {
    match raw
    case None => None
    case Some(t) =>
      match FirstAt(t, 0, SlashAt)
      case None => None
      case Some(p) =>
        var q := SpaceRunEnd(t, p + 1);
        if IsDigit(t[q]) then Some(DigitsValue(RunAt(t, q))) else None
  }

  /** `/EP(\d+)/i` matches at `q`. */
  predicate EpNumberAt(s: string, q: nat) {
    EpAt(s, q) && q + 2 < |s| && IsDigit(s[q + 2])
  }

  /** `currentEpisode`: `parseInt` of the digits after the first "EP" (any case) that has
      any; null without one. */
  function CurrentEpisodeOf(text: string): Option<nat> {
    match FirstAt(text, 0, EpNumberAt)
    case None => None
    case Some(q) => Some(DigitsValue(RunAt(text, q + 2)))
  }

  /** `/([A-Za-z]{3,9} \d{1,2}, \d{4})/` matches at `p`. The letter class is greedy and must
      be followed by a space, so the whole letter run from `p` must have 3 to 9 letters;
      likewise the day digits must be a whole run of 1 or 2 followed by ", "; then four
      digits. */
  predicate PremiereAt(s: string, p: nat) {
    p < |s| &&
    var e := LetterRunEnd(s, p);
    3 <= e - p <= 9 && e < |s| && s[e] == ' ' &&
    var d := DigitRunEnd(s, e + 1);
    1 <= d - (e + 1) <= 2 && d + 6 <= |s| && s[d] == ',' && s[d + 1] == ' ' && AllDigits(s[d + 2..d + 6])
  }

  /** Where a premiere match that starts at `p` ends. */
  function PremiereEnd(s: string, p: nat): (e: nat)
    requires PremiereAt(s, p)
    ensures p < e <= |s|
  {
    DigitRunEnd(s, LetterRunEnd(s, p) + 1) + 6
  }

  /** `/\(([^)]+)\)/` matches at `p`: an opening parenthesis whose first closing one is not
      right after it. */
  predicate SeasonAt(s: string, p: nat) {
    p < |s| && s[p] == '(' &&
    match IndexOfFrom(s, ")", p + 1)
    case None => false
    case Some(q) => q > p + 1
  }

  /** `premiere`: the leftmost date match of a non-empty header text. */
  function PremiereOf(header: string): (r: Option<string>)
  {
    if header == [] then None
    else match FirstAt(header, 0, PremiereAt)
      case None => None
      case Some(p) => Some(header[p..PremiereEnd(header, p)])
  }

  /** `season`: what the leftmost parenthesised group of a non-empty header text holds. */
  function SeasonOf(header: string): (r: Option<string>)
  {
    if header == [] then None
    else match FirstAt(header, 0, SeasonAt)
      case None => None
      case Some(p) =>
        var q := IndexOfFrom(header, ")", p + 1).value;
        Some(header[p + 1..q])
  }

  // ---------------------------------------------------------------------------------------
  // Studios and tags
  // ---------------------------------------------------------------------------------------

  /** `replace(/Studio[s]?/, "")`: the first "Studio" goes, with the 's' right after it if
      there is one. */
  function RemoveStudioWord(s: string): (r: string)
    ensures !Contains(s, "Studio") ==> r == s
  {
    match IndexOf(s, "Studio")
    case None => s
    case Some(i) =>
      var j := if i + 6 < |s| && s[i + 6] == 's' then i + 7 else i + 6;
      s[..i] + s[j..]
  }

  predicate NonBlank(t: string) { t != [] }

  /** A plain-text tag: not blank, not the key itself, shorter than 40 characters. */
  predicate PlainTag(t: string) { t != [] && t != "Tags" && |t| < 40 }

  /** The studio text of the block's parent, when it is not blank. */
  function StudioText(b: LabelBlock): seq<string> {
    var raw := Trim(RemoveStudioWord(b.parentText));
    if raw != [] then [raw] else []
  }

  function StudiosOf(block: Option<LabelBlock>): seq<string> {
    match block
    case None => []
    case Some(b) => AppendNew(StudioText(b), TrimAll(b.chips), NonBlank)
  }

  function TagsOf(block: Option<LabelBlock>): seq<string> {
    match block
    case None => []
    case Some(b) => AppendNew(AppendNew([], TrimAll(b.chips), NonBlank), TrimAll(b.textNodes), PlainTag)
  }

  // ---------------------------------------------------------------------------------------
  // The record
  // ---------------------------------------------------------------------------------------

  /** The four title candidates, in the order the fallbacks try them. */
  function TitleCandidates(dom: AnimeDom): seq<string> {
    [Trim(dom.desktopTitle), Trim(dom.mobileTitle), Trim(dom.mediumTitle), Trim(dom.h1Text)]
  }

  function TitleOf(dom: AnimeDom): Option<string> {
    FirstNonEmpty(TitleCandidates(dom))
  }

  /** `attr('src') || attr('src') || null`. */
  function PosterOf(dom: AnimeDom): Option<string> {
    if Given(dom.posterByAlt).Some? then dom.posterByAlt else Given(dom.posterBySrc)
  }

  /** The parent text of a key block with the key's first occurrence removed, trimmed. */
  function BlockValue(block: Option<LabelBlock>, key: string): Option<string> {
    match block
    case None => None
    case Some(b) => Some(Trim(RemoveFirst(b.parentText, key)))
  }

  /** `source`: the "Source" field, else the "Source" key block. */
  function SourceOf(dom: AnimeDom): Option<string> {
    var f := LastField(dom.divs, "Source");
    if f.Some? then f else BlockValue(dom.sourceBlock, "Source")
  }

  function SynopsisOf(dom: AnimeDom): string {
    OrElse(OrElse(Trim(dom.italicText), Trim(dom.synopsisText)), NoSynopsis)
  }

  function LinksOf(id: string, hrefs: seq<string>): Links {
    Links(DetailUrl(id),
          FirstContaining(hrefs, "myanimelist.net"),
          FirstContaining(hrefs, "anilist.co"),
          FirstContaining(hrefs, "kitsu.app"),
          FirstContaining(hrefs, "imdb.com"))
  }

  /** The record `_parseAnimeDetail` builds from a page. */
  function AnimeDetailOf(dom: AnimeDom, id: string): AnimeDetail {
    var title := TitleOf(dom);
    var original := OriginalTitleIn(dom.textBlocks);
    var rating := Trim(dom.ratingText);
    AnimeDetail(
      id := id,
      title := title,
      originalTitle := if Given(original).Some? then original else title,
      poster := PosterOf(dom),
      rating := RatingOf(rating),
      ratingsCount := RatingsCountOf(rating),
      status := BlockValue(dom.statusBlock, "Status"),
      format := LastField(dom.divs, "Format"),
      source := SourceOf(dom),
      totalEpisodes := TotalEpisodesOf(LastField(dom.divs, "Episodes")),
      currentEpisode := CurrentEpisodeOf(Trim(dom.scheduleLinkText)),
      runTime := LastField(dom.divs, "Run time"),
      season := SeasonOf(dom.headerText),
      premiere := PremiereOf(dom.headerText),
      studios := StudiosOf(dom.studioBlock),
      tags := TagsOf(dom.tagsBlock),
      synopsis := SynopsisOf(dom),
      streaming := LastField(dom.divs, "Streams"),
      links := LinksOf(id, dom.hrefs))
  }

  /** The title fallbacks: each one is tried while the title is still blank, and a blank
      title ends as null. */
  method ChooseTitle(dom: AnimeDom) returns (t: Option<string>)
    ensures t == TitleOf(dom)
  {
    var title := Trim(dom.desktopTitle);
    if title == [] {
      title := Trim(dom.mobileTitle);
    }
    if title == [] {
      title := Trim(dom.mediumTitle);
    }
    if title == [] {
      title := Trim(dom.h1Text);
    }
    t := if title == [] then None else Some(title);
    TitleCases(dom);
  }

  /** The title is the desktop title, else the mobile one, else the plain `font-medium`
      one, else the `h1`, each trimmed; null when all four are blank. */
  lemma TitleCases(dom: AnimeDom)
    ensures var a, b, c, d := Trim(dom.desktopTitle), Trim(dom.mobileTitle), Trim(dom.mediumTitle), Trim(dom.h1Text);
      TitleOf(dom) ==
        if a != [] then Some(a) else if b != [] then Some(b) else if c != [] then Some(c)
        else if d != [] then Some(d) else None
  {
    FirstOfFour(Trim(dom.desktopTitle), Trim(dom.mobileTitle), Trim(dom.mediumTitle), Trim(dom.h1Text));
  }

  lemma FirstOfFour(a: string, b: string, c: string, d: string)
    ensures FirstNonEmpty([a, b, c, d]) ==
      if a != [] then Some(a) else if b != [] then Some(b) else if c != [] then Some(c)
      else if d != [] then Some(d) else None
  {
    var cs := [a, b, c, d];
    if a != [] {
      FirstNonEmptyIsFirst(cs, 0);
    } else if b != [] {
      FirstNonEmptyIsFirst(cs, 1);
    } else if c != [] {
      FirstNonEmptyIsFirst(cs, 2);
    } else if d != [] {
      FirstNonEmptyIsFirst(cs, 3);
    } else {
      FirstNonEmptyNone(cs);
    }
  }

  /** The studio text, then each chip not yet listed. */
  method CollectStudios(block: Option<LabelBlock>) returns (studios: seq<string>)
    ensures studios == StudiosOf(block)
  {
    studios := [];
    if block.Some? {
      var b := block.value;
      studios := PushNew(StudioText(b), TrimAll(b.chips), NonBlank);
    }
  }

  /** The chips, then the plain-text tags, each pushed when not yet listed. */
  method CollectTags(block: Option<LabelBlock>) returns (tags: seq<string>)
    ensures tags == TagsOf(block)
  {
    tags := [];
    if block.Some? {
      var b := block.value;
      tags := PushNew([], TrimAll(b.chips), NonBlank);
      tags := PushNew(tags, TrimAll(b.textNodes), PlainTag);
    }
  }

  /** `source`: the field, else the label block. */
  method FindSource(dom: AnimeDom) returns (source: Option<string>)
    ensures source == SourceOf(dom)
  {
    source := GetField(dom.divs, "Source");
    if source.None? {
      source := BlockValue(dom.sourceBlock, "Source");
    }
  }

  /** `_parseAnimeDetail`. */
  method ParseAnimeDetail(dom: AnimeDom, id: string) returns (d: AnimeDetail)
    ensures d == AnimeDetailOf(dom, id)
  {
    var title := ChooseTitle(dom);
    var originalTitle := FindOriginalTitle(dom.textBlocks);
    var format := GetField(dom.divs, "Format");
    var source := FindSource(dom);
    var runTime := GetField(dom.divs, "Run time");
    var epRaw := GetField(dom.divs, "Episodes");
    var studios := CollectStudios(dom.studioBlock);
    var tags := CollectTags(dom.tagsBlock);
    var streaming := GetField(dom.divs, "Streams");
    var ratingText := Trim(dom.ratingText);
    d := AnimeDetail(
      id := id,
      title := title,
      originalTitle := if Given(originalTitle).Some? then originalTitle else title,
      poster := PosterOf(dom),
      rating := RatingOf(ratingText),
      ratingsCount := RatingsCountOf(ratingText),
      status := BlockValue(dom.statusBlock, "Status"),
      format := format,
      source := source,
      totalEpisodes := TotalEpisodesOf(epRaw),
      currentEpisode := CurrentEpisodeOf(Trim(dom.scheduleLinkText)),
      runTime := runTime,
      season := SeasonOf(dom.headerText),
      premiere := PremiereOf(dom.headerText),
      studios := studios,
      tags := tags,
      synopsis := SynopsisOf(dom),
      streaming := streaming,
      links := LinksOf(id, dom.hrefs));
  }

  // ---------------------------------------------------------------------------------------
  // Properties of the record
  // ---------------------------------------------------------------------------------------

  /** The original title falls back to the title: it is never blank, and it is null only
      when the title is. */
  lemma OriginalTitleFallback(dom: AnimeDom, id: string)
    ensures var d := AnimeDetailOf(dom, id);
      (d.originalTitle.Some? ==> d.originalTitle.value != []) &&
      (d.originalTitle.None? <==> d.title.None? && Given(OriginalTitleIn(dom.textBlocks)).None?) &&
      (Given(OriginalTitleIn(dom.textBlocks)).None? ==> d.originalTitle == d.title)
  {
    var d := AnimeDetailOf(dom, id);
    var o, t := OriginalTitleIn(dom.textBlocks), TitleOf(dom);
    assert d.title == t;
    assert d.originalTitle == if Given(o).Some? then o else t;
    OrTitle(o, t);
  }

  lemma OrTitle(o: Option<string>, t: Option<string>)
    requires t.Some? ==> t.value != []
    ensures var r := if Given(o).Some? then o else t;
      (r.Some? ==> r.value != []) && (r.None? <==> t.None? && Given(o).None?)
  {
  }

  /** The studios are distinct, non-blank and trimmed; they are the block's own text (first,
      when it is not blank) and its chips; no block, no studios. */
  lemma StudiosShape(dom: AnimeDom, id: string)
    ensures var d := AnimeDetailOf(dom, id);
      NoDup(d.studios) &&
      (forall i :: 0 <= i < |d.studios| ==> d.studios[i] != [] && Trim(d.studios[i]) == d.studios[i]) &&
      (dom.studioBlock.None? ==> d.studios == []) &&
      (dom.studioBlock.Some? ==>
        var b := dom.studioBlock.value;
        (forall x :: x in d.studios <==> x in StudioText(b) || (x in TrimAll(b.chips) && x != [])) &&
        d.studios[..|StudioText(b)|] == StudioText(b))
  {
    var d := AnimeDetailOf(dom, id);
    if dom.studioBlock.Some? {
      var b := dom.studioBlock.value;
      forall i | 0 <= i < |d.studios| ensures d.studios[i] != [] && Trim(d.studios[i]) == d.studios[i] {
        var x := d.studios[i];
        assert x in d.studios;
        if x in StudioText(b) {
          TrimIdempotent(RemoveStudioWord(b.parentText));
        } else {
          var j := IndexOfMember(TrimAll(b.chips), x);
          TrimIdempotent(b.chips[j]);
        }
      }
    }
  }

  /** The tags are distinct; the chips come first, then the plain-text tags, each of which
      is neither the label nor 40 characters long. */
  lemma TagsShape(dom: AnimeDom, id: string)
    ensures var d := AnimeDetailOf(dom, id);
      NoDup(d.tags) &&
      (dom.tagsBlock.None? ==> d.tags == []) &&
      (dom.tagsBlock.Some? ==>
        var b := dom.tagsBlock.value;
        var chips := AppendNew([], TrimAll(b.chips), NonBlank);
        d.tags[..|chips|] == chips &&
        (forall x :: x in chips <==> x in TrimAll(b.chips) && x != []) &&
        (forall x :: x in d.tags <==> x in chips || (x in TrimAll(b.textNodes) && x != [] && x != "Tags" && |x| < 40)))
  {
  }

  /** The synopsis is never blank: the italic block, else the synopsis target, else the
      placeholder. */
  lemma SynopsisNeverBlank(dom: AnimeDom, id: string)
    ensures var d := AnimeDetailOf(dom, id);
      d.synopsis != [] &&
      (Trim(dom.italicText) != [] ==> d.synopsis == Trim(dom.italicText)) &&
      (Trim(dom.italicText) == [] && Trim(dom.synopsisText) == [] ==> d.synopsis == NoSynopsis)
  {
  }

  /** The Livechart link is built from the id; each other link is the first anchor that
      names its site, and is null only when no anchor does. */
  lemma LinksShape(dom: AnimeDom, id: string)
    ensures var l := AnimeDetailOf(dom, id).links;
      l.livechart == LivechartBaseUrl + "/anime/" + id &&
      (l.myanimelist.Some? ==> l.myanimelist.value in dom.hrefs && Contains(l.myanimelist.value, "myanimelist.net")) &&
      (l.myanimelist.None? <==> forall i :: 0 <= i < |dom.hrefs| ==> !Contains(dom.hrefs[i], "myanimelist.net")) &&
      (l.imdb.None? <==> forall i :: 0 <= i < |dom.hrefs| ==> !Contains(dom.hrefs[i], "imdb.com"))
  {
  }

  /** The season is what the first parentheses enclose: never blank and without a ')'. */
  lemma SeasonShape(header: string)
    ensures SeasonOf(header).Some? ==> SeasonOf(header).value != [] && ')' !in SeasonOf(header).value
  {
    if SeasonOf(header).Some? {
      var p := FirstAt(header, 0, SeasonAt).value;
      var q := IndexOfFrom(header, ")", p + 1).value;
      forall k | p + 1 <= k < q ensures header[k] != ')' {
        assert !OccursAt(header, ")", k);
        assert header[k..k + 1] == [header[k]];
      }
    }
  }

  /** A rating exists exactly when the text holds a digit, and is never negative. */
  lemma RatingShape(text: string)
    ensures RatingOf(text).Some? <==> exists k :: 0 <= k < |text| && IsDigit(text[k])
    ensures RatingOf(text).Some? ==> RatingOf(text).value >= 0.0
  {
  }

  /** The episode count is the number after the first slash, whatever whitespace stands
      between them ("12 / 24" gives 24). */
  lemma TotalAfterSlash(pre: string, sp: string, digits: string)
    requires '/' !in pre
    requires forall k :: 0 <= k < |sp| ==> IsWhitespace(sp[k])
    requires |digits| > 0 && AllDigits(digits)
    ensures TotalEpisodesOf(Some(pre + "/" + sp + digits)) == Some(DigitsValue(digits))
  {
    var a := pre + "/" + sp;
    var t := a + digits;
    var p, q := |pre|, |a|;
    assert IsDigit(t[q]) && RunAt(t, q) == digits by {
      RunOfSuffix(a, digits);
    }
    assert SpaceRunEnd(t, p + 1) == q by {
      var b := pre + "/";
      assert a == b + sp;
      forall k | p + 1 <= k < q ensures IsWhitespace(t[k]) {
        assert t[k] == a[k] == sp[k - |b|];
      }
      DigitNotSpace(t[q]);
    }
    assert FirstAt(t, 0, SlashAt) == Some(p) by {
      assert t[p] == '/';
      assert SlashAt(t, p);
      forall j | 0 <= j < p ensures !SlashAt(t, j) {
        assert t[j] == pre[j] && pre[j] in pre;
      }
      FirstAtIs(t, 0, SlashAt, p);
    }
  }

  /** An en dash after the first slash leaves the count unknown. */
  lemma UnknownAfterSlash(pre: string, sp: string, rest: string)
    requires '/' !in pre
    requires forall k :: 0 <= k < |sp| ==> IsWhitespace(sp[k])
    ensures TotalEpisodesOf(Some(pre + "/" + sp + [EnDash] + rest)) == None
  {
    var t := pre + "/" + sp + [EnDash] + rest;
    var p, q := |pre|, |pre| + 1 + |sp|;
    assert t[p] == '/';
    assert forall k :: p + 1 <= k < q ==> t[k] == sp[k - p - 1];
    assert t[q] == EnDash;
    assert SpaceRunEnd(t, p + 1) == q;
    assert SlashAt(t, p);
    assert forall j :: 0 <= j < p ==> t[j] == pre[j];
  }

  /** Without a slash there is no count. */
  lemma NoSlashNoCount(t: string)
    requires '/' !in t
    ensures TotalEpisodesOf(Some(t)) == None
  {
  }

  /** The airing episode is the number after "EP", in either letter case, when no 'e'
      comes before it. */
  lemma CurrentAfterEp(pre: string, ep: string, digits: string)
    requires 'e' !in pre && 'E' !in pre
    requires ep in {"EP", "ep", "Ep", "eP"}
    requires |digits| > 0 && AllDigits(digits)
    ensures CurrentEpisodeOf(pre + ep + digits) == Some(DigitsValue(digits))
  {
    assert |ep| == 2 && EpAt(ep, 0);
    CurrentAfterEpAt(pre, ep, digits);
  }

  /** The same, for any two characters that spell "ep" in some letter case. */
  lemma CurrentAfterEpAt(pre: string, ep: string, digits: string)
    requires 'e' !in pre && 'E' !in pre
    requires |ep| == 2 && EpAt(ep, 0)
    requires |digits| > 0 && AllDigits(digits)
    ensures CurrentEpisodeOf(pre + ep + digits) == Some(DigitsValue(digits))
  {
    var a := pre + ep;
    RunOfSuffix(a, digits);
    FirstEpAt(pre, ep, digits);
  }

  /** With no 'e' before it, the "ep" followed by a digit is the first match. */
  lemma FirstEpAt(pre: string, ep: string, digits: string)
    requires 'e' !in pre && 'E' !in pre
    requires |ep| == 2 && EpAt(ep, 0)
    requires |digits| > 0 && AllDigits(digits)
    ensures FirstAt(pre + ep + digits, 0, EpNumberAt) == Some(|pre|)
  {
    var t := pre + ep + digits;
    var q := |pre|;
    forall j | 0 <= j < q ensures !EpNumberAt(t, j) {
      assert t[j] == pre[j] && pre[j] in pre;
    }
    assert t[q] == ep[0] && t[q + 1] == ep[1] && t[q + 2] == digits[0];
    FirstAtIs(t, 0, EpNumberAt, q);
  }

  /** A header that opens with a date ("Oct 3, 2025": a month word of 3 to 9 letters, a day
      of 1 or 2 digits, a comma and a space, a four-digit year) gives it as the premiere. */
  lemma PremiereOfDate(month: string, day: string, year: string, rest: string)
    requires 3 <= |month| <= 9 && forall k :: 0 <= k < |month| ==> IsAsciiLetter(month[k])
    requires 1 <= |day| <= 2 && AllDigits(day)
    requires |year| == 4 && AllDigits(year)
    ensures PremiereOf(month + " " + day + ", " + year + rest) == Some(month + " " + day + ", " + year)
  {
    var date := month + " " + day + ", " + year;
    var s := date + rest;
    DateRuns(month, day, year, rest);
    assert PremiereAt(s, 0);
    assert s[0..|date|] == date;
  }

  /** The runs a date at the start of a header makes: the month letters end at the space,
      the day digits at the comma, and the year follows the comma and space. */
  lemma DateRuns(month: string, day: string, year: string, rest: string)
    requires forall k :: 0 <= k < |month| ==> IsAsciiLetter(month[k])
    requires AllDigits(day)
    ensures var s := month + " " + day + ", " + year + rest;
      var e := |month|;
      var d := e + 1 + |day|;
      d + 2 + |year| <= |s| && LetterRunEnd(s, 0) == e && s[e] == ' ' &&
      DigitRunEnd(s, e + 1) == d && s[d] == ',' && s[d + 1] == ' ' && s[d + 2..d + 2 + |year|] == year
  {
    var s := month + " " + day + ", " + year + rest;
    var e := |month|;
    var d := e + 1 + |day|;
    assert s[e] == ' ' && s[d] == ',' && s[d + 1] == ' ';
    assert LetterRunEnd(s, 0) == e by {
      forall k | 0 <= k < e ensures IsAsciiLetter(s[k]) {
        assert s[k] == month[k];
      }
    }
    assert DigitRunEnd(s, e + 1) == d by {
      forall k | e + 1 <= k < d ensures IsDigit(s[k]) {
        assert s[k] == day[k - e - 1];
      }
    }
    assert s[d + 2..d + 2 + |year|] == year;
  }

  // ---------------------------------------------------------------------------------------
  // The fetch
  // ---------------------------------------------------------------------------------------

  /** What `scrapeAnimeDetail(id)` returns when the site answers the `n`-th request with
      `respond`. */
  function DetailOutcome(respond: (nat, string) -> Result<Document>, n: nat, id: string): Result<AnimeDetail> {
    match respond(n, DetailUrl(id))
    case Err(m) => Err(DetailFailurePrefix + m)
    case Ok(doc) => Ok(AnimeDetailOf(doc.anime, id))
  }

  /** `scrapeAnimeDetail`: one request for the detail page, then the parse; a failed request
      is reported with the prefix. */
  method ScrapeAnimeDetail(site: Site, id: string) returns (r: Result<AnimeDetail>)
    modifies site
    ensures site.requests == old(site.requests) + [DetailUrl(id)]
    ensures r == DetailOutcome(site.respond, |old(site.requests)|, id)
  {
    var page := site.Fetch(DetailUrl(id));
    match page
    case Err(m) =>
      r := Err(DetailFailurePrefix + m);
    case Ok(doc) =>
      var d := ParseAnimeDetail(doc.anime, id);
      r := Ok(d);
  }
}
