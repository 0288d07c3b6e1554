# LiveChart API, modelled in Dafny

LiveChart API is an Express service that scrapes livechart.me and serves the results as
JSON. It has four parts:

- a listing scraper for TV, movie, OVA and all-kinds season pages;
- a detail scraper for one title, one for anime pages and one for movie pages;
- a weekly schedule scraper;
- statistics over the listing: totals, averages, status breakdowns, and counts per genre,
  per studio and per season.

Every read goes through a multi-key cache. Entries are stamped when written and expire one
hour later, lazily, when they are read. The repository also holds an earlier single-file
server (`index.js`) with a one-slot cache, and a stand-alone scraper script
(`scraper.js`).

This project models each of these files as one Dafny module, except the anime and movie
detail controllers. Those two files differ only in their key prefix, their scraper and
their stats fields, so they share module `DetailController`, which takes the kind as a
`Section` parameter.

- **Scraped pages as values.** A page is a `Dom` value that holds exactly the texts and
  attributes the code's selectors read (module `Dom`).
- **The network as an oracle.** A `Site` object keeps a log of the URLs requested. The
  `n`-th request to `url` is answered by `respond(n, url)`, which is either a document or
  an error message (module `Http`).
- **The cache as a class.** `CacheService.Cache` holds its entries in a `map` and its keys
  in the insertion order of the JavaScript `Map`.
- **Handlers as methods.** Each controller handler is a method over the cache and the site.
  It is proved equal to a pure step function (`ReadThrough.ReadStep`, `BatchUpTo`,
  `SeasonsUpTo`). The properties the code promises are proved about those functions.
- **Loops as loops.** The code's loops (`each`, `forEach`, `for … of`) are `while` loops
  with invariants. Each is tied to a recursive function of its input.
- **Clock readings as parameters.** `now` is the reading for the cache lookup. `later` is
  the reading for the write and the reply stamp after a fetch. The month, the weekday and
  the year the service was loaded in are also passed in.

JavaScript behaviour is modelled where the code depends on it:

- `||` on empty strings, and `formatResponse` dropping keys it does not know;
- the regular expressions, as leftmost searches;
- `String.prototype.trim`, `split` and `replace(/\s+/g, …)` (module `Text`);
- `parseInt` and `parseFloat` on decimal text;
- a stable `Array.prototype.sort` (module `StableSort`), proved both as an insertion sort
  on values and as an in-place sort on an array;
- the enumeration order of object keys, where integer-like keys come first
  (module `JsObject`).

Three behaviours of the code are modelled as written:

- **The duplicate `getAll` key.** The object literal of `animeController` defines `getAll`
  twice, and the second one wins. So the exported `getAll` reads and writes the `all-`
  keys, and no listing handler reads the TV kind's own key cache-first. The TV listing is
  still read cache-first elsewhere: `search`, `getById` and `filterByStatus` fill the
  `default` key with it, and the stats handlers fill the `<season|current>-<year|current>`
  key with it.
- **The genre and studio tallies.** They are plain objects, so a genre named like an
  inherited property (`constructor`, `toString`, …) raises the TypeError of
  `.titles.push`.
- **"Sort by count".** The per-genre and per-studio results are collected into a fresh
  object, which enumerates integer-like keys first, so the emitted order is not
  count-descending whenever such a key (a year found in a title) is present
  (`Tally.CountOrderBroken`).

## Model

| member | source | states |
|---|---|---|
| CacheService.Lookup | src/services/cacheService.js:28-48 | a read returns data exactly when the key is stored and its age does not exceed one hour; the result holds the stored data, its stamp and an age of at most one hour |
| CacheService.Without | src/services/cacheService.js:69 | deleting a key removes that key alone and leaves every other entry as it was |
| CacheService.SetThenGet | src/services/cacheService.js:15-48 | a value stored at time t reads back unchanged at time t, with age 0 |
| CacheService.ExpiryBoundary | src/services/cacheService.js:36-42 | the expiry test is strict: an entry exactly one hour old is served, and one a millisecond older is not |
| CacheService.OtherKeysIndependent | src/services/cacheService.js:15-72 | writing or deleting one key never changes what any other key reads |
| CacheService.Cache.constructor | src/services/cacheService.js:8 | the cache starts with no entries |
| CacheService.Cache.Set | src/services/cacheService.js:15-21 | the key now maps to the data stamped with the given time; a new key goes last in the iteration order, and an existing key keeps its place |
| CacheService.Cache.Clear | src/services/cacheService.js:64-72 | with no key, the store is emptied; with a key, exactly that key is removed from the entries and from the order |
| CacheService.Cache.Get | src/services/cacheService.js:28-48 | returns the lookup result; an expired entry is deleted, and otherwise nothing changes |
| CacheService.Cache.IsValid | src/services/cacheService.js:56-58 | true exactly when the key is present and unexpired, with the same eviction as a read |
| CacheService.Cache.GetInfo | src/services/cacheService.js:78-97 | reports the number of keys, then one row per key in insertion order with its payload length, its age and whether that age is within the hour; expired entries are listed too; nothing is modified |
| Http.Site.Fetch | src/services/scrapeService.js:46-54 | a request appends its URL to the log and answers with the oracle's reply for that position in the log |
| DataFormatter.EpAhead | src/utils/dataFormatter.js:14 | the lazy `.*?(?:eps?\|episodes?)` tail matches exactly when an "ep", in any case, follows on the same line |
| DataFormatter.EpisodeMatchFrom | src/utils/dataFormatter.js:14-16 | finds the leftmost position where the episode pattern's digit group can start, and no earlier position qualifies |
| DataFormatter.FirstDigitFrom | src/utils/dataFormatter.js:20-21 | finds the first digit of the fallback pattern, with no digit before it |
| DataFormatter.EpisodeRule | src/utils/dataFormatter.js:13-21 | the result is "N/A" or "EP" followed by digits |
| DataFormatter.CleanEpisodeInfo | src/utils/dataFormatter.js:10-22 | missing text gives "N/A"; otherwise the result is "N/A" or "EP" followed by digits |
| DataFormatter.CleanEpisodeInfoIsEpisodeRule | src/utils/dataFormatter.js:11 | the empty-text guard changes nothing; the inline copies in the other scrapers, which lack it, compute the same result |
| DataFormatter.CleanEpisodeNone | src/utils/dataFormatter.js:10-22 | the result is "N/A" exactly when the text has no digit |
| DataFormatter.CleanEpisodeChoice | src/utils/dataFormatter.js:14-21 | the chosen digits are the earliest whole digit run followed by "ep" on its line, and otherwise the first digit run |
| DataFormatter.CleanEpisodeIdempotent | src/utils/dataFormatter.js:10-22 | cleaning an already cleaned value changes nothing |
| DataFormatter.EpisodeExampleCount | src/utils/dataFormatter.js:14-17 | "12 eps" becomes "EP12" |
| DataFormatter.FirstSegment | src/utils/dataFormatter.js:33 | the first piece of `split(/[,\n]/)` is a prefix without commas or newlines, ended by one of those or by the end of the text |
| DataFormatter.CleanStudio | src/utils/dataFormatter.js:29-36 | the empty text (what a missing studio becomes) gives "N/A" |
| DataFormatter.CollapseTidy | src/utils/dataFormatter.js:33 | after replacing each whitespace run with one space, the only whitespace left is single spaces |
| DataFormatter.CollapseOfTidy | src/utils/dataFormatter.js:33 | replacing whitespace runs changes nothing in text that already has only single spaces |
| DataFormatter.StudioRuleShape | src/utils/dataFormatter.js:33-35 | the studio rule gives "N/A" or a non-empty trimmed name without commas, newlines or doubled whitespace |
| DataFormatter.CleanStudioShape | src/utils/dataFormatter.js:29-36 | the empty-text guard changes nothing, so the inline copy in `index.js` agrees; the result is "N/A" or a clean name |
| DataFormatter.NotAvailableFixed | src/utils/dataFormatter.js:29-36 | "N/A" cleans to itself |
| DataFormatter.CleanNameFixed | src/utils/dataFormatter.js:29-36 | a clean name cleans to itself |
| DataFormatter.CleanStudioIdempotent | src/utils/dataFormatter.js:29-36 | cleaning twice is cleaning once |
| DataFormatter.StudioExampleBlank | src/utils/dataFormatter.js:30-35 | every text made only of whitespace, the empty text included, gives "N/A" |
| DataFormatter.FormatResponse | src/utils/dataFormatter.js:55-92 | `success` is copied; the timestamp is the given one, else the clock; error and message appear exactly when given and non-empty; `data`, `total` and `cached` appear exactly when given |
| DataFormatter.IsValidAnime | src/utils/dataFormatter.js:99-104 | true exactly for a present record whose title is non-empty |
| ScrapeService.DefaultSeason | src/services/scrapeService.js:27-33 | months 0-2, 3-5, 6-8 and 9-11 give winter, spring, summer and fall |
| ScrapeService.ResolveSeasonYear | src/services/scrapeService.js:23-36 | a given non-empty season or year is kept as it is; a missing season is one of the four season names, and a missing year is the load-time year |
| ScrapeService.ListingUrl | src/services/scrapeService.js:43 | the URL starts with the base, then `/season-year/`, with the season in its given case |
| ScrapeService.AbsoluteLink | src/services/scrapeService.js:332 | a missing or empty href gives null; an href starting with "http" is kept; any other href gets the base URL prepended |
| ScrapeService.OrElse | src/services/scrapeService.js:336 | `s \|\| fallback` on strings: the text if non-empty, else the fallback |
| ScrapeService.EntryStatus | src/services/scrapeService.js:316-322 | the trimmed status text if non-empty; else "Ongoing" or "Upcoming" if the descendant text contains it, in that order of preference; else "Unknown"; never empty |
| ScrapeService.EntryTitle | src/services/scrapeService.js:310-311 | the title is non-empty exactly when the heading is non-blank or the title attribute is non-empty |
| ScrapeService.ExtractedNonEmpty | src/services/scrapeService.js:309-338 | status and score are never empty; the title is empty only when both of its sources are |
| ScrapeService.ExtractedNormalised | src/services/scrapeService.js:334-335 | the episodes field is "N/A" or "EP" followed by digits, and the studio is "N/A" or a clean name |
| ScrapeService.ExtractedNulls | src/services/scrapeService.js:330-337 | id, poster and link are null exactly when their attribute is missing or empty |
| ScrapeService.Keep | src/services/scrapeService.js:77-86 | each entry contributes at most one record |
| ScrapeService.ParsedAppend | src/services/scrapeService.js:76-89 | parsing distributes over concatenated entry runs, with at most one record per entry |
| ScrapeService.ParsedMembers | src/services/scrapeService.js:76-89 | a record is in the result exactly when it is the record of an entry that did not throw and has a title; every kept record passes `isValidAnime` |
| ScrapeService.ParseAnimeData | src/services/scrapeService.js:72-90 | the loop returns the records of the titled entries in document order, skipping entries that throw |
| ScrapeService.ScrapeListing | src/services/scrapeService.js:20-64 | an invalid season fails with the kind's prefix before any request; otherwise one request to the kind's URL, whose failure is rethrown with the prefix and whose page is parsed (also covers lines 98-246) |
| AnimeSort.ChooseSorter | src/services/scrapeService.js:259-304 | `sortBy` selects the comparator in any letter case, with unknown values falling back to rating; only the exact "asc" sorts ascending, except in the fallback, where anything but "desc" does |
| AnimeSort.StatusRank | src/services/scrapeService.js:289-292 | a status naming a member inherited from `Object.prototype` ("constructor", "toString", "__proto__", …) has no numeric rank, since that member is truthy and subtracts to NaN; otherwise Upcoming ranks 1, Finished 2, and every other status 3, Ongoing included, because its rank 0 is falsy |
| AnimeSort.BeforeIsStrictWeakOrder | src/services/scrapeService.js:261-303 | the rating, title and episodes comparators are strict weak orders on all records; the airdate comparator is one on every list whose statuses all have a numeric rank |
| AnimeSort.InheritedStatusBreaksOrder | src/services/scrapeService.js:289-293 | a "constructor" status ties with both "Upcoming" and "Finished", which are ordered, so the airdate comparator is no strict weak order |
| AnimeSort.InheritedStatusTies | src/services/scrapeService.js:289-293 | a "constructor" record followed by an "Upcoming" one keeps that order under an ascending airdate sort |
| AnimeSort.SortAnimeStable | src/services/scrapeService.js:257-306 | for every record `x`, the records tied with `x` keep their input order, wherever the comparator is a strict weak order |
| AnimeSort.SortAnimeData | src/services/scrapeService.js:256-307 | returns the stable sort of a copy of the list by the chosen comparator |
| AnimeSort.SortedAnimeCorrect | src/services/scrapeService.js:257-306 | the result is a permutation of the list; it is sorted by the comparator unless an airdate sort meets a status with no numeric rank |
| AnimeSort.AirStatusAscending | src/services/scrapeService.js:286-294 | on a list whose statuses all have numeric ranks, sorting by airdate ascending leaves the ranks non-decreasing |
| AnimeSort.RankNotPreceded | src/services/scrapeService.js:290-293 | two ranked records not ordered by the comparator have ranks in the same order |
| AnimeSort.OngoingRanksWithUnknown | src/services/scrapeService.js:289-291 | Ongoing ranks with Unknown, after Upcoming and Finished |
| AnimeSort.OngoingAfterFinished | src/services/scrapeService.js:289-294 | an Ongoing record is sorted after a Finished one, against the comment's intent |
| AnimeSort.DefaultSorter | src/services/scrapeService.js:256 | the defaults sort by rating, descending |
| AnimeSort.RatingDescending | src/services/scrapeService.js:260-265 | sorting by rating descending leaves the parsed scores non-increasing |
| AnimeSort.RatingOfNotAvailable | src/services/scrapeService.js:262 | a score of "N/A" counts as 0 |
| AnimeSort.ParseIntOfLetter | src/services/scrapeService.js:280 | `parseInt` of text starting with a letter is NaN |
| AnimeSort.EpisodesKeyOfCleaned | src/services/scrapeService.js:280 | every cleaned episode value ("N/A" or "EP…") has episode key 0 |
| AnimeSort.EpisodesTie | src/services/scrapeService.js:279-283 | records with equal episode keys are never reordered |
| AnimeSort.EpisodesSortIsIdentity | src/services/scrapeService.js:278-284 | on scraped records the episode sort returns the list unchanged |
| AnimeSort.CleanedEpisodesShape | src/utils/dataFormatter.js:10-22 | a cleaned episode value is "N/A" or starts with "EP" |
| StableSort.SortPermutes | src/services/scrapeService.js:257-306 | the sort used everywhere keeps exactly the elements it was given |
| StableSort.SortSorted | src/services/scrapeService.js:257-306 | when the comparator is a strict weak order on the input's elements, the result is sorted |
| StableSort.SortStable | src/services/scrapeService.js:257-306 | the sort is stable: under a strict weak order, for every `x` the elements tied with `x` appear in the result in their input order |
| StableSort.SortKeepsTies | src/services/scrapeService.js:257-306 | a list whose elements are all tied comes back unchanged |
| StableSort.SortInPlace | src/services/scrapeService.js:261-299 | `sorted.sort(cmp)` in place leaves the array equal to the stable sort of its old contents |
| ReadThrough.FetchSource | src/controllers/animeController.js:36 | a scrape makes exactly the requests of its source and returns that source's outcome for those replies |
| ReadThrough.OrCurrent | src/controllers/animeController.js:19 | `v \|\| 'current'` is never empty |
| ReadThrough.YearArg | src/controllers/animeController.js:36 | `year ? parseInt(year) : null`: a year that parses to a non-zero number is passed as that number's text, and anything else makes the scraper use the current year |
| ReadThrough.ListingSource | src/controllers/animeController.js:36 | the listing scrape of a kind, season and year is well-formed |
| ReadThrough.CacheFirst | src/controllers/animeController.js:501-505 | a handler's `get(key)?.data`, then on a miss a scrape and a `set`, is exactly one read step |
| ReadThrough.Refresh | src/controllers/animeController.js:64-65 | a refresh always scrapes and stores on success, whatever the cache holds |
| ReadThrough.ReadStepHit | src/controllers/animeController.js:22-33 | a fresh entry is served with its stamp and age, and nothing changes or is requested |
| ReadThrough.ReadStepMiss | src/controllers/animeController.js:35-37 | a miss makes the source's requests; a successful fetch is stored stamped `later` and reads back at that instant; a failed one leaves the key absent; other keys read the same |
| ReadThrough.RereadHits | src/controllers/animeController.js:22-37 | within the hour after a successful miss, the same read is a hit on the stored data and changes nothing |
| ReadThrough.FittingStepsHold | src/controllers/animeDetailController.js:27-40 | reads and refreshes whose fetched data fits its key keep every entry fitting its key |
| ReadThrough.DetailSourcesFit | src/services/animeDetailService.js:278-279 | a scraped detail record carries the id it was requested for, so it fits its `detail-` key |
| AnimeController.ListingReply | src/controllers/animeController.js:22-51 | a hit answers 200 with the stored data, its stamp and `cached`; a fresh read answers 200 with the data and its count; a failure answers 500 with the message |
| AnimeController.GetListing | src/controllers/animeController.js:398-438 | one cache-first read of the kind's key, answered as above (`getAllMovies` at 244, `getAllOVAs` at 321, and the exported `getAll`) |
| AnimeController.RefreshListing | src/controllers/animeController.js:58-82 | a refresh of the kind's key, answered with the kind's message and the data, or a 500 (also `refreshMovies`, `refreshOVAs`, `refreshAll`) |
| AnimeController.Search | src/controllers/animeController.js:87-121 | a lower-cased query shorter than 2 gives 400, with no request and no cache change; otherwise one read of the default key, filtered by title |
| AnimeController.FindById | src/controllers/animeController.js:136 | a found record is in the list and has the requested id |
| AnimeController.GetById | src/controllers/animeController.js:126-156 | one read of the default key, then the first record with the id, or a 404 |
| AnimeController.FilterByStatus | src/controllers/animeController.js:161-187 | one read of the default key, filtered by status in any letter case |
| AnimeController.GetSeasons | src/controllers/animeController.js:192-218 | the four seasons, the current year, and the years from 2020 to the year after the current one, in order |
| AnimeController.GetCacheInfo | src/controllers/animeController.js:223-238 | answers 200 with the cache report for the instant of the call |
| AnimeController.SortListing | src/controllers/animeController.js:475-527 | rejected parameters give 400 before the cache is touched; otherwise one cache-first read, sorted, and the reply always says `cached` (also `sortMovies` and `sortOVAs`) |
| AnimeController.ListingKeyShape | src/controllers/animeController.js:403 | a listing key is the kind prefix, then the season or "current", a dash, and the year or "current"; the exported `getAll` uses `all-` keys |
| AnimeController.DefaultKeysDistinct | src/controllers/animeController.js:249 | the default keys of the kinds differ from each other |
| AnimeController.SearchResults | src/controllers/animeController.js:105-112 | a record is a search result exactly when it is in the list and its lower-cased title contains the query; the result is no longer than the list |
| AnimeController.FindByIdFirst | src/controllers/animeController.js:136-143 | no match exactly when no record has the id; otherwise the first record with the id |
| AnimeController.FilterResults | src/controllers/animeController.js:171-178 | a record is kept exactly when its status equals the requested one, both lower-cased |
| AnimeController.SortParamsCaseInsensitive | src/controllers/animeController.js:488-508 | "ASC" passes validation, yet the sorter, which compares with the exact "asc", sorts descending |
| AnimeController.RejectedParams | src/controllers/animeController.js:479-495 | a 400 is given exactly when the lower-cased `sortBy` or `order` is not one of the listed options |
| AnimeController.FetchedSeasonStart | src/services/scrapeService.js:38-41 | when a listing scrape succeeds, the season part of its key starts with w, s or f, or is "current" |
| AnimeController.SeasonKeyNoDetail | src/controllers/animeController.js:19 | such a listing key never starts with a detail prefix, so listing writes and detail keys cannot collide |
| AnimeController.ListingSourcesFit | src/controllers/animeController.js:36-37 | a listing scrape stored under its key never breaks the detail entries' invariant |
| AnimeController.DefaultSourceFits | src/controllers/animeController.js:101-102 | the default scrape stored under "default" keeps that invariant |
| AnimeController.DefaultKeyNoDetail | src/controllers/animeController.js:102 | anything stored under "default" keeps that invariant |
| AnimeController.ListingFetchOk | src/services/scrapeService.js:38-43 | when a listing page fetch succeeds, the season part of its key starts with w, s or f, or is "current" |
| DetailController.SynopsisOf | src/controllers/animeDetailController.js:79-86 | the synopsis view carries the record's id and title; the movie controller does the same at src/controllers/movieDetailController.js:79-86 |
| DetailController.StreamingOf | src/controllers/animeDetailController.js:119-127 | the streaming view carries the record's id and title; the movie controller does the same at src/controllers/movieDetailController.js:119-127 |
| DetailController.StatsOf | src/controllers/animeDetailController.js:160-170 | the stats view carries the record's id; anime fields for an anime record, movie fields for a movie record; the movie controller does the same at src/controllers/movieDetailController.js:160-169 |
| DetailController.ExportReply | src/controllers/animeDetailController.js:204-223 | a file exactly when the read gave a record whose title is non-null and whose file name is a legal header value; the file holds the record, the source tag and that name; the other cases are 500s; the movie controller does the same at src/controllers/movieDetailController.js:203-223 |
| DetailController.BatchCheck | src/controllers/animeDetailController.js:233-245 | the ids pass exactly when they are an array of 1 to 50 entries; otherwise the "too many" message for longer arrays and the "array required" message for the rest; the movie controller does the same at src/controllers/movieDetailController.js:233-245 |
| DetailController.BatchUpTo | src/controllers/animeDetailController.js:248-263 | after k ids at most k records have been collected; the movie controller does the same at src/controllers/movieDetailController.js:248-263 |
| DetailController.ReadDetail | src/controllers/animeDetailController.js:26-40 | one cache-first read of `detail-<id>` or `movie-detail-<id>`; returned data is this controller's record of that id; the movie controller does the same at src/controllers/movieDetailController.js:26-40 |
| DetailController.GetDetail | src/controllers/animeDetailController.js:15-54 | an empty id gives 400 with no change; otherwise one read, answered like a listing read; a 200 carries the record of that id; the movie controller does the same at src/controllers/movieDetailController.js:15-54 |
| DetailController.GetSynopsis | src/controllers/animeDetailController.js:59-98 | an empty id gives 400; otherwise one read and the synopsis view; a 200 carries the requested id; the movie controller does the same at src/controllers/movieDetailController.js:59-98 |
| DetailController.GetStreaming | src/controllers/animeDetailController.js:99-135 | an empty id gives 400; otherwise one read and the streaming view; a 200 carries the requested id; the movie controller does the same at src/controllers/movieDetailController.js:99-135 |
| DetailController.GetStats | src/controllers/animeDetailController.js:140-179 | an empty id gives 400; otherwise one read and the stats view of the controller's kind, carrying the requested id; the movie controller does the same at src/controllers/movieDetailController.js:140-178 |
| DetailController.ExportOne | src/controllers/animeDetailController.js:184-224 | an empty id gives 400; otherwise one read and the export reply; a file holds the record of that id; the movie controller does the same at src/controllers/movieDetailController.js:183-224 |
| DetailController.ReadOne | src/controllers/animeDetailController.js:250-262 | one iteration of the batch loop is one read step of that id; the movie controller does the same at src/controllers/movieDetailController.js:250-262 |
| DetailController.ReadBatch | src/controllers/animeDetailController.js:248-263 | the batch loop leaves the cache and the collected records equal to the batch function over the ids and clock readings; the movie controller does the same at src/controllers/movieDetailController.js:248-263 |
| DetailController.ExportMany | src/controllers/animeDetailController.js:229-286 | refused ids get 400 with no change; otherwise the collected records, their count and the timestamped file name; the total equals the record count and is at most the number of ids; the movie controller does the same at src/controllers/movieDetailController.js:229-287 |
| DetailController.DetailReadHolds | src/controllers/animeDetailController.js:27-40 | a read keeps the cache invariant, and any data it returns is the record of the requested id; the movie controller does the same at src/controllers/movieDetailController.js:27-40 |
| DetailController.AnsweredReadOk | src/controllers/animeDetailController.js:250-257 | when every request is answered, every read of the batch gives data; the movie controller does the same at src/controllers/movieDetailController.js:250-257 |
| DetailController.BatchInOrder | src/controllers/animeDetailController.js:248-263 | the collected records are, in order, the records of a strictly increasing run of the ids, and the cache invariant holds; the movie controller does the same at src/controllers/movieDetailController.js:248-263 |
| DetailController.BatchComplete | src/controllers/animeDetailController.js:248-270 | when every request is answered, one record per id is collected, each the record of its id, in the order of the ids; the movie controller does the same at src/controllers/movieDetailController.js:248-271 |
| DetailController.BatchSkipsFailures | src/controllers/animeDetailController.js:249-263 | when scrapes fail, the failing ids are skipped and the other records keep the ids' order; the movie controller does the same at src/controllers/movieDetailController.js:249-263 |
| DetailController.ExportNameShape | src/controllers/animeDetailController.js:213 | the file name is the prefix, the id, "_", a whitespace-free middle no longer than the title, and ".json"; the middle is the title itself when the title has no whitespace; the movie controller does the same at src/controllers/movieDetailController.js:213 |
| DetailController.ExportNameSafe | src/controllers/animeDetailController.js:212-213 | a file name built from header-safe id and title is header-safe; the movie controller does the same at src/controllers/movieDetailController.js:212-213 |
| AnimeDetailService.LastField | src/services/animeDetailService.js:9-31 | a found field value is never blank |
| AnimeDetailService.LastFieldIsLast | src/services/animeDetailService.js:12-28 | the last matching block decides: its trimmed own text is the value |
| AnimeDetailService.LastFieldNone | src/services/animeDetailService.js:9-31 | with no block headed by the label, the value is null |
| AnimeDetailService.BlankFieldIgnored | src/services/animeDetailService.js:26 | a later block with blank text does not overwrite an earlier value |
| AnimeDetailService.GetField | src/services/animeDetailService.js:9-31 | the `each` loop computes the last non-blank value |
| AnimeDetailService.OriginalTitleLastWins | src/services/animeDetailService.js:131-138 | the last block headed "Original title" decides, even when its value is blank |
| AnimeDetailService.FindOriginalTitle | src/services/animeDetailService.js:131-138 | the loop computes that last block's value |
| AnimeDetailService.NumberAt | src/services/animeDetailService.js:109 | the rating capture is a non-empty run of whole digits and a run of fraction digits |
| AnimeDetailService.RatingsCountOf | src/services/animeDetailService.js:113-114 | a ratings count is a non-empty run of digits |
| AnimeDetailService.RemoveStudioWord | src/services/animeDetailService.js:210 | text without "Studio" is unchanged |
| AnimeDetailService.ChooseTitle | src/services/animeDetailService.js:65-95 | computes the title of the fallback chain |
| AnimeDetailService.TitleCases | src/services/animeDetailService.js:65-95 | the title is the first non-blank of the desktop, mobile, medium and h1 texts, else null |
| AnimeDetailService.CollectStudios | src/services/animeDetailService.js:199-220 | the two loops compute the studio list |
| AnimeDetailService.CollectTags | src/services/animeDetailService.js:225-249 | the two loops compute the tag list |
| AnimeDetailService.FindSource | src/services/animeDetailService.js:146-153 | the source is the field value, else the text of the "Source" block |
| AnimeDetailService.ParseAnimeDetail | src/services/animeDetailService.js:57-299 | the parse computes the detail record of the page and id |
| AnimeDetailService.OriginalTitleFallback | src/services/animeDetailService.js:281 | the original title is never empty; it is null exactly when both it and the title are missing; otherwise it falls back to the title |
| AnimeDetailService.StudiosShape | src/services/animeDetailService.js:199-220 | studios are distinct, non-empty and trimmed; none without the block; otherwise the text studio first, then the new chip texts |
| AnimeDetailService.TagsShape | src/services/animeDetailService.js:225-249 | tags are distinct; the chip tags come first, then the plain texts that are not "Tags" and are shorter than 40 characters |
| AnimeDetailService.SynopsisNeverBlank | src/services/animeDetailService.js:254-257 | the synopsis is never empty: the italic text when that is not blank, and "No synopsis available" when both it and the synopsis block are blank |
| AnimeDetailService.LinksShape | src/services/animeDetailService.js:267-273 | the LiveChart link is built from the id; the MyAnimeList link is a page href containing its domain; each external link is null exactly when no href contains its domain |
| AnimeDetailService.SeasonShape | src/services/animeDetailService.js:192-193 | a season is non-empty and has no closing parenthesis |
| AnimeDetailService.RatingShape | src/services/animeDetailService.js:108-110 | there is a rating exactly when the text has a digit, and it is never negative |
| AnimeDetailService.TotalAfterSlash | src/services/animeDetailService.js:160-166 | "… / 12" gives 12 total episodes |
| AnimeDetailService.UnknownAfterSlash | src/services/animeDetailService.js:164-165 | "… / –" gives null |
| AnimeDetailService.NoSlashNoCount | src/services/animeDetailService.js:162-166 | without a slash there is no total |
| AnimeDetailService.CurrentAfterEp | src/services/animeDetailService.js:171-178 | "EP" in any letter case, then digits, after text with no "e", gives that number as the current episode |
| AnimeDetailService.PremiereOfDate | src/services/animeDetailService.js:189-190 | a header starting with "Month D, YYYY" gives that date as the premiere |
| AnimeDetailService.ScrapeAnimeDetail | src/services/animeDetailService.js:34-55 | one request for `/anime/<id>`; a failure is rethrown with its prefix, and a page is parsed |
| MovieDetailService.RatingCountIn | src/services/movieDetailService.js:67 | a ratings count is a non-empty run of digits |
| MovieDetailService.PushFitting | src/services/movieDetailService.js:121-126 | the loop keeps the trimmed texts of 1 to 49 characters, in order |
| MovieDetailService.CollectMovieStudios | src/services/movieDetailService.js:100-117 | the two loops compute the studio list |
| MovieDetailService.CollectMovieTags | src/services/movieDetailService.js:119-136 | the two loops compute the tag list |
| MovieDetailService.ParseMovieDetail | src/services/movieDetailService.js:48-175 | the parse computes the movie record of the page and id |
| MovieDetailService.MovieDefaults | src/services/movieDetailService.js:72-98 | status, format, source, run time, release date, synopsis and streaming are never empty; the defaults "Movie" and "Unknown" apply when nothing is found |
| MovieDetailService.MovieTitles | src/services/movieDetailService.js:52-53 | the title is the h1 text, else the first title-class text; the original title falls back to the title |
| MovieDetailService.MovieStudiosShape | src/services/movieDetailService.js:100-117 | studios are distinct and non-empty: the primary texts when any is non-empty, else the fallback texts |
| MovieDetailService.StudioFallback | src/services/movieDetailService.js:109-117 | the fallback runs only when the primary loop found nothing |
| MovieDetailService.MovieTagsShape | src/services/movieDetailService.js:119-136 | tags are distinct and of 1 to 49 characters: the fitting primary texts, else the fitting fallback texts |
| MovieDetailService.TagFallback | src/services/movieDetailService.js:128-136 | de-duplication after the fallback keeps exactly the fitting texts of the list used |
| MovieDetailService.FittingTags | src/services/movieDetailService.js:123 | a text is kept exactly when its trimmed form fits the length bounds |
| MovieDetailService.MovieRatingsCountShape | src/services/movieDetailService.js:66-69 | the count is digits; the first pattern decides when it matches |
| MovieDetailService.ScrapeMovieDetail | src/services/movieDetailService.js:16-39 | one request for the movie's `/anime/` page; a failure is rethrown with its prefix |
| ScheduleService.WeekOf | src/services/scheduleService.js:33-131 | seven days, Monday first, each the parse of that day |
| ScheduleService.ParseDay | src/services/scheduleService.js:56-118 | the loop keeps the titled items in order |
| ScheduleService.ParseSchedule | src/services/scheduleService.js:35-132 | the `forEach` over the day names computes the week |
| ScheduleService.ScheduleOutcome | src/services/scheduleService.js:16-140 | a successful scrape has seven days |
| ScheduleService.GetSchedule | src/services/scheduleService.js:16-140 | one request to `/schedule`, and its outcome |
| ScheduleService.DayIn | src/services/scheduleService.js:166 | a found day is in the week and has the requested name |
| ScheduleService.DaysDistinct | src/services/scheduleService.js:33 | the weekday names are distinct |
| ScheduleService.DayInFirst | src/services/scheduleService.js:166 | looking up by name finds the first day with that name |
| ScheduleService.DayFound | src/services/scheduleService.js:165-167 | each weekday name finds its own day in a parsed week |
| ScheduleService.GetScheduleByDay | src/services/scheduleService.js:147-172 | the schedule is fetched first; then a missing day gives the week, a valid day in any case gives that day, and an invalid day fails with the prefixed message |
| ScheduleService.TodayIndex | src/services/scheduleService.js:180-183 | the Sunday-first weekday index maps to the same name in the Monday-first week |
| ScheduleService.GetTodaySchedule | src/services/scheduleService.js:178-196 | today's name, the date part of the ISO time, and that day's schedule, or the prefixed failure |
| ScheduleService.TodayIsNamedDay | src/services/scheduleService.js:183-190 | today's entry is the parse of today's name |
| ScheduleService.GetUpcomingSchedule | src/services/scheduleService.js:202-218 | the week and the sum of its day counts, or the prefixed failure |
| ScheduleService.KeptTitled | src/services/scheduleService.js:106-117 | a kept entry has a non-empty title and is the item's entry |
| ScheduleService.DayEntriesTitled | src/services/scheduleService.js:106 | every listed entry has a title |
| ScheduleService.WeekShape | src/services/scheduleService.js:120-131 | each day has its name and a count equal to its entry count; a day without a container counts 0 |
| ScheduleService.DayEntryMembers | src/services/scheduleService.js:56-118 | an entry is listed exactly when it is the entry of a titled item of that day |
| ScheduleService.DayCountBound | src/services/scheduleService.js:122 | a day counts no more entries than it has items |
| ScheduleService.TotalCountIsEntries | src/services/scheduleService.js:207 | the total is the number of entries over the whole week |
| ScheduleService.ByDayCases | src/services/scheduleService.js:151-167 | a valid day name in any case gives that day's schedule; an invalid one fails |
| ScheduleService.AnimeIdOfPath | src/services/scheduleService.js:89 | the id is the path segment after `/anime/` |
| ScheduleService.SplitOnFirst | src/services/scheduleService.js:189 | `split('T')[0]` is the text before the first `T` |
| ScheduleService.EpMatchShape | src/services/scheduleService.js:103 | an `EP\d+` match is "EP" followed by digits |
| ScheduleService.EpisodeShape | src/services/scheduleService.js:101-111 | the episode is never empty; text containing "EP" becomes "N/A" or "EP" followed by digits |
| StatsService.GetStatusBreakdown | src/services/statsService.js:269-287 | the loop computes the four counts |
| StatsService.BreakdownTotal | src/services/statsService.js:269-286 | the four counts add up to the number of records |
| StatsService.Ratings | src/services/statsService.js:258-259 | one parsed score per record, with NaN counted as 0 |
| StatsService.MeanOf | src/services/statsService.js:255-262 | the mean is reported as "no records" exactly when the list is empty |
| StatsService.AverageRating | src/services/statsService.js:255-263 | the average rating is reported as "no records" (0) exactly when there are no records |
| StatsService.MeanTimesCount | src/services/statsService.js:262 | the mean times the count is the sum |
| StatsService.MeanBounds | src/services/statsService.js:255-262 | the mean lies between any bounds of the values |
| StatsService.AverageWithinRatings | src/services/statsService.js:255-262 | the average rating lies between the lowest and highest scores |
| StatsService.CloseFromFinds | src/services/statsService.js:76 | the lazy group ends at the first `)` on the same line |
| StatsService.ParenGroupFromFinds | src/services/statsService.js:76 | the captured group is that of the leftmost `(` with a closing `)`, and no earlier position matches |
| StatsService.GroupHasNoClose | src/services/statsService.js:76 | the captured group has no closing parenthesis |
| StatsService.GenreCandidates | src/services/statsService.js:66-92 | each record yields at least one candidate genre |
| StatsService.TitleGenresShape | src/services/statsService.js:75-80 | a title group gives one trimmed candidate per comma-separated piece |
| StatsService.TrimmedPieces | src/services/statsService.js:78 | the pieces contain no comma and are trimmed |
| StatsService.StudioEntries | src/services/statsService.js:159-174 | one entry per record: its studio or "Unknown", its title and its parsed score |
| StatsService.TallyByStudio | src/services/statsService.js:159-175 | the loop computes the studio tally |
| StatsService.CountGenres | src/services/statsService.js:95-111 | the inner loop adds each non-blank genre of a record |
| StatsService.TallyByGenre | src/services/statsService.js:64-112 | the outer loop computes the genre tally |
| StatsService.GenreTallyFailsExactly | src/services/statsService.js:98-109 | the tally fails exactly when some record has a genre named like an inherited property, and then with the TypeError of `push` |
| StatsService.GenreTallyContents | src/services/statsService.js:95-111 | each genre counts its occurrences, sums their ratings and lists their titles; a genre is present exactly when it occurs |
| StatsService.EmptyGroupCountsNothing | src/services/statsService.js:96-97 | a title ending in "()" gives one blank genre, which is not counted, and no status fallback |
| StatsService.EmptyParens | src/services/statsService.js:76 | "Show ()" captures the empty group |
| StatsService.NoGroupWithoutParen | src/services/statsService.js:76-77 | without `(` there is no group |
| StatsService.StatusFallback | src/services/statsService.js:83-92 | a title without `(` counts under its status genre |
| StatsService.StatusGenreTrimmed | src/services/statsService.js:85-91 | the status genres are non-empty and trimmed |
| StatsService.StudioTallyFailsExactly | src/services/statsService.js:162-174 | the studio tally fails exactly when a studio is named like an inherited property |
| StatsService.StudioOccurrences | src/services/statsService.js:159-171 | the number of entries under a studio is the number of records with that studio, "Unknown" standing for an empty one |
| StatsService.StudioTallyContents | src/services/statsService.js:159-175 | each studio counts its records; the counts add up to the number of records |
| Tally.Add | src/services/statsService.js:98-109 | counting a record fails exactly for a name inherited from `Object.prototype` |
| Tally.AddValid | src/services/statsService.js:98-109 | counting keeps the tally well-formed, adds one to the total, and leaves the key present |
| Tally.AddExisting | src/services/statsService.js:106-109 | counting a key already present keeps the tally well-formed and adds one to the total |
| Tally.AddFresh | src/services/statsService.js:98-105 | counting a new key keeps the tally well-formed and adds one to the total |
| Tally.AddAllFails | src/services/statsService.js:95-111 | a run of entries fails exactly when some key is inherited, and then with the TypeError of `push` |
| Tally.AddAllValid | src/services/statsService.js:95-111 | a successful run keeps the tally well-formed and adds the number of entries to the total |
| Tally.AddAllStat | src/services/statsService.js:106-109 | each key gains its occurrences, their ratings and their titles |
| Tally.AddStatOf | src/services/statsService.js:106-109 | one entry adds 1, its rating and its title |
| Tally.Record | src/services/statsService.js:98-109 | the object update is one counting step |
| Tally.EmittedPermutes | src/services/statsService.js:120-125 | the emitted keys are the tally's keys |
| Tally.Emitted | src/services/statsService.js:114-128 | one row per key |
| Tally.EmittedOnce | src/services/statsService.js:120-125 | every key is emitted once |
| Tally.EmittedRowShape | src/services/statsService.js:114-125 | each row carries its key's count, which is its number of titles and at least 1 |
| Tally.NamedRowsByCount | src/services/statsService.js:119-125 | among keys that are not integer-like, the order is by count, descending |
| Tally.IndexRowsFirst | src/services/statsService.js:120-125 | integer-like keys come before all others |
| Tally.CountOrderBroken | src/services/statsService.js:119-125 | a concrete tally where a key counted once is emitted before a key counted twice |
| JsObject.OwnKeysPermutes | src/services/statsService.js:122-125 | object enumeration keeps exactly the inserted keys |
| JsObject.OwnKeysSplit | src/services/statsService.js:122-125 | integer-like keys come first, then the others in insertion order |
| JsObject.OwnKeysIndexAscending | src/services/statsService.js:122-125 | integer-like keys enumerate in ascending numeric order |
| JsObject.OwnKeysNamedOrder | src/services/statsService.js:120-125 | the other keys keep a sorted insertion order |
| JsObject.IndexKeyJumpsAhead | src/services/statsService.js:122-125 | "2024" inserted after "Action" is enumerated before it |
| StatsReports.TotalReport | src/services/statsService.js:26-41 | a failure is prefixed; a listing gives its size, average, breakdown, and the season and year or "current" |
| StatsReports.SeasonStatsOf | src/services/statsService.js:223-237 | a season's figures, or zeros and an empty breakdown when its read failed |
| StatsReports.GetTotalAnime | src/services/statsService.js:15-42 | one cache-first read of the season key, then that report |
| StatsReports.GetStatsByGenre | src/services/statsService.js:50-137 | one cache-first read, then the genre report |
| StatsReports.GetStatsByStudio | src/services/statsService.js:145-200 | one cache-first read, then the studio report |
| StatsReports.SeasonSource | src/services/statsService.js:219 | each season's scrape is well-formed |
| StatsReports.SeasonsUpTo | src/services/statsService.js:213-239 | after k seasons there are k reports, named in season order |
| StatsReports.GetStatsBySeason | src/services/statsService.js:206-249 | returns the current year; the loop reads the four seasons of that year in order, and a failed season gives a zero report without stopping the loop |
| StatsReports.AllSeasonsReported | src/services/statsService.js:208-213 | winter, spring, summer and fall are all reported, in that order |
| StatsReports.SeasonStatsShape | src/services/statsService.js:223-237 | a breakdown adds up to the total; a failed season reports 0 |
| StatsReports.TotalReportShape | src/services/statsService.js:27-34 | the breakdown adds up to the total, and the average is 0 exactly for no records |
| StatsReports.GroupTotalIsKeys | src/services/statsService.js:127-128 | the total is the number of distinct keys |
| StatsReports.StatsKeyIsListingKey | src/services/statsService.js:18 | the stats handlers read the key `<season or current>-<year or current>`, the same key the TV listing scrape is stored under; "current-current" by default |
| LegacyServer.FirstUnreadable | index.js:37-94 | finds the first entry that throws, with none before it |
| LegacyServer.ParseLegacy | index.js:33-97 | the loop has no `try`, so the first entry that throws fails the scrape; otherwise the titled records |
| LegacyServer.ScrapeLegacy | index.js:22-102 | one request to the hard-coded page, then the loop |
| LegacyServer.App.constructor | index.js:17-18 | nothing cached and no stamp |
| LegacyServer.App.GetAnime | index.js:105-139 | fresh data is served with its stamp and no request; otherwise a scrape stamped with the request's start time, or a 500 that keeps the old state |
| LegacyServer.App.Refresh | index.js:142-162 | always scrapes; on success stores the data stamped after the fetch |
| LegacyServer.App.Search | index.js:165-192 | any cached data is searched without a request, however old it is; otherwise scrape, store and search |
| LegacyServer.App.HealthCheck | index.js:195-201 | "ok"; "filled" exactly when data is cached; a stamp exactly when one is set and non-zero |
| LegacyServer.LegacyRecordIsService | index.js:41-92 | the inline record is the service's record |
| LegacyServer.LegacyKeep | index.js:82-93 | a titled entry is appended, and an untitled one is dropped |
| LegacyServer.FirstUnreadableAt | index.js:37-94 | the first throwing entry is found |
| LegacyServer.LegacyAgreesWithService | index.js:37-100 | without a throwing entry the old server parses like the service; with one it fails, where the service would skip that entry |
| LegacyServer.FreshnessWindow | index.js:110 | served exactly when the stamp is non-zero and less than an hour old |
| LegacyServer.SearchMembers | index.js:177-179 | a result is a record whose lower-cased title contains the lower-cased query; an empty query returns everything |
| ScraperScript.GenreOf | scraper.js:76-77 | each element adds at most one genre |
| ScraperScript.CollectGenres | scraper.js:74-78 | the loop keeps the non-empty trimmed texts |
| ScraperScript.ScriptKeep | scraper.js:83-99 | each entry adds at most one record |
| ScraperScript.ExtractScriptEntry | scraper.js:35-96 | the body of the callback, for an entry that does not throw |
| ScraperScript.ParseScript | scraper.js:33-100 | the loop skips entries that throw and keeps titled records |
| ScraperScript.ScrapeScript | scraper.js:10-107 | one request, and a failure rethrown as it is |
| ScraperScript.GenresFrom | scraper.js:74-78 | every genre is the non-empty trimmed text of some element |
| ScraperScript.GenresHas | scraper.js:74-78 | every non-empty trimmed text is kept |
| ScraperScript.GenresKeepDuplicates | scraper.js:74-78 | genres are not de-duplicated |
| ScraperScript.EpisodeFallbackUnused | scraper.js:54-60 | the `\|\| 'N/A'` after the episode rule never fires |
| ScraperScript.ScriptRecordShape | scraper.js:38-95 | status, studio, score, episodes and air date are never empty; id, poster and link are null exactly when absent or empty |
| ScraperScript.ScriptMembers | scraper.js:33-100 | a record is output exactly when it is the record of a titled entry that did not throw |
| ScraperScript.SkipUnreadable | scraper.js:34-99 | an entry that throws takes nothing from its neighbours |
| ScraperScript.ScriptParsedShort | scraper.js:33-100 | at most one record per entry |

## Left out

- HTML parsing (cheerio), HTTP (axios) and Express are not modelled. A page is a `Dom` value holding what the selectors read. A request is answered by a `respond` oracle. A handler returns its status code and body.
- Request headers, timeouts, the `console` logging and the static file middleware have no effect on the results and are left out.
- Clock readings, the month, the weekday and the load-time year are parameters. ISO timestamps are the millisecond integers they are made from.
- Concurrency between `await`s is not modelled. Two interleaved requests could see each other's cache writes halfway.
- Floating point is replaced by exact reals:
  - `parseFloat` is decimal-only, without exponents or `Infinity`;
  - `parseInt` is decimal-only, within the precision JavaScript keeps;
  - averages are exact quotients;
  - `toFixed(2)` is not modelled;
  - `formatScore` (dataFormatter.js:43-48) is not modelled because it is floating-point formatting, and no modelled code calls it.
- AnimeSort.BeforeIsStrictWeakOrder: not stated for an airdate sort of a list holding a status that names an `Object.prototype` member. There the comparator is inconsistent (`InheritedStatusBreaksOrder`), and JavaScript leaves the sort order to the engine. The model's result is the insertion-sort order, one order an engine may give, and no sortedness or stability is promised for it.
- AnimeSort.AirStatusAscending: requires every status to have a numeric rank, for the same reason.
- AnimeSort.StrLess: `localeCompare` is modelled as code-point order, which is one strict total order. Locale collation is not modelled.
- Text.ToLower: lower-cases ASCII letters only.
- Strings are sequences of Unicode scalar values, not of UTF-16 code units. A character outside the Basic Multilingual Plane (an emoji, say) counts 1 in the model, where JavaScript's `length` counts 2. This shifts the length tests listed next.
- AnimeController.Search: a one-emoji query has length 1 here and gets the 400. The code (animeController.js:91) sees length 2 and searches.
- AnimeDetailService.TagsShape: the `length < 40` bound on plain tag texts (animeDetailService.js:244) counts such a character once.
- MovieDetailService.FittingTags: the 1 to 49 bounds on movie tags (movieDetailService.js:123, 132) count such a character once.
- `null` and `undefined` are both `None`.
- Batch ids that are not strings, which JavaScript would turn into strings in the key, are left out.
- V8's wording of TypeErrors is used as written where a detail record reaches code that expects an array. Other runtime error texts are left out.
- DetailController.ReadDetail: the detail handlers require the cache invariant that every `detail-<id>` entry holds the record of `<id>`. All writes the modelled code can make keep it (`FittingStepsHold`, `ListingSourcesFit`).
- AnimeController.GetListing: not stated for the TV kind, because the first `getAll` (animeController.js:14-52) is shadowed by the second and cannot be reached.
- AnimeController.SortListing: not stated for the all-kinds listing, because the controller has no sort for it.
- The thin controllers `scheduleController.js` and `statsController.js` only wrap the services in replies. They are not part of this model, and neither are `server.js`, `src/server.js`, `src/app.js` or the route files.
- `main` in `scraper.js` (console output and the JSON file it writes) is left out.
