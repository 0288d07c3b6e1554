/** The records the scrapers produce and the cache stores. */
module Records {
  import opened Wrappers

  /** One entry of a season listing page. */
  datatype ListingRecord = ListingRecord(
    id: Option<string>,
    title: string,
    link: Option<string>,
    status: string,
    episodes: string,
    studio: string,
    score: string,
    poster: Option<string>)

  /** The external links of a detail record; `livechart` is always present. */
  datatype Links = Links(
    livechart: string,
    myanimelist: Option<string>,
    anilist: Option<string>,
    kitsu: Option<string>,
    imdb: Option<string>)

  /** The record built from an anime detail page. */
  datatype AnimeDetail = AnimeDetail(
    id: string,
    title: Option<string>,
    originalTitle: Option<string>,
    poster: Option<string>,
    rating: Option<real>,
    ratingsCount: Option<string>,
    status: Option<string>,
    format: Option<string>,
    source: Option<string>,
    totalEpisodes: Option<nat>,
    currentEpisode: Option<nat>,
    runTime: Option<string>,
    season: Option<string>,
    premiere: Option<string>,
    studios: seq<string>,
    tags: seq<string>,
    synopsis: string,
    streaming: Option<string>,
    links: Links)

  /** The record built from a movie detail page. */
  datatype MovieDetail = MovieDetail(
    id: string,
    title: string,
    originalTitle: string,
    poster: Option<string>,
    rating: Option<real>,
    ratingsCount: Option<string>,
    status: string,
    format: string,
    source: string,
    runTime: string,
    releaseDate: string,
    studios: seq<string>,
    tags: seq<string>,
    synopsis: string,
    streaming: string,
    links: Links)

  /** What one cache entry holds: a listing array or a single detail object. */
  datatype Payload =
    | Listing(records: seq<ListingRecord>)
    | AnimePayload(anime: AnimeDetail)
    | MoviePayload(movie: MovieDetail)
  {
    /** `data.length`: defined for arrays only. */
    function Length(): Option<nat> {
      if Listing? then Some(|records|) else None
    }
  }
}
