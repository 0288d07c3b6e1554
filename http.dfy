/** The outbound page fetch. Which document (or failure: a network error, a timeout, a
    non-success status) the site answers with is a given function of the request's position
    in the log and its URL; the log records every URL requested. */
module Http {
  import opened Wrappers
  import opened Dom

  const LivechartBaseUrl := "https://www.livechart.me"

  class Site {
    const respond: (nat, string) -> Result<Document>
    var requests: seq<string>

    constructor (respond: (nat, string) -> Result<Document>)
      ensures this.respond == respond && requests == []
    {
      this.respond := respond;
      requests := [];
    }

    method Fetch(url: string) returns (r: Result<Document>)
      modifies this
      ensures requests == old(requests) + [url]
      ensures r == respond(|old(requests)|, url)
    {
      r := respond(|requests|, url);
      requests := requests + [url];
    }
  }
}
