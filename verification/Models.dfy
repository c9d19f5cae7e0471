/** Data exchanged between scrapers, sinks and workers. */
module Models {
  import opened Collections

  datatype Status = Success | Challenge | RateLimited | Error | ProxyFailed

  datatype Article = Article(
    url: string,
    title: string,
    content: string,
    author: Option<string>,
    publishDate: Option<int>,
    rawHtml: Option<string>,
    metadata: map<string, string>)

  datatype ScrapeResult = ScrapeResult(
    status: Status,
    driver: string,
    article: Option<Article> := None,
    error: Option<string> := None,
    proxy: Option<string> := None,
    challengeSolved: bool := false,
    durationMs: int := 0)

  /** SHA-256 as a free constructor: equal digests have equal inputs. */
  datatype Digest = Sha256(text: string)

  /** The stable document id of a URL. */
  function UrlId(url: string): Digest {
    Sha256(url)
  }

  /** Whether a sink has anything to store for `result`. */
  predicate Storable(result: ScrapeResult) {
    result.status == Success && result.article.Some?
  }
}
