/** Offset pagination of a publication's archive, against one filter over what the archive serves. */
module Substack {
  import opened Collections
  import opened Models
  import opened Pagination

  datatype Item = Item(slug: string, audience: string)

  datatype Post = Post(audience: string, bodyHtml: string, title: string, canonicalUrl: string, author: Option<string>,
                      date: Option<int>)

  const MIN_CONTENT_LENGTH := 500

  /** What the publication serves: the archive, the body endpoint (absent: not an object), and HTML cleaning. */
  datatype Publication = Publication(archive: seq<Item>, post: string -> Option<Post>, clean: string -> string)

  predicate IsPaywalled(p: Publication, post: Post) {
    post.audience == "only_paid" || post.bodyHtml == "" || |p.clean(post.bodyHtml)| < MIN_CONTENT_LENGTH
  }

  function BuildArticle(p: Publication, post: Post): Article {
    Article(post.canonicalUrl, post.title, if post.bodyHtml == "" then "" else p.clean(post.bodyHtml), post.author, post.date,
            Some(post.bodyHtml), map["bucket" := "community", "audience" := post.audience])
  }

  /** The result of one archive item: none when it is filtered, unreadable or paywalled. */
  function Parse(p: Publication, publicOnly: bool, item: Item): Option<ScrapeResult> {
    if publicOnly && item.audience != "everyone" then None else
    match p.post(item.slug)
    case None => None
    case Some(post) =>
      if IsPaywalled(p, post) then None
      else Some(ScrapeResult(Success, "curl_cffi", Some(BuildArticle(p, post))))
  }

  /** Which items yield a result, and what it holds. */
  lemma ParseMeaning(p: Publication, publicOnly: bool, item: Item)
    ensures var post := p.post(item.slug);
      && (Parse(p, publicOnly, item).Some? <==>
          && (publicOnly ==> item.audience == "everyone") && post.Some? && post.value.audience != "only_paid"
          && post.value.bodyHtml != "" && |p.clean(post.value.bodyHtml)| >= 500)
      && (Parse(p, publicOnly, item).Some? ==>
          && var result := Parse(p, publicOnly, item).value;
          && result.status == Success && result.driver == "curl_cffi" && result.error == None && result.article.Some?
          && var article := result.article.value;
          && article.url == post.value.canonicalUrl && article.title == post.value.title
          && article.content == p.clean(post.value.bodyHtml) && article.author == post.value.author
          && article.publishDate == post.value.date && article.rawHtml == Some(post.value.bodyHtml)
          && "bucket" in article.metadata && article.metadata["bucket"] == "community")
  {
  }

  function Parser(p: Publication, publicOnly: bool): Item -> Option<ScrapeResult> {
    item => Parse(p, publicOnly, item)
  }

  /** How much of the archive the first `requests` requests return. */
  function Served(archive: seq<Item>, requests: nat, pageSize: nat): (n: nat)
    ensures n <= |archive|
  {
    if requests == 0 then 0 else
    var before := Served(archive, requests - 1, pageSize);
    before + |Slice(archive, before, pageSize)|
  }

  lemma {:induction false} ServedMeaning(archive: seq<Item>, requests: nat, pageSize: nat)
    ensures Served(archive, requests, pageSize) == Min(|archive|, requests * pageSize)
  {
    if requests > 0 {
      ServedMeaning(archive, requests - 1, pageSize);
      assert requests * pageSize == (requests - 1) * pageSize + pageSize;
    }
  }

  /** More requests return more, and after an empty or short page nothing more. */
  lemma {:induction false} ServedGrows(archive: seq<Item>, requests: nat, more: nat, pageSize: nat)
    requires requests <= more
    ensures Served(archive, requests, pageSize) <= Served(archive, more, pageSize)
    ensures requests < more && Served(archive, requests + 1, pageSize) < Served(archive, requests, pageSize) + pageSize
      ==> Served(archive, requests + 1, pageSize) == Served(archive, more, pageSize)
    ensures Served(archive, requests, pageSize) == Served(archive, requests + 1, pageSize)
      ==> Served(archive, requests, pageSize) == Served(archive, more, pageSize)
    decreases more - requests
  {
    if requests < more {
      ServedGrows(archive, requests + 1, more, pageSize);
    }
  }

  /** The first `requests` pages are all full. */
  predicate AllFull(archive: seq<Item>, requests: nat, pageSize: nat) {
    requests > 0 ==>
      && AllFull(archive, requests - 1, pageSize)
      && Served(archive, requests, pageSize) == Served(archive, requests - 1, pageSize) + pageSize
  }

  /** One request per full page, and one more. */
  function MostRequests(length: nat, pageSize: nat): nat {
    if pageSize == 0 then 1 else length / pageSize + 1
  }

  lemma {:induction false} FullPages(archive: seq<Item>, requests: nat, pageSize: nat)
    requires AllFull(archive, requests, pageSize)
    ensures Served(archive, requests, pageSize) == requests * pageSize
  {
    if requests > 0 {
      FullPages(archive, requests - 1, pageSize);
      assert requests * pageSize == (requests - 1) * pageSize + pageSize;
    }
  }

  lemma FewFullPages(archive: seq<Item>, requests: nat, pageSize: nat)
    requires AllFull(archive, requests, pageSize) && (pageSize == 0 ==> requests == 0)
    ensures requests + 1 <= MostRequests(|archive|, pageSize)
  {
    FullPages(archive, requests, pageSize);
    if pageSize > 0 {
      QuotientBound(requests, pageSize, |archive|);
    }
  }

  lemma QuotientBound(n: nat, d: nat, x: nat)
    requires d > 0 && n * d <= x
    ensures n <= x / d
  {
    Monotone(x / d + 1, n, d);
    OneMore(x / d, d);
  }

  lemma OneMore(a: nat, c: nat)
    ensures (a + 1) * c == a * c + c
  {
  }

  lemma Monotone(a: nat, b: nat, c: nat)
    ensures a <= b ==> a * c <= b * c
  {
    assert b * c == a * c + (b - a) * c;
  }

  /** The items of one page, starting at `offset` of the archive. */
  method ScrapePage(p: Publication, page: seq<Item>, ghost offset: nat, limit: int, publicOnly: bool, before: seq<ScrapeResult>)
    returns (results: seq<ScrapeResult>)
    requires offset + |page| <= |p.archive| && page == p.archive[offset..offset + |page|]
    requires before == Found(p.archive, offset, Parser(p, publicOnly), Max(0, limit))
    ensures results == Found(p.archive, offset + |page|, Parser(p, publicOnly), Max(0, limit))
  {
    ghost var parse, n := Parser(p, publicOnly), Max(0, limit);
    results := before;
    for j := 0 to |page|
      invariant results == Found(p.archive, offset + j, parse, n)
    {
      if |results| >= limit {
        FoundFull(p.archive, offset + j, offset + |page|, parse, n);
        break;
      }
      FoundNext(p.archive, offset + j, parse, n);
      var result := Parse(p, publicOnly, page[j]);
      if result.Some? {
        results := results + [result.value];
      }
    }
  }

  /** A whole run: the archive, how it is asked, and from which request on its answer is not a list. */
  datatype Job = Job(p: Publication, limit: int, pageSize: nat, publicOnly: bool, badFrom: nat)

  /** The first `n` items of the archive have been scraped. */
  ghost predicate Scraped(job: Job, n: nat, results: seq<ScrapeResult>) {
    n <= |job.p.archive| && results == Found(job.p.archive, n, Parser(job.p, job.publicOnly), Max(0, job.limit))
  }

  /** `full` full pages have been scraped. */
  ghost predicate AtPage(job: Job, full: nat, offset: nat, results: seq<ScrapeResult>) {
    && full <= job.badFrom && (job.pageSize == 0 ==> full == 0)
    && offset == Served(job.p.archive, full, job.pageSize) && AllFull(job.p.archive, full, job.pageSize)
    && Scraped(job, offset, results)
  }

  ghost predicate Complete(job: Job, results: seq<ScrapeResult>) {
    Scraped(job, Served(job.p.archive, job.badFrom, job.pageSize), results)
  }

  /** Request number `k`, counting from 0, is made: results are missing after `k` full pages, all of them lists. */
  ghost predicate Asks(job: Job, k: nat) {
    && k <= job.badFrom && (job.pageSize == 0 ==> k == 0) && AllFull(job.p.archive, k, job.pageSize)
    && |Found(job.p.archive, Served(job.p.archive, k, job.pageSize), Parser(job.p, job.publicOnly), Max(0, job.limit))| < job.limit
  }

  /** A request that is not made is followed by none. */
  lemma {:induction false} AsksNoMore(job: Job, k: nat, more: nat)
    requires k <= more && Asks(job, more)
    ensures Asks(job, k)
    decreases more - k
  {
    if k < more {
      FoundFullOrNot(job, more - 1);
      AsksNoMore(job, k, more - 1);
    }
  }

  lemma FoundFullOrNot(job: Job, k: nat)
    requires Asks(job, k + 1)
    ensures Asks(job, k)
  {
    var parse, limit := Parser(job.p, job.publicOnly), Max(0, job.limit);
    var n, m := Served(job.p.archive, k, job.pageSize), Served(job.p.archive, k + 1, job.pageSize);
    if |Found(job.p.archive, n, parse, limit)| >= limit {
      FoundFull(job.p.archive, n, m, parse, limit);
    }
  }

  /** The first `requests` requests are made and no others. */
  ghost predicate AsksExactly(job: Job, requests: nat) {
    forall k: nat :: k < requests <==> Asks(job, k)
  }

  lemma AskedExactly(job: Job, requests: nat)
    requires requests > 0 ==> Asks(job, requests - 1)
    requires !Asks(job, requests)
    ensures AsksExactly(job, requests)
  {
    forall k: nat ensures k < requests <==> Asks(job, k) {
      if k < requests {
        AsksNoMore(job, k, requests - 1);
      } else if Asks(job, k) {
        AsksNoMore(job, requests, k);
      }
    }
  }

  /** At the limit, or when no list or no item comes back, everything that could be found has been. */
  lemma StopHere(job: Job, full: nat, offset: nat, results: seq<ScrapeResult>)
    requires AtPage(job, full, offset, results)
    requires |results| >= job.limit || full == job.badFrom || Slice(job.p.archive, offset, job.pageSize) == []
    ensures Complete(job, results)
  {
    ServedGrows(job.p.archive, full, job.badFrom, job.pageSize);
    if |results| >= job.limit {
      FoundFull(job.p.archive, offset, Served(job.p.archive, job.badFrom, job.pageSize),
                Parser(job.p, job.publicOnly), Max(0, job.limit));
    }
  }

  /** After a page: a full one leads to the next request, a short one was the last. */
  lemma AfterPage(job: Job, full: nat, offset: nat, before: seq<ScrapeResult>, page: seq<Item>, results: seq<ScrapeResult>)
    requires AtPage(job, full, offset, before) && full < job.badFrom
    requires page == Slice(job.p.archive, offset, job.pageSize) && page != [] && Scraped(job, offset + |page|, results)
    ensures if |page| < job.pageSize then Complete(job, results) else AtPage(job, full + 1, offset + |page|, results)
  {
    assert Served(job.p.archive, full + 1, job.pageSize) == offset + |page|;
    ServedGrows(job.p.archive, full, job.badFrom, job.pageSize);
  }

  /** Everything findable was found, with exactly the requests that had to be made. */
  ghost predicate Finished(job: Job, results: seq<ScrapeResult>, requests: nat) {
    && Complete(job, results)
    && AsksExactly(job, requests) && requests <= MostRequests(|job.p.archive|, job.pageSize)
  }

  /** The request after `full` full pages is the last one: its answer is no list, empty, or short. */
  lemma LastRequest(job: Job, full: nat, offset: nat, before: seq<ScrapeResult>)
    requires AtPage(job, full, offset, before) && |before| < job.limit
    requires full == job.badFrom || |Slice(job.p.archive, offset, job.pageSize)| < job.pageSize || job.pageSize == 0
    ensures AsksExactly(job, full + 1) && full + 1 <= MostRequests(|job.p.archive|, job.pageSize)
  {
    AskedExactly(job, full + 1);
    FewFullPages(job.p.archive, full, job.pageSize);
  }

  /** Between two requests, when all of the `requests` before it were answered by full pages. */
  ghost predicate Underway(job: Job, requests: nat, offset: nat, results: seq<ScrapeResult>) {
    AtPage(job, requests, offset, results) && (requests > 0 ==> Asks(job, requests - 1))
  }

  lemma Beginning(job: Job)
    ensures Underway(job, 0, 0, [])
  {
  }

  /** No list, or an empty one. */
  lemma NothingServed(job: Job, full: nat, offset: nat, results: seq<ScrapeResult>)
    requires AtPage(job, full, offset, results) && |results| < job.limit
    requires full == job.badFrom || Slice(job.p.archive, offset, job.pageSize) == []
    ensures Finished(job, results, full + 1)
  {
    LastRequest(job, full, offset, results);
    StopHere(job, full, offset, results);
  }

  lemma PageServed(job: Job, full: nat, offset: nat, before: seq<ScrapeResult>, page: seq<Item>, results: seq<ScrapeResult>)
    requires AtPage(job, full, offset, before) && |before| < job.limit && full < job.badFrom
    requires page == Slice(job.p.archive, offset, job.pageSize) && page != [] && Scraped(job, offset + |page|, results)
    ensures if |page| < job.pageSize then Finished(job, results, full + 1)
      else Underway(job, full + 1, offset + |page|, results)
  {
    AfterPage(job, full, offset, before, page, results);
    if |page| < job.pageSize {
      LastRequest(job, full, offset, before);
    }
  }

  /** One request and the posts on its page; unless it was the last one, the next state of the loop. */
  method Turn(job: Job, ghost full: nat, requests: nat, offset: nat, before: seq<ScrapeResult>)
    returns (more: bool, next: nat, results: seq<ScrapeResult>)
    requires requests == full + 1 && AtPage(job, full, offset, before) && |before| < job.limit
    ensures if more then Underway(job, requests, next, results) && offset < next <= |job.p.archive|
      else Finished(job, results, requests)
  {
    next, results := offset, before;
    if requests > job.badFrom {
      NothingServed(job, full, offset, before);
      return false, next, results;
    }
    var page := Slice(job.p.archive, offset, job.pageSize);
    if page == [] {
      NothingServed(job, full, offset, before);
      return false, next, results;
    }
    results := ScrapePage(job.p, page, offset, job.limit, job.publicOnly, results);
    PageServed(job, full, offset, before, page, results);
    next := offset + |page|;
    more := |page| >= job.pageSize;
  }

  lemma LimitReached(job: Job, requests: nat, offset: nat, results: seq<ScrapeResult>)
    requires Underway(job, requests, offset, results) && |results| >= job.limit
    ensures Finished(job, results, requests)
  {
    StopHere(job, requests, offset, results);
    AskedExactly(job, requests);
    FewFullPages(job.p.archive, requests, job.pageSize);
  }

  /**
   Scrape up to `limit` posts.  The archive answers offset/limit requests with slices; its answer
   stops being a list from request number `badFrom` on.
   */
  method ScrapePublication(job: Job) returns (results: seq<ScrapeResult>, requests: nat)
    ensures Finished(job, results, requests)
  {
    var offset, more := 0, true;
    results, requests := [], 0;
    Beginning(job);
    while more && |results| < job.limit
      invariant if more then Underway(job, requests, offset, results) else Finished(job, results, requests)
      decreases more, |job.p.archive| - offset
    {
      ghost var full := requests;
      requests := requests + 1;
      more, offset, results := Turn(job, full, requests, offset, results);
    }
    if more {
      LimitReached(job, requests, offset, results);
    }
  }

  /** In one line: the first `limit` results of the served archive. */
  lemma CompleteMeaning(job: Job, results: seq<ScrapeResult>)
    requires Complete(job, results)
    ensures results == Take(Collect(job.p.archive[..Min(|job.p.archive|, job.badFrom * job.pageSize)],
                                    Parser(job.p, job.publicOnly)), Max(0, job.limit))
  {
    ServedMeaning(job.p.archive, job.badFrom, job.pageSize);
  }
}
