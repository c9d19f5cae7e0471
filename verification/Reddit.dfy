/** Cursor pagination with a shrinking page size, against a filter over the whole listing. */
module Reddit {
  import opened Collections
  import opened Models
  import opened Pagination

  datatype PostData = PostData(
    isSelf: bool, selftext: string, url: string, permalink: string, title: string, author: Option<string>,
    createdAt: Option<int>, score: string)

  /** A child of a listing; only kind "t3" is a post. */
  datatype Child = Child(kind: string, data: PostData)

  const BASE_URL := "https://www.reddit.com"

  function ParsePost(data: PostData): Article {
    var selftext := if data.selftext == "[removed]" || data.selftext == "[deleted]" then "" else data.selftext;
    Article(if data.permalink != "" then BASE_URL + data.permalink else data.url,
            data.title, if data.isSelf then selftext else "", data.author, data.createdAt, None,
            map["source_domain" := "reddit.com", "bucket" := "community", "score" := data.score])
  }

  function Parse(child: Child): Option<ScrapeResult> {
    if child.kind != "t3" then None else Some(PostResult(child.data))
  }

  function PostResult(data: PostData): ScrapeResult {
    ScrapeResult(Success, "curl_cffi", Some(ParsePost(data)))
  }

  /** Which children yield a result, and what it holds. */
  lemma ParseMeaning(child: Child)
    ensures Parse(child).Some? <==> child.kind == "t3"
    ensures Parse(child).Some? ==>
      && var result, data := Parse(child).value, child.data;
      && result.status == Success && result.driver == "curl_cffi" && result.error == None && result.article.Some?
      && var article := result.article.value;
      && article.url == (if data.permalink == "" then data.url else "https://www.reddit.com" + data.permalink)
      && article.title == data.title && article.author == data.author && article.publishDate == data.createdAt
      && article.content
         == (if !data.isSelf || data.selftext == "[removed]" || data.selftext == "[deleted]" then "" else data.selftext)
      && "bucket" in article.metadata && article.metadata["bucket"] == "community"
      && "source_domain" in article.metadata && article.metadata["source_domain"] == "reddit.com"
      && "score" in article.metadata && article.metadata["score"] == data.score
  {
  }

  function Parser(): Child -> Option<ScrapeResult> {
    child => Parse(child)
  }

  /** One answer of the listing endpoint; `after` is the cursor of the next page. */
  datatype Page = Page(children: seq<Child>, after: Option<nat>)

  /**
   The page after `cursor` (the front of the listing when absent).  At the end of the listing the
   endpoint may still hand out a cursor (`trailing`), behind which there is an empty page.
   */
  function Serve(listing: seq<Child>, cursor: Option<nat>, pageSize: nat, trailing: bool): Page {
    var from := if cursor.Some? then cursor.value else 0;
    var children := Slice(listing, from, pageSize);
    var to := from + |children|;
    Page(children, if to < |listing| || trailing then Some(to) else None)
  }

  /** How many children the pages hold together. */
  function Total(pages: seq<seq<Child>>): nat {
    if pages == [] then 0 else Total(pages[..|pages| - 1]) + |pages[|pages| - 1]|
  }

  /** How many results are still missing once `count` children are consumed. */
  function Missing(listing: seq<Child>, limit: int, count: nat): int
    requires count <= |listing|
  {
    limit - |Found(listing, count, Parser(), Max(0, limit))|
  }

  /** A request is made while results are missing, asks for no more than are, and gets the children after `count`. */
  ghost predicate RequestOk(listing: seq<Child>, limit: int, count: nat, page: seq<Child>) {
    && count <= |listing| && Missing(listing, limit, count) > 0
    && page == Slice(listing, count, Min(100, Missing(listing, limit, count)))
  }

  /** Request `k` carries the number of children on the pages before it. */
  ghost predicate RequestAt(listing: seq<Child>, limit: int, counts: seq<nat>, pages: seq<seq<Child>>, k: nat)
    requires k < |counts| == |pages|
  {
    counts[k] == Total(pages[..k]) && RequestOk(listing, limit, counts[k], pages[k])
  }

  ghost predicate Requested(listing: seq<Child>, limit: int, counts: seq<nat>, pages: seq<seq<Child>>) {
    |counts| == |pages| && forall k :: 0 <= k < |pages| ==> RequestAt(listing, limit, counts, pages, k)
  }

  /** All pages but the last have children. */
  ghost predicate OnlyLastEmpty(pages: seq<seq<Child>>) {
    forall k :: 0 <= k < |pages| - 1 ==> pages[k] != []
  }

  predicate EndsEmpty(pages: seq<seq<Child>>) {
    pages != [] && pages[|pages| - 1] == []
  }

  /**
   Requests stop when nothing is missing or the listing is consumed.  An empty page is asked for once,
   when the listing is empty or ends in a cursor.
   */
  ghost predicate Stopped(listing: seq<Child>, limit: int, trailing: bool, pages: seq<seq<Child>>) {
    && OnlyLastEmpty(pages) && Total(pages) <= |listing|
    && (Missing(listing, limit, Total(pages)) > 0 ==> Total(pages) == |listing|)
    && (EndsEmpty(pages) <==> Missing(listing, limit, Total(pages)) > 0 && (listing == [] || trailing))
  }

  /** The children of one page, starting at `from` of the listing: non-posts are skipped, then the limit is checked. */
  method ScrapePage(listing: seq<Child>, children: seq<Child>, ghost from: nat, parse: Child -> Option<ScrapeResult>,
                    limit: int, before: seq<ScrapeResult>)
    returns (results: seq<ScrapeResult>)
    requires from + |children| <= |listing| && children == listing[from..from + |children|]
    requires before == Found(listing, from, parse, Max(0, limit))
    ensures results == Found(listing, from + |children|, parse, Max(0, limit))
  {
    ghost var n := Max(0, limit);
    results := before;
    for j := 0 to |children|
      invariant results == Found(listing, from + j, parse, n)
    {
      var post := parse(children[j]);
      FoundNext(listing, from + j, parse, n);
      if post.Some? {
        if |results| >= limit {
          FoundFull(listing, from + j, from + |children|, parse, n);
          break;
        }
        results := results + [post.value];
      }
    }
  }

  /** The cursor, the running count, the pages and the results stand for the same consumed children. */
  ghost predicate AtCursor(listing: seq<Child>, limit: int, after: Option<nat>, count: nat, results: seq<ScrapeResult>,
                           pages: seq<seq<Child>>) {
    && count == Total(pages) <= |listing|
    && (if after.Some? then after.value == count && pages != [] else pages == [])
    && results == Found(listing, count, Parser(), Max(0, limit))
    && forall k :: 0 <= k < |pages| ==> pages[k] != []
  }

  lemma NextRequest(listing: seq<Child>, limit: int, counts: seq<nat>, pages: seq<seq<Child>>, page: seq<Child>)
    requires Requested(listing, limit, counts, pages) && RequestOk(listing, limit, Total(pages), page)
    ensures Requested(listing, limit, counts + [Total(pages)], pages + [page])
    ensures Total(pages + [page]) == Total(pages) + |page| <= |listing|
  {
    var longer, counted := pages + [page], counts + [Total(pages)];
    assert longer[..|pages|] == pages;
    forall k | 0 <= k < |longer| ensures RequestAt(listing, limit, counted, longer, k) {
      if k < |pages| {
        assert RequestAt(listing, limit, counts, pages, k);
        assert longer[..k] == pages[..k];
      }
    }
  }

  /** The page after a cursor, and what a full set of consumed children means for its cursor. */
  lemma Answer(listing: seq<Child>, limit: int, after: Option<nat>, count: nat, results: seq<ScrapeResult>,
               pages: seq<seq<Child>>, trailing: bool)
    requires AtCursor(listing, limit, after, count, results, pages) && |results| < limit
    ensures var page := Serve(listing, after, Min(100, limit - |results|), trailing);
      && RequestOk(listing, limit, count, page.children)
      && (page.children == [] <==> count == |listing|)
      && page.children == listing[count..count + |page.children|]
      && page.after == (if count + |page.children| < |listing| || trailing then Some(count + |page.children|) else None)
  {
  }

  /** Between two requests. */
  ghost predicate Underway(listing: seq<Child>, limit: int, trailing: bool, after: Option<nat>, count: nat,
                           results: seq<ScrapeResult>, counts: seq<nat>, pages: seq<seq<Child>>) {
    && AtCursor(listing, limit, after, count, results, pages)
    && Requested(listing, limit, counts, pages)
    && (after.Some? && count == |listing| ==> trailing)
  }

  ghost predicate Complete(listing: seq<Child>, limit: int, trailing: bool, results: seq<ScrapeResult>,
                           counts: seq<nat>, pages: seq<seq<Child>>) {
    && results == Take(Collect(listing, Parser()), Max(0, limit))
    && Requested(listing, limit, counts, pages)
    && Stopped(listing, limit, trailing, pages)
  }

  /** At the limit nothing more is asked for. */
  lemma AtLimit(listing: seq<Child>, limit: int, trailing: bool, after: Option<nat>, count: nat,
                results: seq<ScrapeResult>, counts: seq<nat>, pages: seq<seq<Child>>)
    requires Underway(listing, limit, trailing, after, count, results, counts, pages) && |results| >= limit
    ensures Complete(listing, limit, trailing, results, counts, pages)
  {
    Consumed(listing, limit, count, results);
  }

  /** One more request, answered with `page`: the scrape goes on at its cursor, or is complete. */
  lemma AfterPage(listing: seq<Child>, limit: int, trailing: bool, after: Option<nat>, count: nat,
                  before: seq<ScrapeResult>, results: seq<ScrapeResult>, counts: seq<nat>, pages: seq<seq<Child>>, page: Page)
    requires Underway(listing, limit, trailing, after, count, before, counts, pages) && |before| < limit
    requires page == Serve(listing, after, Min(100, limit - |before|), trailing)
    requires count + |page.children| <= |listing|
    requires results == Found(listing, count + |page.children|, Parser(), Max(0, limit))
    ensures if page.children == [] || page.after == None
      then Complete(listing, limit, trailing, results, counts + [count], pages + [page.children])
      else Underway(listing, limit, trailing, page.after, count + |page.children|, results, counts + [count], pages + [page.children])
  {
    Answer(listing, limit, after, count, before, pages, trailing);
    NextRequest(listing, limit, counts, pages, page.children);
    if page.children == [] || page.after == None {
      Consumed(listing, limit, count + |page.children|, results);
    }
  }

  /** One turn of the loop: a request, and the posts on the page it is answered with. */
  method Turn(listing: seq<Child>, limit: int, trailing: bool, after: Option<nat>, count: nat, before: seq<ScrapeResult>,
              ghost counts: seq<nat>, ghost pages: seq<seq<Child>>)
    returns (page: Page, results: seq<ScrapeResult>)
    requires Underway(listing, limit, trailing, after, count, before, counts, pages) && |before| < limit
    ensures count + |page.children| <= |listing|
    ensures if page.children == [] || page.after == None
      then Complete(listing, limit, trailing, results, counts + [count], pages + [page.children])
      else Underway(listing, limit, trailing, page.after, count + |page.children|, results, counts + [count], pages + [page.children])
  {
    page := Serve(listing, after, Min(100, limit - |before|), trailing);
    Answer(listing, limit, after, count, before, pages, trailing);
    results := ScrapePage(listing, page.children, count, Parser(), limit, before);
    AfterPage(listing, limit, trailing, after, count, before, results, counts, pages, page);
  }

  /**
   Scrape up to `limit` posts.  `counts` lists the `count` parameter that each request carried, and
   `pages` the children it was answered with.
   */
  method ScrapeSubreddit(listing: seq<Child>, limit: int, trailing: bool)
    returns (results: seq<ScrapeResult>, counts: seq<nat>, pages: seq<seq<Child>>)
    ensures Complete(listing, limit, trailing, results, counts, pages)
  {
    var after: Option<nat> := None;
    var count: nat := 0;
    results, counts, pages := [], [], [];
    while |results| < limit
      invariant Underway(listing, limit, trailing, after, count, results, counts, pages)
      decreases |listing| - count
    {
      var page;
      page, results := Turn(listing, limit, trailing, after, count, results, counts, pages);
      counts, pages := counts + [count], pages + [page.children];
      if page.children == [] || page.after == None {
        return;
      }
      after := page.after;
      count := count + |page.children|;
    }
    AtLimit(listing, limit, trailing, after, count, results, counts, pages);
  }

  lemma Consumed(listing: seq<Child>, limit: int, count: nat, results: seq<ScrapeResult>)
    requires count <= |listing| && results == Found(listing, count, Parser(), Max(0, limit))
    requires |results| >= limit || count == |listing|
    ensures results == Take(Collect(listing, Parser()), Max(0, limit))
  {
    if |results| >= limit {
      FoundFull(listing, count, |listing|, Parser(), Max(0, limit));
    }
    assert listing[..|listing|] == listing;
  }
}
