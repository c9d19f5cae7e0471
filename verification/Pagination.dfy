/** Paginated scrapes: loops over pages that must equal one filter over the whole listing. */
module Pagination {
  import opened Collections
  import opened Models

  /** The results of the items that yield one, in order. */
  function Collect<T>(items: seq<T>, parse: T -> Option<ScrapeResult>): seq<ScrapeResult> {
    if items == [] then [] else
    (match parse(items[0]) case Some(r) => [r] case None => []) + Collect(items[1..], parse)
  }

  lemma {:induction false} CollectAppend<T>(a: seq<T>, b: seq<T>, parse: T -> Option<ScrapeResult>)
    ensures Collect(a + b, parse) == Collect(a, parse) + Collect(b, parse)
  {
    if a == [] {
      assert a + b == b;
    } else {
      assert (a + b)[1..] == a[1..] + b;
      CollectAppend(a[1..], b, parse);
    }
  }

  /** What a scrape limited to `limit` results returns after consuming the first `n` items. */
  function Found<T>(items: seq<T>, n: nat, parse: T -> Option<ScrapeResult>, limit: nat): seq<ScrapeResult>
    requires n <= |items|
  {
    Take(Collect(items[..n], parse), limit)
  }

  /** One more item adds its result, unless the limit is reached. */
  lemma FoundNext<T>(items: seq<T>, n: nat, parse: T -> Option<ScrapeResult>, limit: nat)
    requires n < |items|
    ensures var found := Found(items, n, parse, limit);
      Found(items, n + 1, parse, limit)
      == if |found| < limit && parse(items[n]).Some? then found + [parse(items[n]).value] else found
  {
    assert items[..n + 1] == items[..n] + [items[n]];
    CollectAppend(items[..n], [items[n]], parse);
    assert Collect([items[n]], parse) == match parse(items[n]) case Some(r) => [r] case None => [];
  }

  /** Once the limit is reached, the rest of the listing does not matter. */
  lemma FoundFull<T>(items: seq<T>, n: nat, m: nat, parse: T -> Option<ScrapeResult>, limit: nat)
    requires n <= m <= |items| && |Found(items, n, parse, limit)| >= limit
    ensures Found(items, m, parse, limit) == Found(items, n, parse, limit)
  {
    assert items[..m] == items[..n] + items[n..m];
    CollectAppend(items[..n], items[n..m], parse);
  }

  /** `at` lists, in order, exactly the items that yield a result, and `results` are what they yield. */
  ghost predicate Yields<T>(items: seq<T>, parse: T -> Option<ScrapeResult>, results: seq<ScrapeResult>, at: seq<nat>) {
    && |at| == |results|
    && (forall k :: 0 <= k < |at| ==> at[k] < |items| && parse(items[at[k]]) == Some(results[k]))
    && (forall j, k :: 0 <= j < k < |at| ==> at[j] < at[k])
    && (forall i: nat :: i < |items| && parse(items[i]).Some? ==> i in at)
  }

  /** The results are those of the items that yield one, in order, none missing and none twice. */
  lemma {:induction false} CollectMeaning<T>(items: seq<T>, parse: T -> Option<ScrapeResult>) returns (at: seq<nat>)
    ensures Yields(items, parse, Collect(items, parse), at)
    decreases |items|
  {
    at := [];
    if items != [] {
      var n := |items| - 1;
      var init := items[..n];
      at := CollectMeaning(init, parse);
      CollectAppend(init, [items[n]], parse);
      assert items == init + [items[n]];
      assert |[items[n]][1..]| == 0;
      YieldsOneMore(items, parse, Collect(init, parse), at);
      if parse(items[n]).Some? {
        at := at + [n];
      }
    }
  }

  lemma YieldsOneMore<T>(items: seq<T>, parse: T -> Option<ScrapeResult>, results: seq<ScrapeResult>, at: seq<nat>)
    requires items != [] && Yields(items[..|items| - 1], parse, results, at)
    ensures var n := |items| - 1;
      match parse(items[n])
      case Some(r) => Yields(items, parse, results + [r], at + [n])
      case None => Yields(items, parse, results, at)
  {
    var n := |items| - 1;
    var init := items[..n];
    assert forall i :: 0 <= i < n ==> items[i] == init[i];
    forall i: nat | i < |items| && parse(items[i]).Some? ensures i in at + [n] && (i < n ==> i in at) {
      if i < n {
        assert parse(init[i]).Some?;
      }
    }
  }
}
