/** The serving-plane sink and the run-once ingest jobs that fold sources into it. */
module Ingest {
  import opened Collections
  import opened Models

  /** A value of the JSONB column `meta`. */
  datatype Json = Null | Text(text: string) | Flag(flag: bool) | Number(number: int)

  /** An article row; the last three columns belong to later stages of the pipeline. */
  datatype Row = Row(
    url: string,
    domain: string,
    bucket: string,
    title: string,
    content: string,
    author: Option<string>,
    publishDate: Option<int>,
    fetchedAt: int,
    rawKey: Option<string>,
    meta: map<string, Json>,
    embedding: Option<seq<real>>,
    relevance: Option<int>,
    summary: Option<string>)

  type Table = map<Digest, Row>

  function Lookup(m: map<string, string>, key: string): Option<string> {
    if key in m then Some(m[key]) else None
  }

  /** How a result was obtained, as recorded in `meta`. */
  function Provenance(result: ScrapeResult): map<string, Json> {
    map["driver_used" := Text(result.driver),
        "proxy_used" := if result.proxy.Some? then Text(result.proxy.value) else Null,
        "challenge_solved" := Flag(result.challengeSolved),
        "fetch_duration_ms" := Number(result.durationMs)]
  }

  /** A successful result: the article and how it was obtained. */
  datatype Piece = Piece(article: Article, provenance: map<string, Json>)

  function IdOf(piece: Piece): Digest {
    UrlId(piece.article.url)
  }

  /** The row an insert would create; `host` extracts the host name of a URL. */
  function NewRow(piece: Piece, host: string -> string, now: int): Row {
    var article := piece.article;
    var domain := GetOr(article.metadata, "source_domain", "");
    Row(article.url, if domain != "" then domain else host(article.url), GetOr(article.metadata, "bucket", ""),
        article.title, article.content, article.author, article.publishDate, now, Lookup(article.metadata, "raw_key"),
        (map k | k in article.metadata :: Text(article.metadata[k])) + piece.provenance, None, None, None)
  }

  /** ON CONFLICT (id) DO UPDATE of the scraped columns only. */
  function Conflict(stored: Row, excluded: Row): Row {
    stored.(domain := excluded.domain, bucket := excluded.bucket, title := excluded.title, content := excluded.content,
            author := excluded.author, publishDate := excluded.publishDate, fetchedAt := excluded.fetchedAt,
            rawKey := excluded.rawKey, meta := excluded.meta)
  }

  function Upserted(table: Table, row: Row): Table {
    var id := UrlId(row.url);
    table[id := if id in table then Conflict(table[id], row) else row]
  }

  function PieceOf(result: ScrapeResult): Piece
    requires Storable(result)
  {
    Piece(result.article.value, Provenance(result))
  }

  /** What each scraped column of a row holds, once this result has been written at time `now`. */
  ghost predicate Scraped(row: Row, result: ScrapeResult, host: string -> string, now: int)
    requires result.article.Some?
  {
    var article := result.article.value;
    && row.title == article.title && row.content == article.content && row.author == article.author
    && row.publishDate == article.publishDate && row.fetchedAt == now
    && row.domain == (if "source_domain" in article.metadata && article.metadata["source_domain"] != ""
                      then article.metadata["source_domain"] else host(article.url))
    && row.bucket == (if "bucket" in article.metadata then article.metadata["bucket"] else "")
    && row.rawKey == (if "raw_key" in article.metadata then Some(article.metadata["raw_key"]) else None)
    && MetaTells(row.meta, result)
  }

  /** The metadata of the article, overruled by the four facts about how it was scraped. */
  ghost predicate MetaTells(meta: map<string, Json>, result: ScrapeResult)
    requires result.article.Some?
  {
    var metadata := result.article.value.metadata;
    && meta.Keys == metadata.Keys + {"driver_used", "proxy_used", "challenge_solved", "fetch_duration_ms"}
    && (forall k :: k in metadata && k !in {"driver_used", "proxy_used", "challenge_solved", "fetch_duration_ms"} ==>
        meta[k] == Text(metadata[k]))
    && meta["driver_used"] == Text(result.driver)
    && meta["proxy_used"] == (match result.proxy case Some(url) => Text(url) case None => Null)
    && meta["challenge_solved"] == Flag(result.challengeSolved) && meta["fetch_duration_ms"] == Number(result.durationMs)
  }

  /** A success with an article is stored under the id of its URL; anything else is not. */
  ghost predicate StoredIn(before: Table, after: Table, result: ScrapeResult, host: string -> string, now: int) {
    if result.status == Success && result.article.Some? then
      var url := result.article.value.url;
      var id := Sha256(url);
      && id in after && after == before[id := after[id]] && Scraped(after[id], result, host, now)
      && if id in before
         then after[id].url == before[id].url && after[id].embedding == before[id].embedding
           && after[id].relevance == before[id].relevance && after[id].summary == before[id].summary
         else after[id].url == url && after[id].embedding == None && after[id].relevance == None && after[id].summary == None
    else after == before
  }

  lemma NewRowScraped(result: ScrapeResult, host: string -> string, now: int)
    requires Storable(result)
    ensures Scraped(NewRow(PieceOf(result), host, now), result, host, now)
  {
    var row, metadata := NewRow(PieceOf(result), host, now), result.article.value.metadata;
    assert row.meta.Keys == metadata.Keys + Provenance(result).Keys;
  }

  lemma NewRowUrl(piece: Piece, host: string -> string, now: int)
    ensures NewRow(piece, host, now).url == piece.article.url
  {
  }

  /** Column by column, what one write does. */
  lemma UpsertMeaning(table: Table, result: ScrapeResult, host: string -> string, now: int)
    requires Storable(result)
    ensures StoredIn(table, Upserted(table, NewRow(PieceOf(result), host, now)), result, host, now)
  {
    NewRowScraped(result, host, now);
    var row := NewRow(PieceOf(result), host, now);
    assert row.url == result.article.value.url && row.embedding == None && row.relevance == None && row.summary == None;
    hide NewRow, MetaTells;
  }

  class PostgresSink {
    var table: Table
    var seenCache: set<Digest>

    constructor (table: Table)
      ensures this.table == table && seenCache == {}
    {
      this.table, seenCache := table, {};
    }

    method Store(result: ScrapeResult, host: string -> string, now: int)
      modifies this
      ensures StoredIn(old(table), table, result, host, now)
      ensures if Storable(result)
        then table == Upserted(old(table), NewRow(PieceOf(result), host, now))
          && seenCache == old(seenCache) + {IdOf(PieceOf(result))}
        else table == old(table) && seenCache == old(seenCache)
    {
      if result.status != Success || result.article == None {
        return;
      }
      UpsertMeaning(table, result, host, now);
      hide StoredIn, NewRow;
      var row := NewRow(PieceOf(result), host, now);
      NewRowUrl(PieceOf(result), host, now);
      var docId := UrlId(row.url);
      if docId in table {
        table := table[docId := Conflict(table[docId], row)];
      } else {
        table := table[docId := row];
      }
      seenCache := seenCache + {docId};
    }

    /** One run over the sources of `job`, each scraped to some results or failed. */
    method IngestAll(job: Job, clock: nat -> int) returns (persisted: nat)
      requires seenCache == {}
      modifies this
      ensures Folded(table, seenCache, persisted) == Run(old(table), job, clock)
    {
      persisted := 0;
      for i := 0 to |job.sources|
        invariant Fold(Folded(table, seenCache, persisted), Wanted(job.sources[i..], job.keep), job.host, clock)
               == Run(old(table), job, clock)
      {
        var source, rest := job.sources[i], job.sources[i + 1..];
        assert job.sources[i..][0] == source && job.sources[i..][1..] == rest;
        if source.Some? {
          FoldAppend(Folded(table, seenCache, persisted), Keep(source.value, job.keep), Wanted(rest, job.keep), job.host, clock);
          persisted := IngestOne(source.value, job, clock, persisted);
        }
      }
    }

    method IngestOne(results: seq<ScrapeResult>, job: Job, clock: nat -> int, before: nat) returns (persisted: nat)
      modifies this
      ensures Folded(table, seenCache, persisted)
           == Fold(Folded(old(table), old(seenCache), before), Keep(results, job.keep), job.host, clock)
    {
      hide StoredIn, NewRow, Conflict;
      persisted := before;
      for j := 0 to |results|
        invariant Fold(Folded(table, seenCache, persisted), Keep(results[j..], job.keep), job.host, clock)
               == Fold(Folded(old(table), old(seenCache), before), Keep(results, job.keep), job.host, clock)
      {
        var result, rest := results[j], results[j + 1..];
        assert results[j..][0] == result && results[j..][1..] == rest;
        if result.status != Success || result.article == None {
          continue;
        }
        if !job.keep(result.article.value) {
          continue;
        }
        FoldFirst(Folded(table, seenCache, persisted), PieceOf(result), Keep(rest, job.keep), job.host, clock);
        if UrlId(result.article.value.url) in seenCache {
          continue;
        }
        Store(result, job.host, clock(persisted));
        persisted := persisted + 1;
      }
    }
  }

  // The run as a fold over the results that count.

  datatype Folded = Folded(table: Table, seen: set<Digest>, count: nat)

  /** The storable results that pass the job's filter. */
  function Keep(results: seq<ScrapeResult>, keep: Article -> bool): seq<Piece> {
    if results == [] then []
    else if Storable(results[0]) && keep(results[0].article.value) then [PieceOf(results[0])] + Keep(results[1..], keep)
    else Keep(results[1..], keep)
  }

  /** The wanted results of the sources that did not fail. */
  function Wanted(sources: seq<Option<seq<ScrapeResult>>>, keep: Article -> bool): seq<Piece> {
    if sources == [] then []
    else if sources[0] == None then Wanted(sources[1..], keep)
    else Keep(sources[0].value, keep) + Wanted(sources[1..], keep)
  }

  /** Results are taken in order; each counts exactly when it is a success with an article that passes the filter. */
  lemma {:induction false} KeepMeaning(a: seq<ScrapeResult>, b: seq<ScrapeResult>, r: ScrapeResult, keep: Article -> bool)
    ensures Keep(a + b, keep) == Keep(a, keep) + Keep(b, keep)
    ensures var kept := r.status == Success && r.article.Some? && keep(r.article.value);
      && |Keep([r], keep)| == (if kept then 1 else 0)
      && (kept ==> Keep([r], keep)[0].article == r.article.value)
  {
    assert |[r][1..]| == 0;
    if a == [] {
      assert a + b == b;
    } else {
      assert (a + b)[1..] == a[1..] + b;
      KeepMeaning(a[1..], b, r, keep);
    }
  }

  /** Sources are taken in order; a failed one contributes nothing, any other what is kept of its results. */
  lemma {:induction false} WantedMeaning(a: seq<Option<seq<ScrapeResult>>>, b: seq<Option<seq<ScrapeResult>>>,
                                         results: seq<ScrapeResult>, keep: Article -> bool)
    ensures Wanted(a + b, keep) == Wanted(a, keep) + Wanted(b, keep)
    ensures Wanted([None], keep) == [] && Wanted([Some(results)], keep) == Keep(results, keep)
  {
    assert |[Some(results)][1..]| == 0;
    var failed: seq<Option<seq<ScrapeResult>>> := [None];
    assert |failed[1..]| == 0;
    if a == [] {
      assert a + b == b;
    } else {
      assert (a + b)[1..] == a[1..] + b;
      WantedMeaning(a[1..], b, results, keep);
    }
  }

  /** An article is wanted exactly when some source that did not fail has it among its results. */
  lemma {:induction false} WantedIds(sources: seq<Option<seq<ScrapeResult>>>, keep: Article -> bool, id: Digest)
    ensures id in IdsOf(Wanted(sources, keep))
      <==> exists s, r :: s in sources && s.Some? && r in s.value && Counts(r, keep, id)
  {
    if sources != [] {
      var rest := sources[1..];
      WantedIds(rest, keep, id);
      assert sources == [sources[0]] + rest;
      assert sources[0] in sources;
      if sources[0].Some? {
        KeptIds(sources[0].value, keep, id);
        IdsAppend(Keep(sources[0].value, keep), Wanted(rest, keep));
      }
    }
  }

  /** A success whose article passes the filter and has this id. */
  predicate Counts(r: ScrapeResult, keep: Article -> bool, id: Digest) {
    r.status == Success && r.article.Some? && keep(r.article.value) && Sha256(r.article.value.url) == id
  }

  lemma {:induction false} KeptIds(results: seq<ScrapeResult>, keep: Article -> bool, id: Digest)
    ensures id in IdsOf(Keep(results, keep)) <==> exists r :: r in results && Counts(r, keep, id)
  {
    if results != [] {
      KeptIds(results[1..], keep, id);
      assert results == [results[0]] + results[1..];
      assert results[0] in results;
    }
  }

  lemma {:induction false} IdsAppend(a: seq<Piece>, b: seq<Piece>)
    ensures IdsOf(a + b) == IdsOf(a) + IdsOf(b)
  {
    if a == [] {
      assert a + b == b;
    } else {
      assert (a + b)[1..] == a[1..] + b;
      IdsAppend(a[1..], b);
    }
  }

  /** The first piece with an id is the earliest one. */
  lemma {:induction false} FirstIsEarliest(pieces: seq<Piece>, id: Digest) returns (i: nat)
    requires id in IdsOf(pieces)
    ensures i < |pieces| && First(pieces, id) == pieces[i] && Sha256(pieces[i].article.url) == id
    ensures forall k :: 0 <= k < i ==> Sha256(pieces[k].article.url) != id
  {
    if IdOf(pieces[0]) == id {
      i := 0;
    } else {
      var j := FirstIsEarliest(pieces[1..], id);
      i := j + 1;
      assert forall k :: 0 < k < |pieces| ==> pieces[k] == pieces[1..][k - 1];
    }
  }

  function FoldOne(f: Folded, p: Piece, host: string -> string, clock: nat -> int): Folded {
    if IdOf(p) in f.seen then f
    else Folded(Upserted(f.table, NewRow(p, host, clock(f.count))), f.seen + {IdOf(p)}, f.count + 1)
  }

  function Fold(f: Folded, pieces: seq<Piece>, host: string -> string, clock: nat -> int): Folded
    decreases |pieces|
  {
    if pieces == [] then f else Fold(FoldOne(f, pieces[0], host, clock), pieces[1..], host, clock)
  }

  lemma FoldFirst(f: Folded, p: Piece, rest: seq<Piece>, host: string -> string, clock: nat -> int)
    ensures Fold(f, [p] + rest, host, clock) == Fold(FoldOne(f, p, host, clock), rest, host, clock)
  {
    assert ([p] + rest)[1..] == rest;
  }

  lemma {:induction false} FoldAppend(f: Folded, a: seq<Piece>, b: seq<Piece>, host: string -> string, clock: nat -> int)
    ensures Fold(f, a + b, host, clock) == Fold(Fold(f, a, host, clock), b, host, clock)
    decreases |a|
  {
    if a == [] {
      assert a + b == b;
    } else {
      assert (a + b)[1..] == a[1..] + b;
      FoldAppend(FoldOne(f, a[0], host, clock), a[1..], b, host, clock);
    }
  }

  // What the fold means.

  function IdsOf(pieces: seq<Piece>): set<Digest> {
    if pieces == [] then {} else {IdOf(pieces[0])} + IdsOf(pieces[1..])
  }

  /** The first piece with this id. */
  function First(pieces: seq<Piece>, id: Digest): Piece
    requires id in IdsOf(pieces)
  {
    if IdOf(pieces[0]) == id then pieces[0] else First(pieces[1..], id)
  }

  /** `after` holds at `id` what writing `p` at some moment makes of `before`. */
  ghost predicate HoldsWrite(before: Table, after: Table, id: Digest, p: Piece, host: string -> string) {
    exists now :: WrittenAt(before, after, id, p, host, now)
  }

  predicate WrittenAt(before: Table, after: Table, id: Digest, p: Piece, host: string -> string, now: int) {
    var row := NewRow(p, host, now);
    id in after && after[id] == if id in before then Conflict(before[id], row) else row
  }

  ghost predicate SameRow(before: Table, after: Table, id: Digest) {
    (id in before <==> id in after) && (id in before ==> after[id] == before[id])
  }

  lemma OneNew(id: Digest, rest: set<Digest>, seen: set<Digest>)
    ensures id in seen ==> {id} + rest - seen == rest - seen && seen + ({id} + rest) == seen + rest
    ensures id !in seen ==> |{id} + rest - seen| == 1 + |rest - (seen + {id})|
    ensures seen + {id} + rest == seen + ({id} + rest)
  {
    if id !in seen {
      assert {id} + rest - seen == {id} + (rest - (seen + {id}));
    }
  }

  /** The count is the number of new ids, and the ids seen grow by those of the pieces. */
  lemma {:induction false} FoldCounts(f: Folded, pieces: seq<Piece>, host: string -> string, clock: nat -> int)
    ensures Fold(f, pieces, host, clock).seen == f.seen + IdsOf(pieces)
    ensures Fold(f, pieces, host, clock).count == f.count + |IdsOf(pieces) - f.seen|
    decreases |pieces|
  {
    if pieces == [] {
      assert IdsOf(pieces) - f.seen == {};
    } else {
      var next := FoldOne(f, pieces[0], host, clock);
      FoldCounts(next, pieces[1..], host, clock);
      OneNew(IdOf(pieces[0]), IdsOf(pieces[1..]), f.seen);
      assert next.seen == if IdOf(pieces[0]) in f.seen then f.seen else f.seen + {IdOf(pieces[0])};
    }
  }

  /** What the run does to the row of `id`. */
  ghost predicate RowAfter(f: Folded, pieces: seq<Piece>, after: Table, host: string -> string, id: Digest) {
    if id in IdsOf(pieces) && id !in f.seen then HoldsWrite(f.table, after, id, First(pieces, id), host)
    else SameRow(f.table, after, id)
  }

  lemma OneRow(f: Folded, p: Piece, host: string -> string, clock: nat -> int, id: Digest)
    ensures var next := FoldOne(f, p, host, clock);
      if id == IdOf(p) && id !in f.seen then id in next.seen && WrittenAt(f.table, next.table, id, p, host, clock(f.count))
      else SameRow(f.table, next.table, id) && (id in next.seen <==> id in f.seen)
  {
  }

  /** Each new id holds its first occurrence; every other row is as before. */
  lemma {:induction false} FoldRow(f: Folded, pieces: seq<Piece>, host: string -> string, clock: nat -> int, id: Digest)
    ensures RowAfter(f, pieces, Fold(f, pieces, host, clock).table, host, id)
    decreases |pieces|
  {
    if pieces != [] {
      var next := FoldOne(f, pieces[0], host, clock);
      var after := Fold(f, pieces, host, clock).table;
      FoldRow(next, pieces[1..], host, clock, id);
      OneRow(f, pieces[0], host, clock, id);
      if id == IdOf(pieces[0]) && id !in f.seen {
        assert WrittenAt(f.table, after, id, pieces[0], host, clock(f.count));
      } else if id in IdsOf(pieces) && id !in f.seen {
        var now :| WrittenAt(next.table, after, id, First(pieces[1..], id), host, now);
        assert WrittenAt(f.table, after, id, First(pieces, id), host, now);
      }
    }
  }

  /** A whole run: `keep` is the job's filter, `host` the URL parser, `clock` the time of each write. */
  datatype Job = Job(sources: seq<Option<seq<ScrapeResult>>>, keep: Article -> bool, host: string -> string)

  function Run(table: Table, job: Job, clock: nat -> int): Folded {
    Fold(Folded(table, {}, 0), Wanted(job.sources, job.keep), job.host, clock)
  }

  /** The number returned is the number of distinct articles wanted. */
  lemma CountsDistinctArticles(table: Table, job: Job, clock: nat -> int)
    ensures Run(table, job, clock).count == |IdsOf(Wanted(job.sources, job.keep))|
  {
    var wanted := Wanted(job.sources, job.keep);
    FoldCounts(Folded(table, {}, 0), wanted, job.host, clock);
    assert IdsOf(wanted) - {} == IdsOf(wanted);
  }

  /** Each wanted article is stored as its first occurrence, and no other row changes. */
  lemma StoresFirstOccurrences(table: Table, job: Job, clock: nat -> int, id: Digest)
    ensures var wanted, after := Wanted(job.sources, job.keep), Run(table, job, clock).table;
      if id in IdsOf(wanted) then HoldsWrite(table, after, id, First(wanted, id), job.host) else SameRow(table, after, id)
  {
    FoldRow(Folded(table, {}, 0), Wanted(job.sources, job.keep), job.host, clock, id);
  }

  function Surviving(sources: seq<Option<seq<ScrapeResult>>>): seq<Option<seq<ScrapeResult>>> {
    if sources == [] then [] else (if sources[0].Some? then [sources[0]] else []) + Surviving(sources[1..])
  }

  lemma {:induction false} SameWanted(sources: seq<Option<seq<ScrapeResult>>>, keep: Article -> bool)
    ensures Wanted(Surviving(sources), keep) == Wanted(sources, keep)
  {
    if sources != [] {
      SameWanted(sources[1..], keep);
      if sources[0].Some? {
        assert Surviving(sources)[1..] == Surviving(sources[1..]);
      } else {
        assert Surviving(sources) == Surviving(sources[1..]);
      }
    }
  }

  /** Failing sources might as well not be there. */
  lemma FailuresAreIsolated(table: Table, job: Job, clock: nat -> int)
    ensures Run(table, job.(sources := Surviving(job.sources)), clock) == Run(table, job, clock)
  {
    SameWanted(job.sources, job.keep);
  }

  /** No run, first or repeated, touches the later stages' columns of an existing row, or its URL. */
  lemma LaterColumnsUntouched(table: Table, job: Job, clock: nat -> int, id: Digest)
    requires id in table
    ensures var after := Run(table, job, clock).table;
      && id in after && after[id].url == table[id].url && after[id].embedding == table[id].embedding
      && after[id].relevance == table[id].relevance && after[id].summary == table[id].summary
  {
    StoresFirstOccurrences(table, job, clock, id);
  }

  /** Running again over the same sources adds no row and reports the same number. */
  lemma RerunAddsNothing(table: Table, job: Job, clock: nat -> int, later: nat -> int)
    ensures var once := Run(table, job, clock);
      var twice := Run(once.table, job, later);
      twice.table.Keys == once.table.Keys && twice.count == once.count
  {
    var once := Run(table, job, clock);
    var twice := Run(once.table, job, later);
    CountsDistinctArticles(table, job, clock);
    CountsDistinctArticles(once.table, job, later);
    forall id ensures id in twice.table <==> id in once.table {
      StoresFirstOccurrences(table, job, clock, id);
      StoresFirstOccurrences(once.table, job, later, id);
    }
  }
}
