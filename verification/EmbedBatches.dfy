/** Embedding the backlog of articles in small batches equals embedding its first rows at once. */
module EmbedBatches {
  import opened Collections

  type Vector = seq<real>

  datatype Row = Row(title: string, content: Option<string>, fetchedAt: int, embedding: Option<Vector>)

  /** Ids are digests of one length, so their order as text is their order as numbers. */
  type Table = map<nat, Row>

  type Embed = string -> Vector

  function Text(row: Row): string {
    row.title + "\n\n" + Take(if row.content.Some? then row.content.value else "", 2000)
  }

  /** The text is the title, a blank line, and as much of the content as fits in 2000 characters. */
  lemma TextMeaning(row: Row)
    ensures var text, n := Text(row), |row.title|;
      && |text| >= n + 2 && text[..n] == row.title && text[n..n + 2] == "\n\n"
      && (row.content.Some? ==>
          text[n + 2..] == row.content.value[..if |row.content.value| < 2000 then |row.content.value| else 2000])
      && (row.content == None ==> text[n + 2..] == "")
  {
  }

  // SELECT ... WHERE embedding IS NULL ORDER BY fetched_at DESC, id DESC

  predicate Before(table: Table, a: nat, b: nat)
    requires a in table && b in table
  {
    table[a].fetchedAt > table[b].fetchedAt || (table[a].fetchedAt == table[b].fetchedAt && a > b)
  }

  predicate First(table: Table, ids: set<nat>, x: nat)
    requires ids <= table.Keys
  {
    x in ids && forall y :: y in ids && y != x ==> Before(table, x, y)
  }

  lemma {:induction false} FirstExists(table: Table, ids: set<nat>)
    requires ids != {} && ids <= table.Keys
    ensures exists x :: First(table, ids, x)
    decreases |ids|
  {
    var a :| a in ids;
    if ids == {a} {
      assert First(table, ids, a);
    } else {
      FirstExists(table, ids - {a});
      var x :| First(table, ids - {a}, x);
      var best := if Before(table, a, x) then a else x;
      forall y | y in ids && y != best ensures Before(table, best, y) {
        assert y != a && y != x ==> y in ids - {a} && Before(table, x, y);
      }
      assert First(table, ids, best);
    }
  }

  function Ordered(table: Table, ids: set<nat>): seq<nat>
    requires ids <= table.Keys
    decreases |ids|
  {
    if ids == {} then [] else
    FirstExists(table, ids);
    var x :| First(table, ids, x);
    [x] + Ordered(table, ids - {x})
  }

  function NullIds(table: Table): set<nat> {
    set id | id in table && table[id].embedding == None
  }

  /** The rows still to embed, newest first. */
  function Backlog(table: Table): seq<nat> {
    Ordered(table, NullIds(table))
  }

  function Elements(s: seq<nat>): set<nat> {
    set x | x in s
  }

  ghost predicate Precedes(table: Table, a: nat, b: nat) {
    a in table && b in table && a != b && Before(table, a, b)
  }

  /** `s` lists distinct rows in the query's order. */
  ghost predicate Listing(table: Table, s: seq<nat>) {
    forall i, j :: 0 <= i < j < |s| ==> Precedes(table, s[i], s[j])
  }

  lemma {:induction false} OrderedElements(table: Table, ids: set<nat>)
    requires ids <= table.Keys
    ensures Elements(Ordered(table, ids)) == ids && |Ordered(table, ids)| == |ids|
    decreases |ids|
  {
    if ids != {} {
      var s := Ordered(table, ids);
      OrderedElements(table, ids - {s[0]});
      assert s == [s[0]] + s[1..];
      assert Elements(s) == {s[0]} + Elements(s[1..]);
    }
  }

  lemma {:induction false} OrderedListing(table: Table, ids: set<nat>)
    requires ids <= table.Keys
    ensures Listing(table, Ordered(table, ids))
    decreases |ids|
  {
    if ids != {} {
      var s := Ordered(table, ids);
      OrderedListing(table, ids - {s[0]});
      OrderedElements(table, ids - {s[0]});
      forall j | 0 < j < |s| ensures Precedes(table, s[0], s[j]) {
        assert s[j] == s[1..][j - 1] && s[j] in Elements(s[1..]);
      }
      forall i, j | 0 < i < j < |s| ensures Precedes(table, s[i], s[j]) {
        assert s[i] == s[1..][i - 1] && s[j] == s[1..][j - 1];
      }
    }
  }

  /** The backlog is the one listing of the rows without a vector, in the query's order. */
  lemma BacklogMeaning(table: Table)
    ensures Elements(Backlog(table)) == NullIds(table) && Listing(table, Backlog(table))
    ensures forall other :: Elements(other) == NullIds(table) && Listing(table, other) ==> other == Backlog(table)
  {
    OrderedElements(table, NullIds(table));
    OrderedListing(table, NullIds(table));
    forall other | Elements(other) == NullIds(table) && Listing(table, other) ensures other == Backlog(table) {
      ListingUnique(table, other, Backlog(table));
    }
  }

  /** Newest first, the larger id first among rows fetched at the same time, each row once. */
  lemma NewestFirst(table: Table)
    ensures forall id :: id in Backlog(table) <==> id in table && table[id].embedding == None
    ensures var s := Backlog(table);
      forall i, j :: 0 <= i < j < |s| ==>
        && s[i] in table && s[j] in table && table[s[i]].fetchedAt >= table[s[j]].fetchedAt
        && (table[s[i]].fetchedAt == table[s[j]].fetchedAt ==> s[i] > s[j])
  {
    BacklogMeaning(table);
    var s := Backlog(table);
    hide Backlog;
    assert forall id :: id in s <==> id in Elements(s);
    forall i, j | 0 <= i < j < |s|
      ensures s[i] in table && s[j] in table && table[s[i]].fetchedAt >= table[s[j]].fetchedAt
        && (table[s[i]].fetchedAt == table[s[j]].fetchedAt ==> s[i] > s[j])
    {
      assert Precedes(table, s[i], s[j]);
    }
  }

  lemma {:induction false} ListingUnique(table: Table, a: seq<nat>, b: seq<nat>)
    requires Listing(table, a) && Listing(table, b) && Elements(a) == Elements(b)
    ensures a == b
  {
    NoElements(a);
    NoElements(b);
    if a != [] {
      assert a[0] in Elements(b);
      assert b != [] && b[0] in Elements(a);
      assert a[0] == b[0];
      assert a == [a[0]] + a[1..] && b == [b[0]] + b[1..];
      RestElements(table, a);
      RestElements(table, b);
      ListingUnique(table, a[1..], b[1..]);
    }
  }

  lemma NoElements(s: seq<nat>)
    ensures Elements(s) == {} <==> s == []
  {
    if s != [] {
      assert s[0] in Elements(s);
    }
  }

  lemma RestElements(table: Table, s: seq<nat>)
    requires s != [] && Listing(table, s)
    ensures Elements(s[1..]) == Elements(s) - {s[0]}
  {
    assert s == [s[0]] + s[1..];
    forall j | 0 < j < |s| ensures s[j] != s[0] {
      assert Precedes(table, s[0], s[j]);
    }
  }

  /** Taking the first `n` out of the set takes them off the listing. */
  lemma {:induction false} OrderedDrop(table: Table, ids: set<nat>, n: nat)
    requires ids <= table.Keys && n <= |Ordered(table, ids)|
    ensures Ordered(table, ids - Elements(Ordered(table, ids)[..n])) == Ordered(table, ids)[n..]
    decreases n
  {
    var s := Ordered(table, ids);
    if n == 0 {
      assert ids - Elements(s[..0]) == ids;
    } else {
      var x := s[0];
      assert s[1..] == Ordered(table, ids - {x});
      assert s[..n] == [x] + s[1..][..n - 1];
      assert ids - Elements(s[..n]) == ids - {x} - Elements(s[1..][..n - 1]);
      OrderedDrop(table, ids - {x}, n - 1);
    }
  }

  /** The order depends on nothing but the fetch times. */
  lemma {:induction false} OrderedSame(a: Table, b: Table, ids: set<nat>)
    requires ids <= a.Keys && ids <= b.Keys && forall id :: id in ids ==> a[id].fetchedAt == b[id].fetchedAt
    ensures Ordered(a, ids) == Ordered(b, ids)
    decreases |ids|
  {
    if ids != {} {
      var x, y := Ordered(a, ids)[0], Ordered(b, ids)[0];
      assert First(a, ids, x) && First(b, ids, y);
      assert x == y;
      OrderedSame(a, b, ids - {x});
    }
  }

  // UPDATE ... SET embedding, row by row.

  function SetVector(table: Table, id: nat, v: Vector): Table
    requires id in table
  {
    table[id := table[id].(embedding := Some(v))]
  }

  /** `table` with exactly the rows of `ids` embedded, each with the vector of its own text. */
  function Embedded(table: Table, ids: set<nat>, embed: Embed): Table {
    map id | id in table :: if id in ids then table[id].(embedding := Some(embed(Text(table[id])))) else table[id]
  }

  lemma EmbeddedBacklog(table: Table, n: nat, embed: Embed)
    requires n <= |Backlog(table)|
    ensures Backlog(Embedded(table, Elements(Backlog(table)[..n]), embed)) == Backlog(table)[n..]
  {
    var done := Elements(Backlog(table)[..n]);
    var after := Embedded(table, done, embed);
    OrderedElements(table, NullIds(table));
    assert NullIds(after) == NullIds(table) - done;
    OrderedDrop(table, NullIds(table), n);
    OrderedSame(table, after, NullIds(after));
  }

  /** The provider's answer to the texts of `batch`, in order. */
  function Vectors(table: Table, batch: seq<nat>, embed: Embed): (vs: seq<Vector>)
    requires forall id :: id in batch ==> id in table
    ensures |vs| == |batch| && forall i :: 0 <= i < |batch| ==> vs[i] == embed(Text(table[batch[i]]))
  {
    if batch == [] then [] else [embed(Text(table[batch[0]]))] + Vectors(table, batch[1..], embed)
  }

  lemma InBacklog(table: Table)
    ensures forall id :: id in Backlog(table) ==> id in table
  {
    OrderedElements(table, NullIds(table));
    assert forall id :: id in Backlog(table) ==> id in Elements(Backlog(table));
  }

  /** The most rows that `batches` batches can embed. */
  function Capacity(batches: nat, batchSize: nat): nat {
    batches * batchSize
  }

  /** The running total after one more full or last batch. */
  lemma TotalGrows(backlog: nat, i: nat, batchSize: nat)
    ensures var total := Min(backlog, Capacity(i, batchSize));
      total + Min(backlog - total, batchSize) == Min(backlog, Capacity(i + 1, batchSize))
  {
    assert Capacity(i + 1, batchSize) == Capacity(i, batchSize) + batchSize;
  }

  /** Once a batch is empty, further batches would not add to the total. */
  lemma TotalStays(backlog: nat, i: nat, c: nat, batchSize: nat)
    requires i <= c && (batchSize == 0 || backlog == Min(backlog, Capacity(i, batchSize)))
    ensures Min(backlog, Capacity(c, batchSize)) == Min(backlog, Capacity(i, batchSize))
  {
    assert c * batchSize == i * batchSize + (c - i) * batchSize;
    assert (c - i) * batchSize >= 0;
  }

  /** `now` is `start` with the first `total` rows of its backlog embedded, and the rest still waiting. */
  ghost predicate Progress(start: Table, now: Table, total: nat, embed: Embed) {
    && total <= |Backlog(start)|
    && now == Embedded(start, Elements(Backlog(start)[..total]), embed)
    && Backlog(now) == Backlog(start)[total..]
  }

  lemma NoProgress(table: Table, embed: Embed)
    ensures Progress(table, table, 0, embed)
  {
    assert Elements(Backlog(table)[..0]) == {};
    assert Embedded(table, {}, embed) == table;
  }

  lemma EmbeddedTwice(table: Table, a: set<nat>, b: set<nat>, embed: Embed)
    ensures Embedded(Embedded(table, a, embed), b, embed) == Embedded(table, a + b, embed)
  {
  }

  lemma ElementsAppend(a: seq<nat>, b: seq<nat>)
    ensures Elements(a + b) == Elements(a) + Elements(b)
  {
  }

  lemma NextBatch(start: Table, now: Table, backlog: seq<nat>, total: nat, batchSize: nat, embed: Embed)
    requires total <= |backlog| && now == Embedded(start, Elements(backlog[..total]), embed)
    ensures var batch := Take(backlog[total..], batchSize);
      && |batch| == Min(|backlog| - total, batchSize)
      && Embedded(now, Elements(batch), embed) == Embedded(start, Elements(backlog[..total + |batch|]), embed)
  {
    var batch := Take(backlog[total..], batchSize);
    assert backlog[..total + |batch|] == backlog[..total] + batch;
    ElementsAppend(backlog[..total], batch);
    EmbeddedTwice(start, Elements(backlog[..total]), Elements(batch), embed);
  }

  /** Embedding the next batch of what is left is embedding that many more from the start. */
  lemma BatchAfterBatch(start: Table, now: Table, total: nat, batchSize: nat, embed: Embed)
    requires Progress(start, now, total, embed)
    ensures var batch := Take(Backlog(now), batchSize);
      && |batch| == Min(|Backlog(start)| - total, batchSize)
      && Progress(start, Embedded(now, Elements(batch), embed), total + |batch|, embed)
  {
    hide Backlog, Embedded;
    NextBatch(start, now, Backlog(start), total, batchSize, embed);
    EmbeddedBacklog(start, total + |Take(Backlog(now), batchSize)|, embed);
  }

  /** One batch: nothing written when the provider limits it, else exactly its rows embedded. */
  ghost predicate BatchStep(before: Table, after: Table, updated: Option<nat>, embed: Embed, limited: bool, batchSize: nat) {
    var batch := Take(Backlog(before), batchSize);
    if batch != [] && limited then updated == None && after == before
    else updated == Some(|batch|) && after == Embedded(before, Elements(batch), embed)
  }

  /** After `batches` batches: as much of the backlog as fits in them is done. */
  ghost predicate At(start: Table, now: Table, total: nat, batches: nat, batchSize: nat, embed: Embed) {
    Progress(start, now, total, embed) && total == Min(|Backlog(start)|, Capacity(batches, batchSize))
  }

  /** A batch that was not limited: `updated` more rows are done, and when it was none, none are left. */
  /** Exactly the batch gets vectors, each row that of its own text; no other row and no other column changes. */
  lemma BatchMeaning(before: Table, after: Table, updated: Option<nat>, embed: Embed, limited: bool, batchSize: nat)
    requires BatchStep(before, after, updated, embed, limited, batchSize)
    ensures after.Keys == before.Keys
    ensures updated == None ==> after == before
    ensures updated.Some? ==>
      && updated.value <= |Backlog(before)| && (updated.value == batchSize || updated.value == |Backlog(before)|)
      && forall id :: id in before ==>
        after[id] == if id in Backlog(before)[..updated.value]
                     then Row(before[id].title, before[id].content, before[id].fetchedAt, Some(embed(Text(before[id]))))
                     else before[id]
  {
    hide Backlog, Text;
    var batch := Take(Backlog(before), batchSize);
    assert forall id :: id in batch <==> id in Elements(batch);
  }

  lemma LoopStep(start: Table, before: Table, after: Table, updated: nat, embed: Embed, limited: bool,
                 batchSize: nat, total: nat, i: nat)
    requires At(start, before, total, i, batchSize, embed)
    requires BatchStep(before, after, Some(updated), embed, limited, batchSize)
    ensures At(start, after, total + updated, i + 1, batchSize, embed)
    ensures updated == 0 ==> Min(|Backlog(start)| - total, batchSize) == 0
    ensures updated > 0 ==> !limited
  {
    hide Backlog, Embedded;
    BatchAfterBatch(start, before, total, batchSize, embed);
    TotalGrows(|Backlog(start)|, i, batchSize);
  }

  /** Once a batch was empty, no further batch would do anything. */
  lemma EmptyBatch(start: Table, now: Table, total: nat, i: nat, batches: nat, batchSize: nat, embed: Embed)
    requires At(start, now, total, i + 1, batchSize, embed) && i <= batches
    requires total == Min(|Backlog(start)|, Capacity(i, batchSize)) && Min(|Backlog(start)| - total, batchSize) == 0
    ensures At(start, now, total, batches, batchSize, embed)
  {
    TotalStays(|Backlog(start)|, i, batches, batchSize);
  }

  /** Many small batches leave the table as a single batch of their joint size would. */
  lemma BatchedEqualsOneShot(start: Table, now: Table, total: nat, batches: nat, batchSize: nat, embed: Embed)
    requires At(start, now, total, batches, batchSize, embed)
    ensures BatchStep(start, now, Some(total), embed, false, Capacity(batches, batchSize))
  {
    assert Take(Backlog(start), Capacity(batches, batchSize)) == Backlog(start)[..total];
  }

  lemma StoreOneMore(table: Table, batch: seq<nat>, vectors: seq<Vector>, n: nat, embed: Embed)
    requires (forall id :: id in batch ==> id in table) && vectors == Vectors(table, batch, embed) && n < |batch|
    ensures batch[n] in table
    ensures SetVector(Embedded(table, Elements(batch[..n]), embed), batch[n], vectors[n])
         == Embedded(table, Elements(batch[..n + 1]), embed)
  {
    assert batch[n] in batch;
    assert batch[..n + 1] == batch[..n] + [batch[n]];
    ElementsAppend(batch[..n], [batch[n]]);
    OneMore(table, Elements(batch[..n]), batch[n], embed);
  }

  lemma OneMore(table: Table, ids: set<nat>, id: nat, embed: Embed)
    requires id in table
    ensures SetVector(Embedded(table, ids, embed), id, embed(Text(table[id])))
         == Embedded(table, ids + Elements([id]), embed)
  {
    assert Elements([id]) == {id};
  }

  class ArticleTable {
    var rows: Table

    method StoreVectors(batch: seq<nat>, vectors: seq<Vector>, ghost embed: Embed)
      requires forall id :: id in batch ==> id in rows
      requires vectors == Vectors(rows, batch, embed)
      modifies this
      ensures rows == Embedded(old(rows), Elements(batch), embed)
    {
      ghost var before := rows;
      var n := 0;
      while n < |batch|
        invariant n <= |batch| == |vectors|
        invariant rows.Keys == before.Keys
        invariant rows == Embedded(before, Elements(batch[..n]), embed)
      {
        StoreOneMore(before, batch, vectors, n, embed);
        rows := SetVector(rows, batch[n], vectors[n]);
        n := n + 1;
      }
      assert batch[..n] == batch;
    }

    /** Embed one batch; `None` when the provider is rate limited, which only matters when there is work. */
    method EmbedArticles(embed: Embed, limited: bool, batchSize: nat) returns (updated: Option<nat>)
      modifies this
      ensures BatchStep(old(rows), rows, updated, embed, limited, batchSize)
    {
      var batch := Take(Backlog(rows), batchSize);
      InBacklog(rows);
      if batch == [] {
        assert rows == Embedded(rows, Elements(batch), embed);
        return Some(0);
      }
      if limited {
        return None;
      }
      StoreVectors(batch, Vectors(rows, batch, embed), embed);
      return Some(|batch|);
    }

    /** The next batch; false when the run ends with it.  `last` is the batch after which it ends at the latest. */
    method NextBatch(embed: Embed, limited: bool, batchSize: nat, before: nat, ghost start: Table, ghost i: nat, ghost last: nat)
      returns (more: bool, total: nat)
      requires At(start, rows, before, i, batchSize, embed) && i <= last && (limited ==> i == last)
      modifies this
      ensures At(start, rows, total, if more then i + 1 else last, batchSize, embed) && (more ==> !limited)
    {
      hide Backlog, Embedded;
      ghost var table := rows;
      var n := EmbedArticles(embed, limited, batchSize);
      if n == None {
        return false, before;
      }
      LoopStep(start, table, rows, n.value, embed, limited, batchSize, before, i);
      if n.value == 0 {
        EmptyBatch(start, rows, before, i, last, batchSize, embed);
        return false, before;
      }
      return true, before + n.value;
    }

    /**
     Repeat small batches, at most `maxBatches`, until nothing is left or the provider limits one;
     `firstLimited` is the first batch it would limit.
     */
    method EmbedArticlesBatched(embed: Embed, firstLimited: nat, batchSize: nat, maxBatches: nat) returns (total: nat)
      modifies this
      ensures At(old(rows), rows, total, Min(firstLimited, maxBatches), batchSize, embed)
    {
      ghost var start, last := rows, Min(firstLimited, maxBatches);
      total := 0;
      NoProgress(rows, embed);
      var more := true;
      var i := 0;
      while more && i < maxBatches
        invariant i <= last
        invariant At(start, rows, total, if more then i else last, batchSize, embed)
        decreases more, maxBatches - i
      {
        more, total := NextBatch(embed, i == firstLimited, batchSize, total, start, i, last);
        if more {
          i := i + 1;
        }
      }
    }
  }
}
