/** Pruning the article table: by age, by relevance past half the window, and down to a hard cap. */
module Retention {
  import opened Collections

  /** `fetchedAt` in seconds. */
  datatype Row = Row(fetchedAt: int, relevance: Option<int>)

  type Table = map<nat, Row>

  datatype Policy = Policy(retentionDays: int, maxArticles: int, relevanceFloor: int)

  const DAY := 86400

  function Cutoff(p: Policy, now: int): int {
    now - p.retentionDays * DAY
  }

  function HalfCutoff(p: Policy, now: int): int {
    now - Max(1, p.retentionDays / 2) * DAY
  }

  predicate TooOld(p: Policy, now: int, row: Row) {
    row.fetchedAt < Cutoff(p, now)
  }

  predicate Irrelevant(p: Policy, now: int, row: Row) {
    && p.relevanceFloor > 0 && row.relevance.Some? && row.relevance.value < p.relevanceFloor
    && row.fetchedAt < HalfCutoff(p, now)
  }

  /** The ids of `n` rows such that no other row is older. */
  ghost predicate Oldest(table: Table, n: nat, ids: set<nat>) {
    && ids <= table.Keys && |ids| == n
    && forall a, b :: a in ids && b in table && b !in ids ==> table[a].fetchedAt <= table[b].fetchedAt
  }

  predicate Expired(p: Policy, now: int, row: Row) {
    TooOld(p, now, row) || Irrelevant(p, now, row)
  }

  /** The rows that survive age and relevance. */
  function Kept(p: Policy, now: int, table: Table): Table {
    map id | id in table && !Expired(p, now, table[id]) :: table[id]
  }

  /** Exactly the surviving rows, cut to the newest `maxArticles` if there are more. */
  ghost predicate Pruned(p: Policy, now: int, before: Table, after: Table) {
    exists ids :: CutTo(p, Kept(p, now, before), ids, after)
  }

  ghost predicate CutTo(p: Policy, kept: Table, ids: set<nat>, after: Table) {
    Oldest(kept, Excess(p, |kept|), ids) && after == kept - ids
  }

  function OldIds(p: Policy, now: int, table: Table): set<nat> {
    set id | id in table && table[id].fetchedAt < Cutoff(p, now)
  }

  function IrrelevantIds(p: Policy, now: int, table: Table): set<nat> {
    set id | id in table && table[id].relevance.Some?
      && table[id].relevance.value < p.relevanceFloor && table[id].fetchedAt < HalfCutoff(p, now)
  }

  /** The two deletes together leave exactly the surviving rows. */
  lemma KeptInTwo(p: Policy, now: int, table: Table)
    ensures var young := table - OldIds(p, now, table);
      Kept(p, now, table) == if p.relevanceFloor > 0 then young - IrrelevantIds(p, now, young) else young
  {
  }

  /** How many rows exceed the cap; never more than there are. */
  function Excess(p: Policy, total: nat): nat {
    if total > p.maxArticles then Min(total - p.maxArticles, total) else 0
  }

  lemma DeleteSize(table: Table, ids: set<nat>)
    requires ids <= table.Keys
    ensures |table - ids| == |table| - |ids|
  {
    assert (table - ids).Keys == table.Keys - ids;
    assert |table.Keys| == |table|;
  }

  class ArticleTable {
    var rows: Table

    /** `DELETE ... WHERE`; returns the number of rows deleted. */
    method DeleteAll(ids: set<nat>) returns (count: nat)
      requires ids <= rows.Keys
      modifies this
      ensures rows == old(rows) - ids && count == |ids| && |rows| + count == old(|rows|)
    {
      DeleteSize(rows, ids);
      rows := rows - ids;
      return |ids|;
    }

    /** `SELECT id ... ORDER BY fetched_at ASC LIMIT n`; rows fetched at the same time come in any order. */
    method SelectOldest(n: nat) returns (ids: set<nat>)
      requires n <= |rows|
      ensures Oldest(rows, n, ids)
    {
      ids := {};
      while |ids| < n
        invariant Oldest(rows, |ids|, ids) && |ids| <= n
      {
        ghost var rest := rows.Keys - ids;
        assert |rest| > 0;
        var next := MinOf(ids);
        ids := ids + {next};
      }
    }

    method MinOf(taken: set<nat>) returns (oldest: nat)
      requires taken <= rows.Keys && |taken| < |rows|
      ensures oldest in rows && oldest !in taken
      ensures forall id :: id in rows && id !in taken ==> rows[oldest].fetchedAt <= rows[id].fetchedAt
    {
      var rest := rows.Keys - taken;
      assert |rows.Keys| == |rows| && |rest| == |rows.Keys| - |taken|;
      oldest :| oldest in rest;
      var left := rest - {oldest};
      while left != {}
        invariant left <= rest && oldest in rest
        invariant forall id :: id in rest && id !in left ==> rows[oldest].fetchedAt <= rows[id].fetchedAt
        decreases left
      {
        var id :| id in left;
        if rows[id].fetchedAt < rows[oldest].fetchedAt {
          oldest := id;
        }
        left := left - {id};
      }
    }

    /** Down to the cap, oldest first. */
    method CutToCap(p: Policy) returns (deleted: nat, ghost ids: set<nat>)
      modifies this
      ensures CutTo(p, old(rows), ids, rows)
      ensures deleted + |rows| == old(|rows|)
    {
      deleted, ids := 0, {};
      var total := |rows|;
      if total > 0 && total > p.maxArticles {
        var excess := total - p.maxArticles;
        var oldestIds := SelectOldest(Min(excess, total));
        ids := oldestIds;
        deleted := DeleteAll(oldestIds);
      }
    }

    method Prune(p: Policy, now: int) returns (deleted: nat)
      modifies this
      ensures Pruned(p, now, old(rows), rows)
      ensures deleted + |rows| == old(|rows|)
    {
      KeptInTwo(p, now, rows);
      deleted := DeleteAll(OldIds(p, now, rows));
      if p.relevanceFloor > 0 {
        var more := DeleteAll(IrrelevantIds(p, now, rows));
        deleted := deleted + more;
      }
      var more, ids := CutToCap(p);
      deleted := deleted + more;
    }
  }

  /** Neither past the window of whole days, nor scored below the floor and past half of it. */
  predicate Spared(p: Policy, now: int, row: Row) {
    var half := if p.retentionDays / 2 > 1 then p.retentionDays / 2 else 1;
    && row.fetchedAt >= now - p.retentionDays * 86400
    && (p.relevanceFloor > 0 && row.relevance.Some? && row.relevance.value < p.relevanceFloor ==>
        row.fetchedAt >= now - half * 86400)
  }

  lemma SparedMeaning(p: Policy, now: int, row: Row)
    ensures Spared(p, now, row) <==> !Expired(p, now, row)
  {
  }

  /** What pruning guarantees about the table it leaves. */
  lemma PrunedMeaning(p: Policy, now: int, before: Table, after: Table)
    requires Pruned(p, now, before, after)
    ensures |after| <= Max(0, p.maxArticles)
    ensures forall id :: id in after ==> id in before && after[id] == before[id] && Spared(p, now, after[id])
    ensures forall id, k :: Cut(p, now, before, after, id) && k in after ==> before[id].fetchedAt <= after[k].fetchedAt
    ensures (exists id :: Cut(p, now, before, after, id)) ==> |after| == Max(0, p.maxArticles)
  {
    forall row ensures Spared(p, now, row) <==> !Expired(p, now, row) {
      SparedMeaning(p, now, row);
    }
    hide Spared, Expired;
    var kept := Kept(p, now, before);
    var ids :| CutTo(p, kept, ids, after);
    DeleteSize(kept, ids);
  }

  /** `id` was deleted, and neither age nor relevance was the reason. */
  predicate Cut(p: Policy, now: int, before: Table, after: Table, id: nat) {
    id in before && id !in after && Spared(p, now, before[id])
  }

  lemma NothingExpired(p: Policy, now: int, table: Table)
    requires forall id :: id in table ==> !Expired(p, now, table[id])
    ensures Kept(p, now, table) == table
  {
  }

  /** Pruning again at the same time deletes nothing, whichever rows of the same age were chosen. */
  lemma PruneAgain(p: Policy, now: int, before: Table, after: Table, again: Table)
    requires Pruned(p, now, before, after) && Pruned(p, now, after, again)
    ensures again == after
  {
    PrunedMeaning(p, now, before, after);
    forall id | id in after ensures !Expired(p, now, after[id]) {
      SparedMeaning(p, now, after[id]);
    }
    NothingExpired(p, now, after);
    var ids :| CutTo(p, after, ids, again);
    assert |ids| == 0 && after - {} == after;
  }
}
