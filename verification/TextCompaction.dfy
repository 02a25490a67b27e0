/** Rewriting the evidence table: each saved block becomes one row (scripts/aggregate-execution-text.py:157-218). */
module TextCompaction {
  import opened Options
  import opened TextBlocks

  datatype Record = Original(row: Row) | TextRow(key: Key, text: string, status: Status, sequence: nat)

  function JoinText(chunks: seq<string>): string { if chunks == [] then "" else chunks[0] + JoinText(chunks[1..]) }

  /** The text of a completion stands for the streamed one. */
  function TextOf(b: Block): string { if b.complete != "" then b.complete else JoinText(b.chunks) }

  predicate Touches(b: Block, protected: set<nat>) { exists i | 0 <= i < |b.rows| :: b.rows[i].id in protected }

  // tooLong: over 8 MiB of text, or over 64 MiB encoded.
  predicate Saves(b: Block, protected: set<nat>, tooLong: string -> bool) {
    TextOf(b) != "" && !tooLong(TextOf(b)) && !Touches(b, protected)
  }

  predicate DistinctIds(rows: seq<Row>) { forall i, j | 0 <= i < j < |rows| :: rows[i].id != rows[j].id }

  function Ids(rows: seq<Row>): set<nat> { set i | 0 <= i < |rows| :: rows[i].id }

  predicate IsFirst(b: Block, first: Row) {
    first in b.rows && !IsStart(first)
    && forall i | 0 <= i < |b.rows| && !IsStart(b.rows[i]) :: first.sequence <= b.rows[i].sequence
  }

  method FirstRow(b: Block) returns (first: Row)
    requires Textual(b)
    ensures IsFirst(b, first)
  {
    var found: Option<Row> := None;
    var i := 0;
    while i < |b.rows|
      invariant 0 <= i <= |b.rows|
      invariant found.None? ==> forall j | 0 <= j < i :: IsStart(b.rows[j])
      invariant found.Some? ==>
        && found.value in b.rows && !IsStart(found.value)
        && forall j | 0 <= j < i && !IsStart(b.rows[j]) :: found.value.sequence <= b.rows[j].sequence
    {
      if !IsStart(b.rows[i]) && (found.None? || b.rows[i].sequence < found.value.sequence) { found := Some(b.rows[i]); }
      i := i + 1;
    }
    return found.value;
  }

  /** The table after one saved block: its first row carries the text, its other rows are gone. */
  ghost predicate Rewritten(before: map<nat, Record>, after: map<nat, Record>, b: Block) {
    exists first :: IsFirst(b, first) && RewrittenAt(before, after, b, first)
  }

  predicate RewrittenAt(before: map<nat, Record>, after: map<nat, Record>, b: Block, first: Row) {
    && after.Keys == before.Keys - (Ids(b.rows) - {first.id}) && first.id in after
    && after[first.id] == TextRow(b.key, TextOf(b), b.status, first.sequence)
    && forall id | id in after && id !in Ids(b.rows) :: id in before && after[id] == before[id]
  }

  lemma {:induction false} DistinctSize(rows: seq<Row>)
    requires DistinctIds(rows)
    ensures |Ids(rows)| == |rows|
  {
    if rows != [] {
      var init, last := rows[..|rows| - 1], rows[|rows| - 1];
      DistinctSize(init);
      assert Ids(rows) == Ids(init) + {last.id} && last.id !in Ids(init);
    }
  }

  lemma FewerKeys(before: map<nat, Record>, after: map<nat, Record>, gone: set<nat>)
    requires after.Keys == before.Keys - gone && gone <= before.Keys
    ensures |after| + |gone| == |before|
  {
    assert before.Keys == after.Keys + gone && after.Keys !! gone;
    assert |before.Keys| == |after.Keys| + |gone|;
  }

  ghost predicate Deleted(original: map<nat, Record>, table: map<nat, Record>, rows: seq<Row>, keep: nat) {
    table.Keys == original.Keys - (Ids(rows) - {keep}) && forall id | id in table :: table[id] == original[id]
  }

  lemma NothingDeleted(table: map<nat, Record>, rows: seq<Row>, keep: nat)
    ensures Deleted(table, table, rows[..0], keep) && |Ids(rows[..0]) - {keep}| == 0
  {
    assert Ids(rows[..0]) == {};
  }

  lemma IdsNext(rows: seq<Row>, n: nat, keep: nat)
    requires DistinctIds(rows) && n < |rows|
    ensures var before, after := Ids(rows[..n]) - {keep}, Ids(rows[..n + 1]) - {keep};
      && after == (if rows[n].id == keep then before else before + {rows[n].id})
      && rows[n].id !in before
  {
    assert Ids(rows[..n + 1]) == Ids(rows[..n]) + {rows[n].id} && rows[n].id !in Ids(rows[..n]);
  }

  lemma DeletedNext(original: map<nat, Record>, table: map<nat, Record>, rows: seq<Row>, n: nat, keep: nat)
    requires DistinctIds(rows) && n < |rows| && Deleted(original, table, rows[..n], keep)
    ensures var next := if rows[n].id == keep then table else table - {rows[n].id};
      && Deleted(original, next, rows[..n + 1], keep)
      && |Ids(rows[..n + 1]) - {keep}| == |Ids(rows[..n]) - {keep}| + (if rows[n].id == keep then 0 else 1)
  {
    IdsNext(rows, n, keep);
    hide Ids, DistinctIds;
  }

  lemma AllDeleted(original: map<nat, Record>, table: map<nat, Record>, rows: seq<Row>, keep: nat)
    requires DistinctIds(rows) && Ids(rows) <= original.Keys && keep in Ids(rows)
               && Deleted(original, table, rows, keep)
    ensures table.Keys == original.Keys - (Ids(rows) - {keep}) && forall id | id in table :: table[id] == original[id]
    ensures |Ids(rows) - {keep}| == |rows| - 1 && |table| + |rows| - 1 == |original|
  {
    DistinctSize(rows);
    FewerKeys(original, table, Ids(rows) - {keep});
  }

  class Evidence {
    var table: map<nat, Record>
    var removed: nat
    var saved: nat
    var skipped: nat

    constructor (table: map<nat, Record>)
      ensures this.table == table && removed == 0 && saved == 0 && skipped == 0
    {
      this.table, removed, saved, skipped := table, 0, 0, 0;
    }

    method DeleteRows(rows: seq<Row>, keep: nat)
      requires DistinctIds(rows) && Ids(rows) <= table.Keys && keep in Ids(rows)
      modifies `table, `removed
      ensures table.Keys == old(table).Keys - (Ids(rows) - {keep})
      ensures forall id | id in table :: table[id] == old(table)[id]
      ensures removed == old(removed) + |rows| - 1 && |table| + |rows| - 1 == |old(table)|
    {
      hide Deleted, Ids;
      var n := 0;
      NothingDeleted(table, rows, keep);
      while n < |rows|
        invariant 0 <= n <= |rows| && Deleted(old(table), table, rows[..n], keep)
        invariant removed == old(removed) + |Ids(rows[..n]) - {keep}|
      {
        DeletedNext(old(table), table, rows, n, keep);
        if rows[n].id != keep {
          table := table - {rows[n].id};
          removed := removed + 1;
        }
        n := n + 1;
      }
      assert rows[..n] == rows;
      AllDeleted(old(table), table, rows, keep);
    }

    /** One block: skipped whole, or rewritten to the one row of its first delta or completion. */
    method CompactBlock(b: Block, protected: set<nat>, tooLong: string -> bool)
      requires Textual(b) && DistinctIds(b.rows) && Ids(b.rows) <= table.Keys
      modifies this
      ensures if Saves(b, protected, tooLong) then
          && Rewritten(old(table), table, b) && saved == old(saved) + 1 && skipped == old(skipped)
          && removed == old(removed) + |b.rows| - 1 && |table| + |b.rows| - 1 == |old(table)|
        else
          && table == old(table) && saved == old(saved) && skipped == old(skipped) + 1 && removed == old(removed)
    {
      var text := TextOf(b);
      if text == "" || tooLong(text) || Touches(b, protected) {
        skipped := skipped + 1;
        return;
      }
      var first := FirstRow(b);
      FirstIn(b, first);
      DeleteRows(b.rows, first.id);
      ghost var between := table;
      table := table[first.id := TextRow(b.key, text, b.status, first.sequence)];
      assert table.Keys == between.Keys;
      saved := saved + 1;
      assert RewrittenAt(old(table), table, b, first);
    }

    /** The blocks of one closed run. Every block is saved or skipped; a saved one leaves exactly one row, at its
        earliest text row, with its text; every other row stays as it was, protected rows among them; and the number of
        rows falls by exactly the number counted as removed. */
    method CompactRun(rows: seq<Row>, succeeded: bool, protected: set<nat>, tooLong: string -> bool)
      returns (blocks: seq<Block>)
      requires DistinctIds(rows) && forall i | 0 <= i < |rows| ::
                 rows[i].id in table && table[rows[i].id] == Original(rows[i])
      modifies this
      ensures blocks == Blocks(rows, if succeeded then BlockCompleted else Interrupted)
      ensures saved + skipped == old(saved) + old(skipped) + |blocks|
      ensures |table| + removed == |old(table)| + old(removed)
      ensures Compacted(old(table), table, blocks, protected, tooLong)
      ensures forall id | id in protected && id in old(table) :: id in table && table[id] == old(table)[id]
      ensures table.Keys <= old(table).Keys
    {
      blocks := BlocksForRun(rows, succeeded);
      BlocksFit(rows, if succeeded then BlockCompleted else Interrupted);
      RowsListed(table, rows);
      ghost var original := table;
      hide Blocks, Saves, DistinctIds, Progress, Fit, Settled, Unsaved, Ids;
      CompactBlocks(blocks, protected, tooLong, Ids(rows));
      AllDone(original, table, blocks, protected, tooLong);
    }

    method CompactBlocks(blocks: seq<Block>, protected: set<nat>, tooLong: string -> bool, ghost ids: set<nat>)
      requires Fit(blocks) && ids <= table.Keys && forall i | 0 <= i < |blocks| :: Ids(blocks[i].rows) <= ids
      modifies this
      ensures saved + skipped == old(saved) + old(skipped) + |blocks|
      ensures |table| + removed == |old(table)| + old(removed)
      ensures Progress(old(table), table, blocks, |blocks|, protected, tooLong)
    {
      hide Saves, Textual, DistinctIds, Rewritten, Progress, Fit, Ids;
      NothingDone(table, blocks, protected, tooLong);
      var n := 0;
      while n < |blocks|
        invariant 0 <= n <= |blocks|
        invariant saved + skipped == old(saved) + old(skipped) + n
        invariant |table| + removed == |old(table)| + old(removed)
        invariant Progress(old(table), table, blocks, n, protected, tooLong)
      {
        ghost var before := table;
        RowsStillThere(old(table), table, blocks, n, protected, tooLong, ids);
        CompactBlock(blocks[n], protected, tooLong);
        OneMoreBlock(old(table), before, table, blocks, n, protected, tooLong);
        n := n + 1;
      }
    }
  }

  lemma FirstIn(b: Block, first: Row)
    requires IsFirst(b, first)
    ensures first.id in Ids(b.rows)
  {
    var i :| 0 <= i < |b.rows| && b.rows[i] == first;
    assert b.rows[i].id in Ids(b.rows);
  }

  /** A saved block: one row, at its earliest text row; the others are gone. */
  ghost predicate Settled(table: map<nat, Record>, b: Block) {
    exists first :: IsFirst(b, first) && SettledAt(table, b, first)
  }

  predicate SettledAt(table: map<nat, Record>, b: Block, first: Row) {
    && first.id in table && table[first.id] == TextRow(b.key, TextOf(b), b.status, first.sequence)
    && forall id | id in Ids(b.rows) && id != first.id :: id !in table
  }

  ghost predicate Unsaved(blocks: seq<Block>, protected: set<nat>, tooLong: string -> bool, id: nat) {
    forall i | 0 <= i < |blocks| && Saves(blocks[i], protected, tooLong) :: id !in Ids(blocks[i].rows)
  }

  /** The table of a compacted run: the saved blocks are settled, and no other row has changed. */
  ghost predicate Compacted(original: map<nat, Record>, table: map<nat, Record>, blocks: seq<Block>,
                            protected: set<nat>, tooLong: string -> bool)
  {
    && (forall i | 0 <= i < |blocks| && Saves(blocks[i], protected, tooLong) :: Settled(table, blocks[i]))
    && (forall id | id in original && Unsaved(blocks, protected, tooLong, id) ::
        id in table && table[id] == original[id])
  }

  ghost predicate Fit(blocks: seq<Block>) {
    && (forall i | 0 <= i < |blocks| :: Textual(blocks[i]) && DistinctIds(blocks[i].rows))
    && (forall i, j | 0 <= i < j < |blocks| :: Ids(blocks[i].rows) !! Ids(blocks[j].rows))
  }

  lemma BlocksFit(rows: seq<Row>, status: Status)
    requires DistinctIds(rows)
    ensures Fit(Blocks(rows, status))
    ensures forall i | 0 <= i < |Blocks(rows, status)| :: Ids(Blocks(rows, status)[i].rows) <= Ids(rows)
  {
    var blocks := Blocks(rows, status);
    BlocksPartition(rows, status);
    hide Blocks, Textual, RowsOf;
    forall i | 0 <= i < |blocks|
      ensures Textual(blocks[i]) && DistinctIds(blocks[i].rows) && Ids(blocks[i].rows) <= Ids(rows)
    {
      BlocksTextual(rows, status, i);
      BlockRowsIn(blocks, i);
      PartIsDistinct(rows, blocks[i].rows);
    }
    forall i, j | 0 <= i < j < |blocks| ensures Ids(blocks[i].rows) !! Ids(blocks[j].rows) {
      TwoBlocksIn(blocks, i, j);
      assert multiset(blocks[i].rows + blocks[j].rows) == multiset(blocks[i].rows) + multiset(blocks[j].rows);
      PartIsDistinct(rows, blocks[i].rows + blocks[j].rows);
      DistinctHalves(blocks[i].rows, blocks[j].rows);
    }
  }

  lemma DistinctHalves(a: seq<Row>, b: seq<Row>)
    requires DistinctIds(a + b)
    ensures Ids(a) !! Ids(b)
  {
    forall i, j | 0 <= i < |a| && 0 <= j < |b| ensures a[i].id != b[j].id {
      assert (a + b)[i] == a[i] && (a + b)[|a| + j] == b[j];
    }
  }

  lemma IdsDistinct(rows: seq<Row>)
    requires DistinctIds(rows)
    ensures Distinct(rows)
  {
  }

  lemma CountTwice(part: seq<Row>, i: nat, j: nat)
    requires i < j < |part| && part[i] == part[j]
    ensures multiset(part)[part[i]] >= 2
  {
    assert part == part[..j] + part[j..];
    assert part[..j][i] == part[i] && part[j..][0] == part[j];
    assert part[i] in multiset(part[..j]) && part[j] in multiset(part[j..]);
  }

  lemma PartIsDistinct(rows: seq<Row>, part: seq<Row>)
    requires DistinctIds(rows) && multiset(part) <= multiset(rows)
    ensures DistinctIds(part) && Ids(part) <= Ids(rows)
  {
    forall i | 0 <= i < |part| ensures part[i] in rows {
      assert part[i] in multiset(part);
      assert part[i] in multiset(rows);
    }
    forall i, j | 0 <= i < j < |part| ensures part[i].id != part[j].id {
      if part[i] == part[j] {
        CountTwice(part, i, j);
        IdsDistinct(rows);
        CountOnce(rows, part[i]);
      } else {
        assert part[i] in rows && part[j] in rows;
      }
    }
  }

  lemma NotYet(blocks: seq<Block>, n: nat, protected: set<nat>, tooLong: string -> bool, id: nat)
    requires Fit(blocks) && n < |blocks| && id in Ids(blocks[n].rows)
    ensures Unsaved(blocks[..n], protected, tooLong, id)
  {
    hide Saves;
    forall i | 0 <= i < n ensures id !in Ids(blocks[..n][i].rows) { assert Ids(blocks[i].rows) !! Ids(blocks[n].rows); }
  }

  /** After the first n blocks: the saved ones are settled, and nothing else has changed. */
  ghost predicate Progress(original: map<nat, Record>, table: map<nat, Record>, blocks: seq<Block>, n: nat,
                           protected: set<nat>, tooLong: string -> bool)
  {
    && n <= |blocks| && table.Keys <= original.Keys
    && (forall i | 0 <= i < n && Saves(blocks[i], protected, tooLong) :: Settled(table, blocks[i]))
    && (forall id | id in original && Unsaved(blocks[..n], protected, tooLong, id) ::
        id in table && table[id] == original[id])
  }

  lemma NothingDone(table: map<nat, Record>, blocks: seq<Block>, protected: set<nat>, tooLong: string -> bool)
    ensures Progress(table, table, blocks, 0, protected, tooLong)
  {
  }

  lemma AllDone(original: map<nat, Record>, table: map<nat, Record>, blocks: seq<Block>, protected: set<nat>,
                tooLong: string -> bool)
    requires Progress(original, table, blocks, |blocks|, protected, tooLong)
    ensures forall i | 0 <= i < |blocks| && Saves(blocks[i], protected, tooLong) :: Settled(table, blocks[i])
    ensures forall id | id in original && Unsaved(blocks, protected, tooLong, id) ::
              id in table && table[id] == original[id]
    ensures forall id | id in protected && id in original :: id in table && table[id] == original[id]
    ensures table.Keys <= original.Keys
  {
    assert blocks[..|blocks|] == blocks;
    ProtectedUnsaved(blocks, protected, tooLong);
    hide Saves, Settled, Unsaved;
  }

  lemma RowsListed(table: map<nat, Record>, rows: seq<Row>)
    requires forall i | 0 <= i < |rows| :: rows[i].id in table
    ensures Ids(rows) <= table.Keys
  {
  }

  lemma RowsStillThere(original: map<nat, Record>, table: map<nat, Record>, blocks: seq<Block>, n: nat,
                       protected: set<nat>, tooLong: string -> bool, ids: set<nat>)
    requires Progress(original, table, blocks, n, protected, tooLong) && Fit(blocks) && n < |blocks|
    requires Ids(blocks[n].rows) <= ids <= original.Keys
    ensures Ids(blocks[n].rows) <= table.Keys && Textual(blocks[n]) && DistinctIds(blocks[n].rows)
  {
    hide Saves, Textual, Unsaved;
    forall id | id in Ids(blocks[n].rows) ensures id in table {
      NotYet(blocks, n, protected, tooLong, id);
    }
  }

  lemma OneMoreBlock(original: map<nat, Record>, before: map<nat, Record>, after: map<nat, Record>, blocks: seq<Block>,
                     n: nat, protected: set<nat>, tooLong: string -> bool)
    requires Fit(blocks) && n < |blocks| && Progress(original, before, blocks, n, protected, tooLong)
    requires if Saves(blocks[n], protected, tooLong) then Rewritten(before, after, blocks[n]) else after == before
    ensures Progress(original, after, blocks, n + 1, protected, tooLong)
  {
    hide Saves, Textual;
    var b := blocks[n];
    if Saves(b, protected, tooLong) {
      var first :| IsFirst(b, first) && RewrittenAt(before, after, b, first);
      FirstIn(b, first);
      assert SettledAt(after, b, first);
      forall i | 0 <= i < n && Saves(blocks[i], protected, tooLong) ensures Settled(after, blocks[i]) {
        var f :| IsFirst(blocks[i], f) && SettledAt(before, blocks[i], f);
        FirstIn(blocks[i], f);
        assert Ids(blocks[i].rows) !! Ids(b.rows);
        assert SettledAt(after, blocks[i], f);
      }
    }
    forall id | id in original && Unsaved(blocks[..n + 1], protected, tooLong, id)
      ensures id in after && after[id] == original[id]
    {
      assert blocks[..n + 1][n] == b;
      forall i | 0 <= i < n ensures blocks[..n][i] == blocks[..n + 1][i] {}
      assert Unsaved(blocks[..n], protected, tooLong, id);
    }
  }

  lemma ProtectedUnsaved(blocks: seq<Block>, protected: set<nat>, tooLong: string -> bool)
    ensures forall id | id in protected :: Unsaved(blocks, protected, tooLong, id)
  {
    forall id, i | id in protected && 0 <= i < |blocks| && Saves(blocks[i], protected, tooLong)
      ensures id !in Ids(blocks[i].rows)
    {
      assert !Touches(blocks[i], protected);
    }
  }
}
