/** Reading text back: read in order of sequence, the records of a key spell the same text before compaction and after,
    which is the text of its blocks. */
module TextReading {
  import opened Options
  import opened TextBlocks
  import opened TextCompaction

  // The evidence table is read in order of sequence, which no two rows of a run share.
  predicate Increasing(rows: seq<Row>) { forall i, j | 0 <= i < j < |rows| :: rows[i].sequence < rows[j].sequence }

  // Text rows in order -----------------------------------------------------------------------------

  lemma {:induction false} TellingFrom(rows: seq<Row>, key: Key)
    ensures forall r :: r in Telling(rows, key) <==> r in rows && Tells(r, key)
  {
    if rows != [] {
      TellingFrom(rows[..|rows| - 1], key);
      assert rows == rows[..|rows| - 1] + [rows[|rows| - 1]];
    }
  }

  lemma {:induction false} TextRowsFrom(rows: seq<Row>)
    ensures forall r :: r in TextRows(rows) <==> r in rows && !IsStart(r)
  {
    if rows != [] {
      TextRowsFrom(rows[..|rows| - 1]);
      assert rows == rows[..|rows| - 1] + [rows[|rows| - 1]];
    }
  }

  lemma {:induction false} TellingIncreases(rows: seq<Row>, key: Key)
    requires Increasing(rows)
    ensures Increasing(Telling(rows, key))
  {
    if rows != [] {
      var init, last := rows[..|rows| - 1], rows[|rows| - 1];
      TellingIncreases(init, key);
      TellingFrom(init, key);
      forall r | r in Telling(init, key) ensures r.sequence < last.sequence {
        var i :| 0 <= i < |init| && init[i] == r;
        assert rows[i] == r;
      }
    }
  }

  lemma {:induction false} HalvesIncrease(a: seq<Row>, b: seq<Row>)
    requires Increasing(a + b)
    ensures Increasing(a) && Increasing(b) && forall x, y | x in a && y in b :: x.sequence < y.sequence
  {
    forall i, j | 0 <= i < j < |a| ensures a[i].sequence < a[j].sequence {
      assert (a + b)[i] == a[i] && (a + b)[j] == a[j];
    }
    forall i, j | 0 <= i < j < |b| ensures b[i].sequence < b[j].sequence {
      assert (a + b)[|a| + i] == b[i] && (a + b)[|a| + j] == b[j];
    }
    forall i, j | 0 <= i < |a| && 0 <= j < |b| ensures a[i].sequence < b[j].sequence {
      assert (a + b)[i] == a[i] && (a + b)[|a| + j] == b[j];
    }
  }

  lemma {:induction false} JoinedIncrease(a: seq<Row>, b: seq<Row>)
    requires Increasing(a) && Increasing(b) && forall x, y | x in a && y in b :: x.sequence < y.sequence
    ensures Increasing(a + b)
  {
  }

  lemma {:induction false} ToldHolds(blocks: seq<Block>, key: Key, i: nat)
    requires i < |blocks| && blocks[i].key == key
    ensures forall r | r in TextRows(blocks[i].rows) :: r in Told(blocks, key)
  {
    if i > 0 { ToldHolds(blocks[1..], key, i - 1); }
  }

  lemma {:induction false} ToldInOrder(blocks: seq<Block>, key: Key, i: nat, j: nat, x: Row, y: Row)
    requires Increasing(Told(blocks, key)) && i < j < |blocks| && blocks[i].key == blocks[j].key == key
    requires x in TextRows(blocks[i].rows) && y in TextRows(blocks[j].rows)
    ensures x.sequence < y.sequence
  {
    hide Increasing, TextRows;
    var own := if blocks[0].key == key then TextRows(blocks[0].rows) else [];
    HalvesIncrease(own, Told(blocks[1..], key));
    if i == 0 { ToldHolds(blocks[1..], key, j - 1); } else { ToldInOrder(blocks[1..], key, i - 1, j - 1, x, y); }
  }

  lemma {:induction false} BlocksIncrease(rows: seq<Row>, status: Status, key: Key)
    requires Increasing(rows)
    ensures Increasing(Told(Blocks(rows, status), key))
  {
    RowsArePreserved(rows, status, key);
    TellingIncreases(rows, key);
  }

  /** Of two blocks of one key, every text row of the one finished first precedes every text row of the other. */
  lemma {:induction false} BlocksOfKeyInOrder(rows: seq<Row>, status: Status, i: nat, j: nat, x: Row, y: Row)
    requires Increasing(rows) && i < j < |Blocks(rows, status)|
    requires Blocks(rows, status)[i].key == Blocks(rows, status)[j].key
    requires x in Blocks(rows, status)[i].rows && !IsStart(x) && y in Blocks(rows, status)[j].rows && !IsStart(y)
    ensures x.sequence < y.sequence
  {
    var blocks := Blocks(rows, status);
    hide Blocks, Increasing;
    BlocksIncrease(rows, status, blocks[i].key);
    TextRowsFrom(blocks[i].rows);
    TextRowsFrom(blocks[j].rows);
    ToldInOrder(blocks, blocks[i].key, i, j, x, y);
  }

  // What is left in the table ----------------------------------------------------------------------

  predicate Speaks(record: Record, key: Key) {
    match record
    case Original(row) => Tells(row, key)
    case TextRow(k, _, _, _) => k == key
  }

  function SequenceOf(record: Record): nat {
    match record
    case Original(row) => row.sequence
    case TextRow(_, _, _, sequence) => sequence
  }

  predicate InTable(table: map<nat, Record>, read: seq<nat>) { forall i | 0 <= i < |read| :: read[i] in table }

  predicate InSequence(table: map<nat, Record>, read: seq<nat>)
    requires InTable(table, read)
  {
    forall i, j | 0 <= i < j < |read| :: SequenceOf(table[read[i]]) < SequenceOf(table[read[j]])
  }

  /** All the records of these rows that speak for the key, in order of sequence. */
  ghost predicate Reads(table: map<nat, Record>, ids: set<nat>, key: Key, read: seq<nat>) {
    InTable(table, read) && InSequence(table, read)
    && forall id :: id in read <==> id in ids && id in table && Speaks(table[id], key)
  }

  function RecordsOf(table: map<nat, Record>, read: seq<nat>): seq<Record>
    requires InTable(table, read)
  {
    seq(|read|, i requires 0 <= i < |read| => table[read[i]])
  }

  /** A reader keeps the text that is complete and the text that is still streaming, for which a completion with text of
      its own stands. */
  datatype Heard = Heard(done: string, open: string) {
    function Text(): string { done + open }
  }

  const SILENCE := Heard("", "")

  function Hear(h: Heard, record: Record): Heard {
    match record
    case TextRow(_, text, _, _) => Heard(h.done + h.open + text, "")
    case Original(row) =>
      if row.event.Delta? then h.(open := h.open + row.event.text)
      else if row.event.Completed? then Heard(h.done + (if row.event.text != "" then row.event.text else h.open), "")
      else h
  }

  function Listen(h: Heard, records: seq<Record>): Heard
    decreases |records|
  {
    if records == [] then h else Listen(Hear(h, records[0]), records[1..])
  }

  function Originals(rows: seq<Row>): seq<Record> { seq(|rows|, i requires 0 <= i < |rows| => Original(rows[i])) }

  /** What the rows of a run say for a key. */
  function Spoken(rows: seq<Row>, key: Key): string { Listen(SILENCE, Originals(Telling(rows, key))).Text() }

  function KeptOf(b: Block, saved: bool): seq<Row> {
    if saved && TextRows(b.rows) != [] then TextRows(b.rows)[..1] else TextRows(b.rows)
  }

  /** The rows of a key that still have a record: the first text row of a saved block, every text row of another. */
  function Kept(blocks: seq<Block>, key: Key, protected: set<nat>, tooLong: string -> bool): seq<Row> {
    if blocks == [] then []
    else
      (if blocks[0].key == key then KeptOf(blocks[0], Saves(blocks[0], protected, tooLong)) else [])
        + Kept(blocks[1..], key, protected, tooLong)
  }

  lemma {:induction false} KeptIncreases(blocks: seq<Block>, key: Key, protected: set<nat>, tooLong: string -> bool)
    requires Increasing(Told(blocks, key))
    ensures Increasing(Kept(blocks, key, protected, tooLong))
    ensures forall r | r in Kept(blocks, key, protected, tooLong) :: r in Told(blocks, key)
  {
    if blocks != [] {
      var own := if blocks[0].key == key then TextRows(blocks[0].rows) else [];
      var kept := if blocks[0].key == key then KeptOf(blocks[0], Saves(blocks[0], protected, tooLong)) else [];
      HalvesIncrease(own, Told(blocks[1..], key));
      KeptIncreases(blocks[1..], key, protected, tooLong);
      assert Increasing(kept) && forall r | r in kept :: r in own;
      hide Increasing, Saves, TextRows;
      JoinedIncrease(kept, Kept(blocks[1..], key, protected, tooLong));
    }
  }

  lemma {:induction false} KeptHolds(blocks: seq<Block>, key: Key, protected: set<nat>, tooLong: string -> bool, i: nat)
    requires i < |blocks| && blocks[i].key == key
    ensures forall r | r in KeptOf(blocks[i], Saves(blocks[i], protected, tooLong)) ::
              r in Kept(blocks, key, protected, tooLong)
  {
    hide Saves, KeptOf;
    if i > 0 { KeptHolds(blocks[1..], key, protected, tooLong, i - 1); }
  }

  lemma {:induction false} KeptFrom(blocks: seq<Block>, key: Key, protected: set<nat>, tooLong: string -> bool, r: Row)
    requires r in Kept(blocks, key, protected, tooLong)
    ensures exists i | 0 <= i < |blocks| ::
              blocks[i].key == key && r in KeptOf(blocks[i], Saves(blocks[i], protected, tooLong))
  {
    hide Saves, KeptOf;
    if !(blocks[0].key == key && r in KeptOf(blocks[0], Saves(blocks[0], protected, tooLong))) {
      KeptFrom(blocks[1..], key, protected, tooLong, r);
      var i :| 0 <= i < |blocks[1..]| && blocks[1..][i].key == key
               && r in KeptOf(blocks[1..][i], Saves(blocks[1..][i], protected, tooLong));
      assert blocks[i + 1] == blocks[1..][i];
    }
  }

  lemma {:induction false} ToldFrom(blocks: seq<Block>, key: Key, r: Row)
    requires r in Told(blocks, key)
    ensures exists i | 0 <= i < |blocks| :: blocks[i].key == key && r in TextRows(blocks[i].rows)
  {
    if !(blocks[0].key == key && r in TextRows(blocks[0].rows)) {
      ToldFrom(blocks[1..], key, r);
      var i :| 0 <= i < |blocks[1..]| && blocks[1..][i].key == key && r in TextRows(blocks[1..][i].rows);
      assert blocks[i + 1] == blocks[1..][i];
    }
  }

  // Records ----------------------------------------------------------------------------------------

  lemma {:induction false} FirstIsFirst(b: Block, first: Row)
    requires IsFirst(b, first) && Increasing(TextRows(b.rows))
    ensures TextRows(b.rows) != [] && TextRows(b.rows)[0] == first
  {
    TextRowsFrom(b.rows);
    var texts := TextRows(b.rows);
    assert first in texts && texts[0] in b.rows && !IsStart(texts[0]);
    var k :| 0 <= k < |texts| && texts[k] == first;
    assert first.sequence <= texts[0].sequence;
  }

  lemma {:induction false} OwnIncreases(blocks: seq<Block>, i: nat)
    requires i < |blocks| && Increasing(Told(blocks, blocks[i].key))
    ensures Increasing(TextRows(blocks[i].rows))
  {
    var key := blocks[i].key;
    HalvesIncrease(if blocks[0].key == key then TextRows(blocks[0].rows) else [], Told(blocks[1..], key));
    if i > 0 { OwnIncreases(blocks[1..], i - 1); }
  }

  lemma {:induction false} SavedRecord(table: map<nat, Record>, b: Block)
    requires Settled(table, b) && Increasing(TextRows(b.rows))
    ensures TextRows(b.rows) != [] && SettledAt(table, b, TextRows(b.rows)[0]) && TextRows(b.rows)[0] in b.rows
  {
    var first :| IsFirst(b, first) && SettledAt(table, b, first);
    FirstIsFirst(b, first);
  }

  lemma {:induction false} RowIsUnsaved(blocks: seq<Block>, protected: set<nat>, tooLong: string -> bool, i: nat,
                                        r: Row)
    requires Fit(blocks) && i < |blocks| && !Saves(blocks[i], protected, tooLong) && r in blocks[i].rows
    ensures Unsaved(blocks, protected, tooLong, r.id)
  {
    hide Saves;
    RowHasId(blocks[i].rows, r);
    forall j | 0 <= j < |blocks| && Saves(blocks[j], protected, tooLong) ensures r.id !in Ids(blocks[j].rows) {
      if j < i { assert Ids(blocks[j].rows) !! Ids(blocks[i].rows); }
      if i < j { assert Ids(blocks[i].rows) !! Ids(blocks[j].rows); }
    }
  }

  lemma {:induction false} RowHasId(rows: seq<Row>, r: Row)
    requires r in rows
    ensures r.id in Ids(rows)
  {
    var k :| 0 <= k < |rows| && rows[k] == r;
    assert rows[k].id in Ids(rows);
  }

  /** The setting of one compacted run. */
  ghost predicate Setting(rows: seq<Row>, blocks: seq<Block>, key: Key, original: map<nat, Record>,
                          table: map<nat, Record>, protected: set<nat>, tooLong: string -> bool)
  {
    && DistinctIds(rows) && Fit(blocks) && Told(blocks, key) == Telling(rows, key) && Increasing(Told(blocks, key))
    && (forall i | 0 <= i < |blocks| :: Sound(blocks[i]) && Ids(blocks[i].rows) <= Ids(rows))
    && (forall i | 0 <= i < |rows| :: rows[i].id in original && original[rows[i].id] == Original(rows[i]))
    && Compacted(original, table, blocks, protected, tooLong)
  }

  // The record that a kept row still has.
  lemma {:induction false} KeptRecord(rows: seq<Row>, blocks: seq<Block>, key: Key, original: map<nat, Record>,
                                      table: map<nat, Record>, protected: set<nat>, tooLong: string -> bool, i: nat,
                                      r: Row)
    requires Setting(rows, blocks, key, original, table, protected, tooLong)
    requires i < |blocks| && blocks[i].key == key && r in KeptOf(blocks[i], Saves(blocks[i], protected, tooLong))
    ensures r.id in table && r in rows && Tells(r, key) && SequenceOf(table[r.id]) == r.sequence
              && Speaks(table[r.id], key)
    ensures table[r.id] == if Saves(blocks[i], protected, tooLong)
                           then TextRow(key, TextOf(blocks[i]), blocks[i].status, r.sequence) else Original(r)
  {
    var b := blocks[i];
    hide Fit, Saves, Sound, DistinctIds, Settled, Unsaved, SettledAt, Increasing, TextOf;
    OwnIncreases(blocks, i);
    TextRowsFrom(b.rows);
    ToldHolds(blocks, key, i);
    TellingFrom(rows, key);
    assert r in TextRows(b.rows);
    var k :| 0 <= k < |rows| && rows[k] == r;
    if Saves(b, protected, tooLong) {
      SavedRecord(table, b);
      assert r == TextRows(b.rows)[0] && SettledAt(table, b, r);
      SettledRecord(table, b, r);
    } else {
      RowIsUnsaved(blocks, protected, tooLong, i, r);
      assert original[rows[k].id] == Original(r);
    }
  }

  lemma {:induction false} SettledRecord(table: map<nat, Record>, b: Block, r: Row)
    requires SettledAt(table, b, r)
    ensures r.id in table && table[r.id] == TextRow(b.key, TextOf(b), b.status, r.sequence)
  {
  }

  function IdsOf(rows: seq<Row>): (r: seq<nat>)
    ensures |r| == |rows| && forall i | 0 <= i < |r| :: r[i] == rows[i].id
  {
    seq(|rows|, i requires 0 <= i < |rows| => rows[i].id)
  }

  lemma {:induction false} KeptInSequence(table: map<nat, Record>, kept: seq<Row>)
    requires Increasing(kept)
    requires forall k | 0 <= k < |kept| :: kept[k].id in table && SequenceOf(table[kept[k].id]) == kept[k].sequence
    ensures InTable(table, IdsOf(kept)) && InSequence(table, IdsOf(kept))
  {
    hide SequenceOf;
  }

  lemma {:induction false} KeptSpeaks(rows: seq<Row>, blocks: seq<Block>, key: Key, original: map<nat, Record>,
                                      table: map<nat, Record>, protected: set<nat>, tooLong: string -> bool, r: Row)
    requires Setting(rows, blocks, key, original, table, protected, tooLong)
    requires r in Kept(blocks, key, protected, tooLong)
    ensures r.id in table && r.id in Ids(rows) && SequenceOf(table[r.id]) == r.sequence && Speaks(table[r.id], key)
  {
    KeptFrom(blocks, key, protected, tooLong, r);
    hide Setting, Kept, KeptOf, Saves, Speaks, SequenceOf;
    var i :| 0 <= i < |blocks| && blocks[i].key == key && r in KeptOf(blocks[i], Saves(blocks[i], protected, tooLong));
    KeptRecord(rows, blocks, key, original, table, protected, tooLong, i, r);
    RowHasId(rows, r);
  }

  /** The kept rows are those that are read. */
  lemma {:induction false} KeptAreRead(rows: seq<Row>, blocks: seq<Block>, key: Key, original: map<nat, Record>,
                                       table: map<nat, Record>, protected: set<nat>, tooLong: string -> bool)
    requires Setting(rows, blocks, key, original, table, protected, tooLong)
    ensures Reads(table, Ids(rows), key, IdsOf(Kept(blocks, key, protected, tooLong)))
  {
    var kept := Kept(blocks, key, protected, tooLong);
    KeptIncreases(blocks, key, protected, tooLong);
    hide Setting, Kept, Ids, Speaks, SequenceOf, Increasing, InSequence;
    forall k | 0 <= k < |kept|
      ensures kept[k].id in table && kept[k].id in Ids(rows) && SequenceOf(table[kept[k].id]) == kept[k].sequence
      ensures Speaks(table[kept[k].id], key)
    {
      KeptSpeaks(rows, blocks, key, original, table, protected, tooLong, kept[k]);
    }
    KeptInSequence(table, kept);
    forall id | id in Ids(rows) && id in table && Speaks(table[id], key)
      ensures id in IdsOf(kept)
    {
      SpeakingIsKept(rows, blocks, key, original, table, protected, tooLong, id);
      var k :| 0 <= k < |kept| && kept[k].id == id;
      assert IdsOf(kept)[k] == id;
    }
  }

  lemma {:induction false} SpeakingIsKept(rows: seq<Row>, blocks: seq<Block>, key: Key, original: map<nat, Record>,
                                          table: map<nat, Record>, protected: set<nat>, tooLong: string -> bool,
                                          id: nat)
    requires Setting(rows, blocks, key, original, table, protected, tooLong)
    requires id in Ids(rows) && id in table && Speaks(table[id], key)
    ensures exists k ::
              0 <= k < |Kept(blocks, key, protected, tooLong)| && Kept(blocks, key, protected, tooLong)[k].id == id
  {
    hide Fit, Sound, DistinctIds, Saves, Settled, SettledAt, Increasing, TextOf, Kept;
    var n :| 0 <= n < |rows| && rows[n].id == id;
    var i: nat, r: Row := 0, rows[n];
    if Unsaved(blocks, protected, tooLong, id) {
      assert table[id] == Original(r);
      TellingFrom(rows, key);
      ToldFrom(blocks, key, r);
      i :| 0 <= i < |blocks| && blocks[i].key == key && r in TextRows(blocks[i].rows);
      TextRowsFrom(blocks[i].rows);
      RowHasId(blocks[i].rows, r);
    } else {
      i :| 0 <= i < |blocks| && Saves(blocks[i], protected, tooLong) && id in Ids(blocks[i].rows);
      SavedKey(rows, blocks, key, original, table, protected, tooLong, i, id);
      r := TextRows(blocks[i].rows)[0];
    }
    KeptHolds(blocks, key, protected, tooLong, i);
    assert r in KeptOf(blocks[i], Saves(blocks[i], protected, tooLong));
    var kept := Kept(blocks, key, protected, tooLong);
    var k :| 0 <= k < |kept| && kept[k] == r;
    assert kept[k].id == id;
  }

  // The one record left of a saved block speaks for its key.
  lemma {:induction false} SavedKey(rows: seq<Row>, blocks: seq<Block>, key: Key, original: map<nat, Record>,
                                    table: map<nat, Record>, protected: set<nat>, tooLong: string -> bool, i: nat,
                                    id: nat)
    requires Setting(rows, blocks, key, original, table, protected, tooLong) && i < |blocks|
    requires Saves(blocks[i], protected, tooLong) && id in Ids(blocks[i].rows) && id in table && Speaks(table[id], key)
    ensures blocks[i].key == key && TextRows(blocks[i].rows) != [] && TextRows(blocks[i].rows)[0].id == id
  {
    var b := blocks[i];
    hide Fit, Sound, DistinctIds, Saves, Increasing, TextOf, Kept, Ids;
    var first :| IsFirst(b, first) && SettledAt(table, b, first);
    assert first.id == id && b.key == key;
    OwnIncreases(blocks, i);
    FirstIsFirst(b, first);
  }

  // Listening --------------------------------------------------------------------------------------

  lemma {:induction false} ListenAppend(h: Heard, a: seq<Record>, b: seq<Record>)
    ensures Listen(h, a + b) == Listen(Listen(h, a), b)
    decreases |a|
  {
    if a == [] {
      assert a + b == b;
    } else {
      assert (a + b)[1..] == a[1..] + b && (a + b)[0] == a[0];
      ListenAppend(Hear(h, a[0]), a[1..], b);
    }
  }

  lemma {:induction false} ListenOne(h: Heard, record: Record)
    ensures Listen(h, [record]) == Hear(h, record)
  {
    assert [record][1..] == [];
  }

  lemma {:induction false} JoinOne(chunks: seq<string>, text: string)
    ensures JoinText(chunks + [text]) == JoinText(chunks) + text
  {
    if chunks == [] {
      assert [text][1..] == [];
    } else {
      assert (chunks + [text])[1..] == chunks[1..] + [text];
      JoinOne(chunks[1..], text);
    }
  }

  lemma {:induction false} Associates(a: string, b: string, c: string)
    ensures a + (b + c) == (a + b) + c
  {
  }

  /** Deltas stream: what they say is still open. */
  lemma {:induction false} DeltasStream(h: Heard, rows: seq<Row>)
    requires OnlyDeltas(rows)
    ensures Listen(h, Originals(rows)) == Heard(h.done, h.open + JoinText(DeltaTexts(rows)))
  {
    if rows != [] {
      var init, last := rows[..|rows| - 1], rows[|rows| - 1];
      DeltasStream(h, init);
      assert Originals(rows) == Originals(init) + [Original(last)];
      ListenAppend(h, Originals(init), [Original(last)]);
      ListenOne(Listen(h, Originals(init)), Original(last));
      JoinOne(DeltaTexts(init), last.event.text);
      Associates(h.open, JoinText(DeltaTexts(init)), last.event.text);
    }
  }

  /** The records that a block leaves: its one new row when it is saved, its text rows as they were otherwise. */
  function LeftOf(b: Block, saved: bool): seq<Record> {
    if saved && TextRows(b.rows) != [] then [TextRow(b.key, TextOf(b), b.status, TextRows(b.rows)[0].sequence)]
    else Originals(TextRows(b.rows))
  }

  function Left(blocks: seq<Block>, key: Key, protected: set<nat>, tooLong: string -> bool): seq<Record> {
    if blocks == [] then []
    else
      (if blocks[0].key == key then LeftOf(blocks[0], Saves(blocks[0], protected, tooLong)) else [])
        + Left(blocks[1..], key, protected, tooLong)
  }

  function BlockTexts(blocks: seq<Block>, key: Key): string {
    if blocks == [] then ""
    else (if blocks[0].key == key then TextOf(blocks[0]) else "") + BlockTexts(blocks[1..], key)
  }

  // A block that still streams, and one that its completion ends.
  lemma {:induction false} StreamingHeard(h: Heard, b: Block)
    requires Sound(b) && Streams(b)
    ensures Listen(h, Originals(TextRows(b.rows))) == Heard(h.done, h.open + TextOf(b))
  {
    DeltasStream(h, TextRows(b.rows));
    TextRowsKeepTexts(b.rows);
  }

  lemma {:induction false} CompletionHeard(h: Heard, deltas: seq<Row>, last: Row)
    requires OnlyDeltas(deltas) && last.event.Completed?
    ensures var text := if last.event.text != "" then last.event.text else h.open + JoinText(DeltaTexts(deltas));
            Listen(h, Originals(deltas + [last])) == Heard(h.done + text, "")
  {
    DeltasStream(h, deltas);
    assert Originals(deltas + [last]) == Originals(deltas) + [Original(last)];
    hide JoinText, DeltaTexts, Listen, OnlyDeltas;
    ListenAppend(h, Originals(deltas), [Original(last)]);
    ListenOne(Listen(h, Originals(deltas)), Original(last));
  }

  lemma {:induction false} CompletedHeard(h: Heard, b: Block)
    requires Sound(b) && Completes(b)
    ensures Listen(h, Originals(TextRows(b.rows)))
            == Heard(h.done + (if b.complete != "" then b.complete else h.open + TextOf(b)), "")
  {
    var texts := TextRows(b.rows);
    var init, last := texts[..|texts| - 1], texts[|texts| - 1];
    TextRowsKeepTexts(b.rows);
    assert texts == init + [last] && DeltaTexts(texts) == DeltaTexts(init) + [];
    assert DeltaTexts(init) + [] == DeltaTexts(init) && b.chunks == DeltaTexts(init);
    hide TextRows, DeltaTexts, JoinText, Listen, Textual, OnlyDeltas;
    CompletionHeard(h, init, last);
  }

  lemma {:induction false} TextOfCompleted(b: Block)
    ensures b.complete != "" ==> TextOf(b) == b.complete
  {
  }

  /** What a block leaves adds its text, and leaves nothing open unless the block stands as it was and still streams. */
  lemma {:induction false} BlockHeard(h: Heard, b: Block, saved: bool)
    requires Sound(b) && (h.open == "" || b.complete == "")
    ensures Listen(h, LeftOf(b, saved)).Text() == h.Text() + TextOf(b)
    ensures Completes(b) ==> Listen(h, LeftOf(b, saved)).open == ""
  {
    hide Textual, TextRows, TextOf, Listen, OnlyDeltas;
    Associates(h.done, h.open, TextOf(b));
    TextOfCompleted(b);
    if saved && TextRows(b.rows) != [] {
      ListenOne(h, LeftOf(b, saved)[0]);
    } else if Completes(b) {
      CompletedHeard(h, b);
    } else {
      StreamingHeard(h, b);
    }
  }

  /** No completion with text of its own is read after text that a boundary left streaming. */
  predicate Flows(streaming: bool, blocks: seq<Block>, key: Key)
    decreases |blocks|
  {
    if blocks == [] then true
    else if blocks[0].key != key then Flows(streaming, blocks[1..], key)
    else if Completes(blocks[0]) then !(streaming && blocks[0].complete != "") && Flows(false, blocks[1..], key)
    else Flows(true, blocks[1..], key)
  }

  /** Whatever is saved, the records that are left say the texts of the key's blocks. */
  lemma {:induction false} LeftHeard(h: Heard, streaming: bool, blocks: seq<Block>, key: Key, protected: set<nat>,
                                     tooLong: string -> bool)
    requires (forall i | 0 <= i < |blocks| :: Sound(blocks[i]))
    requires Flows(streaming, blocks, key) && (h.open != "" ==> streaming)
    ensures Listen(h, Left(blocks, key, protected, tooLong)).Text() == h.Text() + BlockTexts(blocks, key)
    decreases |blocks|
  {
    if blocks != [] {
      var b, rest := blocks[0], blocks[1..];
      var own := if b.key == key then LeftOf(b, Saves(b, protected, tooLong)) else [];
      var h' := Listen(h, own);
      var text := if b.key == key then TextOf(b) else "";
      assert Left(blocks, key, protected, tooLong) == own + Left(rest, key, protected, tooLong);
      assert BlockTexts(blocks, key) == text + BlockTexts(rest, key);
      assert Sound(b) && (Streams(b) || Completes(b)) && forall i | 0 <= i < |rest| :: rest[i] == blocks[i + 1];
      assert h.Text() + "" == h.Text() && Listen(h, []) == h;
      var next := if b.key != key then streaming else !Completes(b);
      StreamsSayNothing(b);
      assert Flows(next, rest, key) && (b.key == key && h.open != "" ==> b.complete == "");
      hide Sound, Completes, Streams, Flows, LeftOf, Left, BlockTexts, Listen, Saves, TextOf;
      if b.key == key { BlockHeard(h, b, Saves(b, protected, tooLong)); }
      LeftHeard(h', next, rest, key, protected, tooLong);
      ListenAppend(h, own, Left(rest, key, protected, tooLong));
      Associates(h.Text(), text, BlockTexts(rest, key));
    }
  }

  lemma {:induction false} StreamsSayNothing(b: Block)
    requires Sound(b)
    ensures !Completes(b) ==> b.complete == ""
  {
  }

  predicate Refuses(text: string) { true }

  lemma {:induction false} NothingSaved(blocks: seq<Block>, key: Key)
    ensures Left(blocks, key, {}, Refuses) == Originals(Told(blocks, key))
  {
    if blocks != [] {
      var own := if blocks[0].key == key then TextRows(blocks[0].rows) else [];
      var rest := Told(blocks[1..], key);
      assert !Saves(blocks[0], {}, Refuses);
      assert Told(blocks, key) == own + rest && LeftOf(blocks[0], false) == Originals(TextRows(blocks[0].rows));
      hide Saves, LeftOf, Told, TextRows;
      NothingSaved(blocks[1..], key);
      assert Originals(own + rest) == Originals(own) + Originals(rest);
    }
  }

  /** No completion of the key brings a text of its own. */
  predicate OnlyStreamed(rows: seq<Row>, key: Key) {
    forall i | 0 <= i < |rows| && rows[i].event.Completed? && rows[i].event.key == key :: rows[i].event.text == ""
  }

  lemma {:induction false} StreamedBlock(rows: seq<Row>, blocks: seq<Block>, key: Key, i: nat)
    requires OnlyStreamed(rows, key) && Told(blocks, key) == Telling(rows, key)
    requires i < |blocks| && blocks[i].key == key && Sound(blocks[i])
    ensures blocks[i].complete == ""
  {
    var texts := TextRows(blocks[i].rows);
    ToldHolds(blocks, key, i);
    TellingFrom(rows, key);
    hide Told, Telling, TextRows, Textual, OnlyDeltas;
    if !Streams(blocks[i]) { assert texts[|texts| - 1] in rows && Tells(texts[|texts| - 1], key); }
  }

  /** Text flows for every native identity, whose blocks end only by completion, and for every key that only streams. */
  lemma {:induction false} BlocksFlow(rows: seq<Row>, status: Status, key: Key)
    requires key.native.Some? || OnlyStreamed(rows, key)
    ensures Flows(false, Blocks(rows, status), key)
  {
    var blocks := Blocks(rows, status);
    hide Blocks, Completes, Sound, Told, Telling, OnlyStreamed;
    RowsArePreserved(rows, status, key);
    forall i, j | 0 <= i < j < |blocks| && blocks[i].key == key && blocks[j].key == key
      ensures Completes(blocks[i]) || blocks[j].complete == ""
    {
      if key.native.Some? {
        NativeBlocksComplete(rows, status, i, j);
      } else {
        BlocksAreSound(rows, status, j);
        StreamedBlock(rows, blocks, key, j);
      }
    }
    AlwaysFlows(false, blocks, key);
  }

  lemma {:induction false} AlwaysFlows(streaming: bool, blocks: seq<Block>, key: Key)
    requires forall i, j | 0 <= i < j < |blocks| && blocks[i].key == key && blocks[j].key == key ::
               Completes(blocks[i]) || blocks[j].complete == ""
    requires streaming ==> forall i | 0 <= i < |blocks| && blocks[i].key == key :: blocks[i].complete == ""
    ensures Flows(streaming, blocks, key)
    decreases |blocks|
  {
    if blocks != [] {
      hide Completes;
      assert forall i | 0 <= i < |blocks[1..]| :: blocks[1..][i] == blocks[i + 1];
      AlwaysFlows(if blocks[0].key != key then streaming else !Completes(blocks[0]), blocks[1..], key);
    }
  }

  lemma {:induction false} DeltasSaySomething(rows: seq<Row>)
    requires rows != [] && OnlyDeltas(rows) && forall i | 0 <= i < |rows| :: rows[i].event.text != ""
    ensures JoinText(DeltaTexts(rows)) != ""
  {
    var init, last := rows[..|rows| - 1], rows[|rows| - 1];
    JoinOne(DeltaTexts(init), last.event.text);
  }

  // Every delta of these rows has a text.
  predicate Audible(rows: seq<Row>) { forall i | 0 <= i < |rows| && rows[i].event.Delta? :: rows[i].event.text != "" }

  lemma {:induction false} StreamingSaysSomething(b: Block)
    requires Sound(b) && Streams(b) && Audible(TextRows(b.rows))
    ensures TextOf(b) != ""
  {
    TextRowsFrom(b.rows);
    TextRowsKeepTexts(b.rows);
    hide TextRows, DeltaTexts, JoinText;
    DeltasSaySomething(TextRows(b.rows));
  }

  // One standing block: no more is heard than its text, and less when its completion stands for what was streaming.
  lemma {:induction false} BlockAtMost(h: Heard, b: Block)
    requires Sound(b) && Audible(TextRows(b.rows))
    ensures var h' := Listen(h, Originals(TextRows(b.rows)));
      && |h'.Text()| <= |h.Text()| + |TextOf(b)|
      && (Completes(b) ==> h'.open == "")
      && (Completes(b) && h.open != "" && b.complete != "" ==> |h'.Text()| < |h.Text()| + |TextOf(b)|)
      && (!Completes(b) ==> h'.open != "")
  {
    TextOfCompleted(b);
    hide TextRows, TextOf, Listen, Textual, Audible, OnlyDeltas;
    if Completes(b) { CompletedHeard(h, b); } else { StreamingHeard(h, b); StreamingSaysSomething(b); }
  }

  lemma {:induction false} AudibleHalves(a: seq<Row>, b: seq<Row>)
    requires Audible(a + b)
    ensures Audible(a) && Audible(b)
  {
    assert forall i | 0 <= i < |a| :: (a + b)[i] == a[i];
    assert forall i | 0 <= i < |b| :: (a + b)[|a| + i] == b[i];
  }

  function Own(blocks: seq<Block>, key: Key): seq<Row>
    requires blocks != []
  {
    if blocks[0].key == key then TextRows(blocks[0].rows) else []
  }

  lemma {:induction false} FlowsNext(h: Heard, blocks: seq<Block>, key: Key, h': Heard)
    requires blocks != [] && Flows(h'.open != "", blocks[1..], key)
    requires if blocks[0].key != key then h' == h else (h'.open == "" <==> Completes(blocks[0]))
    requires blocks[0].key == key && Completes(blocks[0]) && h.open != "" ==> blocks[0].complete == ""
    ensures Flows(h.open != "", blocks, key)
  {
    hide Completes;
  }

  // The first block heard.
  lemma {:induction false} HeardNext(h: Heard, blocks: seq<Block>, key: Key)
    requires blocks != [] && Sound(blocks[0]) && Audible(Told(blocks, key))
    ensures var h', rest := Listen(h, Originals(Own(blocks, key))), blocks[1..];
      && Audible(Told(rest, key))
      && Listen(h, Originals(Told(blocks, key))) == Listen(h', Originals(Told(rest, key)))
      && |h'.Text()| + |BlockTexts(rest, key)| <= |h.Text()| + |BlockTexts(blocks, key)|
      && (Flows(h'.open != "", rest, key) && !Flows(h.open != "", blocks, key) ==>
            |h'.Text()| + |BlockTexts(rest, key)| < |h.Text()| + |BlockTexts(blocks, key)|)
  {
    var b, rest, own := blocks[0], blocks[1..], Own(blocks, key);
    var h' := Listen(h, Originals(own));
    assert Told(blocks, key) == own + Told(rest, key);
    assert |BlockTexts(blocks, key)| == |if b.key == key then TextOf(b) else ""| + |BlockTexts(rest, key)|;
    assert b.key != key ==> Originals(own) == [] && h' == h;
    hide Sound, Completes, TextRows, Told, BlockTexts, Listen, TextOf, Audible, Flows;
    AudibleHalves(own, Told(rest, key));
    assert Originals(own + Told(rest, key)) == Originals(own) + Originals(Told(rest, key));
    ListenAppend(h, Originals(own), Originals(Told(rest, key)));
    if b.key == key { BlockAtMost(h, b); }
    if Flows(h'.open != "", rest, key)
       && |h'.Text()| + |BlockTexts(rest, key)| == |h.Text()| + |BlockTexts(blocks, key)| {
      FlowsNext(h, blocks, key, h');
    }
  }

  /** No more is heard than the texts of the blocks, and less unless text flows. */
  lemma {:induction false} HeardAtMost(h: Heard, blocks: seq<Block>, key: Key)
    requires (forall i | 0 <= i < |blocks| :: Sound(blocks[i])) && Audible(Told(blocks, key))
    ensures var text := Listen(h, Originals(Told(blocks, key))).Text();
      && |text| <= |h.Text()| + |BlockTexts(blocks, key)|
      && (|text| == |h.Text()| + |BlockTexts(blocks, key)| ==> Flows(h.open != "", blocks, key))
    decreases |blocks|
  {
    if blocks != [] {
      assert Sound(blocks[0]) && forall i | 0 <= i < |blocks[1..]| :: blocks[1..][i] == blocks[i + 1];
      hide Sound, Told, BlockTexts, Listen, Audible, Flows, Own, Originals;
      HeardNext(h, blocks, key);
      HeardAtMost(Listen(h, Originals(Own(blocks, key))), blocks[1..], key);
    }
  }

  /** The blocks of a key spell what its rows say exactly when no completion with text of its own follows text that a
      boundary closed; of a native identity and of a key that only streams that always holds. */
  lemma {:induction false} BlocksSpellTheTextIff(rows: seq<Row>, status: Status, key: Key)
    ensures Spoken(rows, key) == BlockTexts(Blocks(rows, status), key) <==> Flows(false, Blocks(rows, status), key)
    ensures key.native.Some? || OnlyStreamed(rows, key) ==> Flows(false, Blocks(rows, status), key)
  {
    var blocks := Blocks(rows, status);
    if key.native.Some? || OnlyStreamed(rows, key) { BlocksFlow(rows, status, key); }
    TellingIsAudible(rows, key);
    hide Blocks, Sound, Flows, Listen, Left, Told, Telling, OnlyStreamed, Audible;
    forall i | 0 <= i < |blocks| ensures Sound(blocks[i]) { BlocksAreSound(rows, status, i); }
    RowsArePreserved(rows, status, key);
    NothingSaved(blocks, key);
    assert SILENCE.Text() == "";
    if Flows(false, blocks, key) { LeftHeard(SILENCE, false, blocks, key, {}, Refuses); }
    HeardAtMost(SILENCE, blocks, key);
  }

  const UNNAMED := Key(Narration, None)
  const CUT_ROWS := [Row(0, 0, Delta(UNNAMED, "a")), Row(1, 1, Boundary), Row(2, 2, Completed(UNNAMED, "b", false))]

  /** A completion without identity stands for what a reader heard, and yet takes no text back from a block that a
      boundary closed: compaction keeps the texts of both. */
  lemma {:induction false} CutTextDoesNotFlow()
    ensures !Flows(false, Blocks(CUT_ROWS, BlockCompleted), UNNAMED)
  {
    var r0, r1, r2 := CUT_ROWS[0], CUT_ROWS[1], CUT_ROWS[2];
    var b := Block(UNNAMED, [r0], ["a"], "", Interrupted);
    var c := b.(status := BlockCompleted);
    var d := Block(UNNAMED, [r2], [], "b", BlockCompleted);
    assert CUT_ROWS[..2] == [r0, r1] && [r0, r1][..1] == [r0] && [r0][..0] == [];
    assert Grouped([]) == NOTHING;
    assert Next(NOTHING, r0) == Grouping([b], [], []);
    assert Grouped([r0]) == Next(Grouped([]), r0);
    assert Grouped([r0, r1]) == Next(Grouped([r0]), r1);
    assert Closing([b], None) == [c] && Staying([b], None) == [];
    assert Grouped([r0, r1]) == Grouping([], [c], []);
    assert Grouped(CUT_ROWS) == Next(Grouped([r0, r1]), r2);
    assert d.rows == [] + [r2] + StartsOf([], UNNAMED, true);
    assert Blocks(CUT_ROWS, BlockCompleted) == [c, d];
    assert TextRows([r0]) == [r0] && TextRows([r2]) == [r2];
    assert [c, d][1..] == [d];
    assert Completes(d) && !Completes(c);
  }

  lemma {:induction false} TellingIsAudible(rows: seq<Row>, key: Key)
    ensures Audible(Telling(rows, key))
  {
    TellingFrom(rows, key);
    var said := Telling(rows, key);
    forall i | 0 <= i < |said| && said[i].event.Delta? ensures said[i].event.text != "" { assert said[i] in said; }
  }

  // The records of the kept rows of one block.
  lemma {:induction false} BlockLeft(rows: seq<Row>, blocks: seq<Block>, key: Key, original: map<nat, Record>,
                                     table: map<nat, Record>, protected: set<nat>, tooLong: string -> bool, i: nat)
    requires Setting(rows, blocks, key, original, table, protected, tooLong)
    requires i < |blocks| && blocks[i].key == key
    ensures var ids := IdsOf(KeptOf(blocks[i], Saves(blocks[i], protected, tooLong)));
            InTable(table, ids) && RecordsOf(table, ids) == LeftOf(blocks[i], Saves(blocks[i], protected, tooLong))
  {
    var saved := Saves(blocks[i], protected, tooLong);
    var kept := KeptOf(blocks[i], saved);
    assert Sound(blocks[i]);
    TextRowsFrom(blocks[i].rows);
    hide Setting, Saves, TextRows, Sound, TextOf;
    forall k | 0 <= k < |kept| ensures kept[k].id in table {
      KeptRecord(rows, blocks, key, original, table, protected, tooLong, i, kept[k]);
    }
    forall k | 0 <= k < |kept| ensures table[kept[k].id] == LeftOf(blocks[i], saved)[k] {
      KeptRecord(rows, blocks, key, original, table, protected, tooLong, i, kept[k]);
    }
  }

  lemma {:induction false} KeptLeft(rows: seq<Row>, blocks: seq<Block>, key: Key, original: map<nat, Record>,
                                    table: map<nat, Record>, protected: set<nat>, tooLong: string -> bool, n: nat)
    requires Setting(rows, blocks, key, original, table, protected, tooLong) && n <= |blocks|
    ensures var ids := IdsOf(Kept(blocks[n..], key, protected, tooLong));
            InTable(table, ids) && RecordsOf(table, ids) == Left(blocks[n..], key, protected, tooLong)
    decreases |blocks| - n
  {
    hide Setting;
    if n < |blocks| {
      var b, rest := blocks[n], Kept(blocks[n + 1..], key, protected, tooLong);
      var kept := if b.key == key then KeptOf(b, Saves(b, protected, tooLong)) else [];
      assert blocks[n..][1..] == blocks[n + 1..] && blocks[n..][0] == b;
      assert Kept(blocks[n..], key, protected, tooLong) == kept + rest;
      KeptLeft(rows, blocks, key, original, table, protected, tooLong, n + 1);
      if b.key == key { BlockLeft(rows, blocks, key, original, table, protected, tooLong, n); }
      hide Kept, Saves, KeptOf, LeftOf;
      assert IdsOf(kept + rest) == IdsOf(kept) + IdsOf(rest);
      assert RecordsOf(table, IdsOf(kept) + IdsOf(rest))
             == RecordsOf(table, IdsOf(kept)) + RecordsOf(table, IdsOf(rest));
    } else {
      assert blocks[n..] == [];
    }
  }

  // There is one way to read ------------------------------------------------------------------------

  lemma {:induction false} LargestIsLast(table: map<nat, Record>, a: seq<nat>, b: seq<nat>)
    requires InTable(table, a) && InTable(table, b) && InSequence(table, a) && InSequence(table, b)
    requires a != [] && b != [] && forall id :: id in a <==> id in b
    ensures a[|a| - 1] == b[|b| - 1]
  {
    var x, y := a[|a| - 1], b[|b| - 1];
    assert x in a && y in b;
    var i :| 0 <= i < |b| && b[i] == x;
    var j :| 0 <= j < |a| && a[j] == y;
  }

  // All but the last of a reading is a reading of all but the last.
  lemma {:induction false} BeforeLast(table: map<nat, Record>, a: seq<nat>, init: seq<nat>)
    requires InTable(table, a) && InSequence(table, a) && a != [] && init == a[..|a| - 1]
    ensures InTable(table, init) && InSequence(table, init)
    ensures forall id :: id in init <==> id in a && id != a[|a| - 1]
  {
    assert a == init + [a[|a| - 1]];
  }

  lemma {:induction false} EmptyAlike(a: seq<nat>, b: seq<nat>)
    requires forall id :: id in a <==> id in b
    ensures a == [] <==> b == []
  {
    if a != [] { assert a[0] in a; }
    if b != [] { assert b[0] in b; }
  }

  lemma {:induction false} ReadingIsUnique(table: map<nat, Record>, a: seq<nat>, b: seq<nat>)
    requires InTable(table, a) && InTable(table, b) && InSequence(table, a) && InSequence(table, b)
    requires forall id :: id in a <==> id in b
    ensures a == b
  {
    hide InTable, InSequence;
    EmptyAlike(a, b);
    if a != [] {
      LargestIsLast(table, a, b);
      var x, y := a[..|a| - 1], b[..|b| - 1];
      BeforeLast(table, a, x);
      BeforeLast(table, b, y);
      ReadingIsUnique(table, x, y);
      assert a == x + [a[|a| - 1]] && b == y + [b[|b| - 1]];
    }
  }

  // What compaction keeps for a reader ---------------------------------------------------------------

  lemma {:induction false} RunIsSet(rows: seq<Row>, status: Status, key: Key, original: map<nat, Record>,
                                    table: map<nat, Record>, protected: set<nat>, tooLong: string -> bool)
    requires DistinctIds(rows) && Increasing(rows)
    requires forall i | 0 <= i < |rows| :: rows[i].id in original && original[rows[i].id] == Original(rows[i])
    requires Compacted(original, table, Blocks(rows, status), protected, tooLong)
    ensures Setting(rows, Blocks(rows, status), key, original, table, protected, tooLong)
  {
    var blocks := Blocks(rows, status);
    hide Blocks, Compacted, Sound, Fit, Increasing, DistinctIds, Telling, Told, Ids;
    BlocksFit(rows, status);
    RowsArePreserved(rows, status, key);
    BlocksIncrease(rows, status, key);
    forall i | 0 <= i < |blocks| ensures Sound(blocks[i]) { BlocksAreSound(rows, status, i); }
  }

  /** After compaction, whatever was protected or too long, reading the records of a key in order of sequence gives what
      its rows said, complete and in order. */
  lemma {:induction false} ReadingSpellsTheText(rows: seq<Row>, status: Status, key: Key, original: map<nat, Record>,
                                                table: map<nat, Record>, protected: set<nat>, tooLong: string -> bool,
                                                read: seq<nat>)
    requires DistinctIds(rows) && Increasing(rows) && Flows(false, Blocks(rows, status), key)
    requires forall i | 0 <= i < |rows| :: rows[i].id in original && original[rows[i].id] == Original(rows[i])
    requires Compacted(original, table, Blocks(rows, status), protected, tooLong)
    requires Reads(table, Ids(rows), key, read)
    ensures Listen(SILENCE, RecordsOf(table, read)).Text() == Spoken(rows, key)
  {
    var blocks := Blocks(rows, status);
    RunIsSet(rows, status, key, original, table, protected, tooLong);
    BlocksSpellTheTextIff(rows, status, key);
    hide Blocks, Setting, Compacted, Listen, Kept, Increasing, DistinctIds, OnlyStreamed, Sound, Flows, Left, Spoken;
    KeptAreRead(rows, blocks, key, original, table, protected, tooLong);
    ReadingIsUnique(table, read, IdsOf(Kept(blocks, key, protected, tooLong)));
    assert blocks[0..] == blocks;
    KeptLeft(rows, blocks, key, original, table, protected, tooLong, 0);
    forall i | 0 <= i < |blocks| ensures Sound(blocks[i]) { BlocksAreSound(rows, status, i); }
    LeftHeard(SILENCE, false, blocks, key, protected, tooLong);
  }

  lemma {:induction false} NothingCompacted(table: map<nat, Record>, blocks: seq<Block>, protected: set<nat>)
    ensures Compacted(table, table, blocks, protected, Refuses)
  {
  }

  /** So a reader finds the same text before compaction and after. */
  lemma {:induction false} CompactionKeepsReading(rows: seq<Row>, status: Status, key: Key, original: map<nat, Record>,
                                                  table: map<nat, Record>, protected: set<nat>, tooLong: string -> bool,
                                                  before: seq<nat>, after: seq<nat>)
    requires DistinctIds(rows) && Increasing(rows) && Flows(false, Blocks(rows, status), key)
    requires forall i | 0 <= i < |rows| :: rows[i].id in original && original[rows[i].id] == Original(rows[i])
    requires Compacted(original, table, Blocks(rows, status), protected, tooLong)
    requires Reads(original, Ids(rows), key, before) && Reads(table, Ids(rows), key, after)
    ensures Listen(SILENCE, RecordsOf(original, before)).Text() == Listen(SILENCE, RecordsOf(table, after)).Text()
  {
    ReadingSpellsTheText(rows, status, key, original, table, protected, tooLong, after);
    NothingCompacted(original, Blocks(rows, status), protected);
    ReadingSpellsTheText(rows, status, key, original, original, protected, Refuses, before);
    hide Reads, Listen, Spoken, Compacted;
  }

  /** Without completion texts that is the text of the key's deltas. */
  lemma {:induction false} StreamedIsSpoken(rows: seq<Row>, key: Key)
    requires OnlyStreamed(rows, key)
    ensures Spoken(rows, key) == JoinText(Texts(rows, key))
  {
    TellingFrom(rows, key);
    TextsAreTold(rows, key);
    var said := Telling(rows, key);
    forall i | 0 <= i < |said| && said[i].event.Completed? ensures said[i].event.text == "" {
      assert said[i] in rows && Tells(said[i], key);
    }
    DeltasAreHeard(said);
  }

  lemma {:induction false} DeltasAreHeard(rows: seq<Row>)
    requires forall i | 0 <= i < |rows| && rows[i].event.Completed? :: rows[i].event.text == ""
    ensures Listen(SILENCE, Originals(rows)).Text() == JoinText(DeltaTexts(rows))
  {
    if rows != [] {
      var init, last := rows[..|rows| - 1], rows[|rows| - 1];
      DeltasAreHeard(init);
      assert Originals(rows) == Originals(init) + [Original(last)];
      ListenAppend(SILENCE, Originals(init), [Original(last)]);
      ListenOne(Listen(SILENCE, Originals(init)), Original(last));
      var heard := Listen(SILENCE, Originals(init));
      if last.event.Delta? {
        JoinOne(DeltaTexts(init), last.event.text);
        Associates(heard.done, heard.open, last.event.text);
      }
      assert heard.Text() + "" == heard.Text();
      assert DeltaTexts(init) + [] == DeltaTexts(init);
    }
  }
}
