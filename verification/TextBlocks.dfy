/** Grouping the streamed text of one run into blocks (scripts/aggregate-execution-text.py:56-105). */
module TextBlocks {
  import opened Options

  datatype Kind = Narration | Thought | ReasoningSummary
  datatype Key = Key(kind: Kind, native: Option<nat>)

  // One evidence row. A delta whose text is no string carries the empty one, a completion without text too.
  datatype Event =
    | Started(key: Key)
    | Delta(key: Key, text: string)
    | Completed(key: Key, text: string, failed: bool)
    | Boundary
    | Other

  datatype Row = Row(id: nat, sequence: nat, event: Event)
  datatype Status = BlockCompleted | Interrupted
  datatype Block = Block(key: Key, rows: seq<Row>, chunks: seq<string>, complete: string, status: Status)

  // `active` in order of opening; `starts` holds the start rows that no block has taken yet.
  datatype Grouping = Grouping(active: seq<Block>, finished: seq<Block>, starts: seq<Row>)

  const NOTHING := Grouping([], [], [])

  predicate IsStart(row: Row) { row.event.Started? }
  predicate Anonymous(b: Block) { b.key.native == None }

  // close_anonymous: in order, every anonymous block of another kind.
  predicate Closes(b: Block, except: Option<Kind>) { Anonymous(b) && except != Some(b.key.kind) }

  function Closing(active: seq<Block>, except: Option<Kind>): seq<Block> {
    if active == [] then []
    else
      var closed := if Closes(active[0], except) then [active[0].(status := BlockCompleted)] else [];
      closed + Closing(active[1..], except)
  }

  function Staying(active: seq<Block>, except: Option<Kind>): seq<Block> {
    if active == [] then []
    else (if Closes(active[0], except) then [] else [active[0]]) + Staying(active[1..], except)
  }

  function CloseAnonymous(g: Grouping, except: Option<Kind>): Grouping {
    g.(active := Staying(g.active, except), finished := g.finished + Closing(g.active, except))
  }

  function IndexOf(active: seq<Block>, key: Key): (i: Option<nat>)
    ensures i.Some? ==> i.value < |active| && active[i.value].key == key
    ensures i.None? ==> forall j | 0 <= j < |active| :: active[j].key != key
  {
    if active == [] then None
    else if active[0].key == key then Some(0)
    else var i := IndexOf(active[1..], key); if i.Some? then Some(i.value + 1) else None
  }

  function StartsOf(starts: seq<Row>, key: Key, of: bool): seq<Row> {
    if starts == [] then []
    else (if (starts[0].event == Started(key)) == of then [starts[0]] else []) + StartsOf(starts[1..], key, of)
  }

  function AddDelta(active: seq<Block>, row: Row): seq<Block>
    requires row.event.Delta?
  {
    var i := IndexOf(active, row.event.key);
    if i.None? then active + [Block(row.event.key, [row], [row.event.text], "", Interrupted)]
    else active[i.value := active[i.value].(rows := active[i.value].rows + [row],
                                            chunks := active[i.value].chunks + [row.event.text])]
  }

  function Removed(active: seq<Block>, i: Option<nat>): seq<Block>
    requires i.Some? ==> i.value < |active|
  {
    if i.None? then active else active[..i.value] + active[i.value + 1..]
  }

  function CompleteBlock(g: Grouping, row: Row): Grouping
    requires row.event.Completed?
  {
    var key := row.event.key;
    var i := IndexOf(g.active, key);
    var b := if i.Some? then g.active[i.value] else Block(key, [], [], "", Interrupted);
    Grouping(Removed(g.active, i),
      g.finished + [b.(rows := b.rows + [row] + StartsOf(g.starts, key, true), complete := row.event.text,
                       status := if row.event.failed then Interrupted else BlockCompleted)],
      StartsOf(g.starts, key, false))
  }

  function Next(g: Grouping, row: Row): Grouping {
    match row.event
    case Started(_) => g.(starts := g.starts + [row])
    case Delta(key, text) =>
      var g1 := CloseAnonymous(g, if key.native == None then Some(key.kind) else None);
      if text == "" then g1 else g1.(active := AddDelta(g1.active, row))
    case Completed(_, _, _) => CompleteBlock(g, row)
    case Boundary => CloseAnonymous(g, None)
    case Other => g
  }

  function Grouped(rows: seq<Row>): Grouping {
    if rows == [] then NOTHING else Next(Grouped(rows[..|rows| - 1]), rows[|rows| - 1])
  }

  // What is still open is finished in order of opening.
  function Finishing(active: seq<Block>, starts: seq<Row>, status: Status): seq<Block> {
    if active == [] then []
    else
      [active[0].(status := status, rows := active[0].rows + StartsOf(starts, active[0].key, true))]
        + Finishing(active[1..], StartsOf(starts, active[0].key, false), status)
  }

  function Blocks(rows: seq<Row>, status: Status): seq<Block> {
    var g := Grouped(rows); g.finished + Finishing(g.active, g.starts, status)
  }

  /** blocks_for_run, row by row. */
  method BlocksForRun(rows: seq<Row>, succeeded: bool) returns (finished: seq<Block>)
    ensures finished == Blocks(rows, if succeeded then BlockCompleted else Interrupted)
  {
    var active: seq<Block>, starts: seq<Row> := [], [];
    finished := [];
    var n := 0;
    while n < |rows|
      invariant 0 <= n <= |rows| && Grouping(active, finished, starts) == Grouped(rows[..n])
    {
      assert rows[..n + 1][..n] == rows[..n];
      var row := rows[n];
      match row.event {
        case Started(_) => starts := starts + [row];
        case Delta(key, text) =>
          var except := if key.native == None then Some(key.kind) else None;
          finished := finished + Closing(active, except);
          active := Staying(active, except);
          if text != "" { active := AddDelta(active, row); }
        case Completed(key, text, failed) =>
          var i := IndexOf(active, key);
          var block := Block(key, [], [], "", Interrupted);
          if i.Some? {
            block := active[i.value];
            active := active[..i.value] + active[i.value + 1..];
          }
          finished := finished + [block.(rows := block.rows + [row] + StartsOf(starts, key, true), complete := text,
                                         status := if failed then Interrupted else BlockCompleted)];
          starts := StartsOf(starts, key, false);
        case Boundary =>
          finished := finished + Closing(active, None);
          active := Staying(active, None);
        case Other =>
      }
      n := n + 1;
    }
    assert rows[..n] == rows;
    var status := if succeeded then BlockCompleted else Interrupted;
    ghost var done := finished;
    while active != []
      invariant done + Finishing(Grouped(rows).active, Grouped(rows).starts, status)
                  == finished + Finishing(active, starts, status)
      decreases |active|
    {
      var block := active[0];
      var last := block.(status := status, rows := block.rows + StartsOf(starts, block.key, true));
      starts := StartsOf(starts, block.key, false);
      active := active[1..];
      assert finished + ([last] + Finishing(active, starts, status))
             == (finished + [last]) + Finishing(active, starts, status);
      finished := finished + [last];
    }
  }

  // Text rows --------------------------------------------------------------------------------------

  /** What a row says for a key: a delta with text, or a completion. */
  predicate Tells(row: Row, key: Key) {
    (row.event.Delta? && row.event.key == key && row.event.text != "") || (row.event.Completed? && row.event.key == key)
  }

  function Telling(rows: seq<Row>, key: Key): seq<Row> {
    if rows == [] then []
    else
      var last := rows[|rows| - 1];
      Telling(rows[..|rows| - 1], key) + (if Tells(last, key) then [last] else [])
  }

  function TextRows(rows: seq<Row>): seq<Row> {
    if rows == [] then []
    else
      var last := rows[|rows| - 1];
      TextRows(rows[..|rows| - 1]) + (if IsStart(last) then [] else [last])
  }

  /** The text rows of a key's blocks, block by block. */
  function Told(blocks: seq<Block>, key: Key): seq<Row> {
    if blocks == [] then []
    else (if blocks[0].key == key then TextRows(blocks[0].rows) else []) + Told(blocks[1..], key)
  }

  lemma {:induction false} TextRowsAppend(a: seq<Row>, b: seq<Row>)
    ensures TextRows(a + b) == TextRows(a) + TextRows(b)
  {
    if b == [] {
      assert a + b == a;
    } else {
      var init, last := b[..|b| - 1], b[|b| - 1];
      TextRowsAppend(a, init);
      assert (a + b)[..|a + b| - 1] == a + init && (a + b)[|a + b| - 1] == last;
    }
  }

  predicate AllStarts(rows: seq<Row>) { forall i | 0 <= i < |rows| :: IsStart(rows[i]) }

  lemma {:induction false} StartsTellNothing(rows: seq<Row>)
    requires AllStarts(rows)
    ensures TextRows(rows) == []
  {
    if rows != [] {
      StartsTellNothing(rows[..|rows| - 1]);
      assert IsStart(rows[|rows| - 1]);
    }
  }

  lemma {:induction false} StartsStayStarts(starts: seq<Row>, key: Key, of: bool)
    requires AllStarts(starts)
    ensures AllStarts(StartsOf(starts, key, of))
  {
    if starts != [] {
      assert IsStart(starts[0]) && AllStarts(starts[1..]);
      StartsStayStarts(starts[1..], key, of);
    }
  }

  // A block that takes a row, and then some starts, tells that row last.
  lemma {:induction false} TellsOneMore(rows: seq<Row>, row: Row, starts: seq<Row>)
    requires !IsStart(row) && AllStarts(starts)
    ensures TextRows(rows + [row] + starts) == TextRows(rows) + [row]
    ensures TextRows(rows + [row]) == TextRows(rows) + [row]
  {
    assert (rows + [row])[..|rows|] == rows;
    TextRowsAppend(rows + [row], starts);
    StartsTellNothing(starts);
  }

  lemma {:induction false} ToldAppend(a: seq<Block>, b: seq<Block>, key: Key)
    ensures Told(a + b, key) == Told(a, key) + Told(b, key)
  {
    if a == [] {
      assert a + b == b;
    } else {
      assert (a + b)[1..] == a[1..] + b && (a + b)[0] == a[0];
      ToldAppend(a[1..], b, key);
    }
  }

  predicate DistinctKeys(active: seq<Block>) { forall i, j | 0 <= i < j < |active| :: active[i].key != active[j].key }

  predicate OneAnonymous(active: seq<Block>) {
    forall i, j | 0 <= i < j < |active| :: !(Anonymous(active[i]) && Anonymous(active[j]))
  }

  lemma {:induction false} NoSuchKey(active: seq<Block>, key: Key)
    requires forall i | 0 <= i < |active| :: active[i].key != key
    ensures Told(active, key) == []
  {
    if active != [] { NoSuchKey(active[1..], key); }
  }

  /** With distinct keys a key's open text rows are those of its one block. */
  lemma {:induction false} OpenTold(active: seq<Block>, i: nat)
    requires DistinctKeys(active) && i < |active|
    ensures Told(active, active[i].key) == TextRows(active[i].rows)
  {
    if i == 0 {
      forall j | 0 <= j < |active[1..]| ensures active[1..][j].key != active[0].key {
        assert active[1..][j] == active[j + 1];
      }
      NoSuchKey(active[1..], active[0].key);
    } else {
      OpenTold(active[1..], i - 1);
    }
  }

  function RowsOf(blocks: seq<Block>): multiset<Row> {
    if blocks == [] then multiset{} else multiset(blocks[0].rows) + RowsOf(blocks[1..])
  }

  function ClosedFirst(b: Block, except: Option<Kind>): seq<Block> {
    if Closes(b, except) then [b.(status := BlockCompleted)] else []
  }

  function StayedFirst(b: Block, except: Option<Kind>): seq<Block> { if Closes(b, except) then [] else [b] }

  lemma {:induction false} FirstBlock(active: seq<Block>, except: Option<Kind>, key: Key)
    requires active != []
    ensures Closing(active, except) == ClosedFirst(active[0], except) + Closing(active[1..], except)
    ensures Staying(active, except) == StayedFirst(active[0], except) + Staying(active[1..], except)
    ensures var own := if active[0].key == key then TextRows(active[0].rows) else [];
      && Told(active, key) == own + Told(active[1..], key)
      && Told(ClosedFirst(active[0], except), key) == (if Closes(active[0], except) then own else [])
      && Told(StayedFirst(active[0], except), key) == (if Closes(active[0], except) then [] else own)
    ensures RowsOf(ClosedFirst(active[0], except)) + RowsOf(StayedFirst(active[0], except)) == multiset(active[0].rows)
  {
  }

  lemma {:induction false} Joined(closed: seq<Row>, stayed: seq<Row>, closing: seq<Row>, staying: seq<Row>,
                                  own: seq<Row>)
    requires (closed == own && stayed == []) || (closed == [] && stayed == own)
    requires own == [] || closing + staying == []
    ensures (closed + closing) + (stayed + staying) == own + (closing + staying)
  {
    if own != [] { assert |closing + staying| == |closing| + |staying|; }
  }

  /** Closing moves the text rows of a key from the open to the finished blocks, in order. */
  lemma {:induction false} ClosingMoves(active: seq<Block>, except: Option<Kind>, key: Key)
    requires DistinctKeys(active)
    ensures Told(Closing(active, except), key) + Told(Staying(active, except), key) == Told(active, key)
  {
    if active != [] {
      var b, rest := active[0], active[1..];
      ClosingMoves(rest, except, key);
      if b.key == key {
        forall j | 0 <= j < |rest| ensures rest[j].key != key { assert rest[j] == active[j + 1]; }
        NoSuchKey(rest, key);
      }
      FirstBlock(active, except, key);
      assert DistinctKeys(rest);
      hide Closing, Staying, Told, ClosedFirst, StayedFirst, DistinctKeys, Closes;
      ToldAppend(ClosedFirst(b, except), Closing(rest, except), key);
      ToldAppend(StayedFirst(b, except), Staying(rest, except), key);
      Joined(Told(ClosedFirst(b, except), key), Told(StayedFirst(b, except), key),
             Told(Closing(rest, except), key), Told(Staying(rest, except), key),
             if b.key == key then TextRows(b.rows) else []);
    }
  }

  lemma {:induction false} StayingFrom(active: seq<Block>, except: Option<Kind>, b: Block)
    ensures b in Staying(active, except) <==> b in active && !Closes(b, except)
  {
    if active != [] {
      StayingFrom(active[1..], except, b);
      assert active == [active[0]] + active[1..];
    }
  }

  lemma {:induction false} StayingKeeps(active: seq<Block>, except: Option<Kind>)
    requires DistinctKeys(active)
    ensures DistinctKeys(Staying(active, except))
  {
    if active != [] {
      StayingKeeps(active[1..], except);
      var rest := Staying(active[1..], except);
      forall j | 0 <= j < |rest| ensures rest[j].key != active[0].key {
        assert rest[j] in rest;
        StayingFrom(active[1..], except, rest[j]);
        var k :| 0 <= k < |active[1..]| && active[1..][k] == rest[j];
        assert active[k + 1] == rest[j];
      }
    }
  }

  lemma {:induction false} StayingAlone(active: seq<Block>, except: Option<Kind>)
    requires DistinctKeys(active)
    ensures OneAnonymous(Staying(active, except))
    ensures forall i | 0 <= i < |Staying(active, except)| && Anonymous(Staying(active, except)[i]) ::
              except == Some(Staying(active, except)[i].key.kind)
  {
    StayingKeeps(active, except);
    var stay := Staying(active, except);
    forall i | 0 <= i < |stay| && Anonymous(stay[i]) ensures except == Some(stay[i].key.kind) {
      assert stay[i] in stay;
      StayingFrom(active, except, stay[i]);
    }
  }

  ghost predicate Good(rows: seq<Row>, g: Grouping) {
    DistinctKeys(g.active) && OneAnonymous(g.active) && AllStarts(g.starts)
    && forall key :: Told(g.finished, key) + Told(g.active, key) == Telling(rows, key)
  }

  lemma {:induction false} AddedKeys(active: seq<Block>, row: Row)
    requires DistinctKeys(active) && row.event.Delta?
    ensures DistinctKeys(AddDelta(active, row))
  {
  }

  lemma {:induction false} ToldAlone(b: Block, key: Key)
    ensures Told([b], key) == if b.key == key then TextRows(b.rows) else []
  {
  }

  lemma {:induction false} AddedNew(active: seq<Block>, b: Block, row: Row, key: Key)
    requires row.event.Delta? && b.key == row.event.key && b.rows == [row]
    ensures Told(active + [b], key) == Told(active, key) + (if row.event.key == key then [row] else [])
  {
    ToldAppend(active, [b], key);
    ToldAlone(b, key);
    TellsOneMore([], row, []);
    NothingTells();
    assert [] + [row] == [row];
    hide Told, TextRows;
  }

  lemma {:induction false} AddedOwn(active: seq<Block>, i: nat, b: Block, row: Row)
    requires DistinctKeys(active) && i < |active| && b.key == active[i].key && !IsStart(row)
               && b.rows == active[i].rows + [row]
    ensures Told(active[i := b], b.key) == Told(active, b.key) + [row]
  {
    TellsOneMore(active[i].rows, row, []);
    OpenTold(active, i);
    assert DistinctKeys(active[i := b]);
    OpenTold(active[i := b], i);
    hide Told, TextRows, DistinctKeys;
  }

  lemma {:induction false} AddedDelta(active: seq<Block>, row: Row, key: Key)
    requires DistinctKeys(active) && row.event.Delta?
    ensures Told(AddDelta(active, row), key) == Told(active, key) + (if row.event.key == key then [row] else [])
  {
    var i := IndexOf(active, row.event.key);
    var after := AddDelta(active, row);
    hide Told, TextRows, DistinctKeys, IndexOf;
    if i.None? {
      AddedNew(active, after[|active|], row, key);
    } else {
      assert after == active[i.value := after[i.value]];
      if row.event.key == key { AddedOwn(active, i.value, after[i.value], row); }
      else { ReplacedBlock(active, i.value, after[i.value], key); }
    }
  }

  lemma {:induction false} NothingTells()
    ensures TextRows([]) == []
  {
  }

  lemma {:induction false} ReplacedBlock(active: seq<Block>, i: nat, b: Block, key: Key)
    requires i < |active| && active[i].key != key && b.key != key
    ensures Told(active[i := b], key) == Told(active, key)
  {
    if i > 0 {
      ReplacedBlock(active[1..], i - 1, b, key);
      assert active[i := b][1..] == active[1..][i - 1 := b];
    } else {
      assert active[i := b][1..] == active[1..];
    }
  }

  lemma {:induction false} RemovedKeeps(active: seq<Block>, i: Option<nat>)
    requires i.Some? ==> i.value < |active|
    ensures DistinctKeys(active) ==> DistinctKeys(Removed(active, i))
    ensures OneAnonymous(active) ==> OneAnonymous(Removed(active, i))
  {
  }

  lemma {:induction false} RemovedBlock(active: seq<Block>, i: nat, key: Key)
    requires DistinctKeys(active) && i < |active|
    ensures var own := if active[i].key == key then TextRows(active[i].rows) else [];
            Told(active, key) == own + Told(Removed(active, Some(i)), key)
  {
    var before, b, after := active[..i], active[i], active[i + 1..];
    assert active == before + ([b] + after);
    ToldAppend(before, [b] + after, key);
    ToldAppend([b], after, key);
    ToldAppend(before, after, key);
    if b.key == key {
      forall j | 0 <= j < |after| ensures after[j].key != key { assert after[j] == active[i + 1 + j]; }
      NoSuchKey(before, key);
      NoSuchKey(after, key);
    }
    assert Told([b], key) == if b.key == key then TextRows(b.rows) else [];
    hide Told, DistinctKeys;
  }

  lemma {:induction false} AddedAlone(active: seq<Block>, row: Row)
    requires row.event.Delta? && DistinctKeys(active) && OneAnonymous(active)
    requires forall i | 0 <= i < |active| && Anonymous(active[i]) ::
               row.event.key.native == None && active[i].key.kind == row.event.key.kind
    ensures OneAnonymous(AddDelta(active, row))
  {
  }

  lemma {:induction false} NextIsGood(rows: seq<Row>, row: Row)
    requires Good(rows, Grouped(rows))
    ensures Good(rows + [row], Next(Grouped(rows), row))
  {
    var g, h := Grouped(rows), Next(Grouped(rows), row);
    assert (rows + [row])[..|rows|] == rows;
    match row.event {
      case Delta(key, text) => DeltaIsGood(rows, g, row);
      case Completed(key, text, failed) => CompletedIsGood(rows, g, row);
      case Boundary => ClosedIsGood(rows, g, None); SameTelling(rows, row, h);
      case Started(_) => SameTelling(rows, row, g); assert AllStarts(h.starts);
      case Other => SameTelling(rows, row, h);
    }
  }

  lemma {:induction false} SameTelling(rows: seq<Row>, row: Row, h: Grouping)
    requires Good(rows, h) && !(row.event.Delta? && row.event.text != "") && !row.event.Completed?
    ensures Good(rows + [row], h)
  {
    assert (rows + [row])[..|rows|] == rows;
    forall key ensures Telling(rows + [row], key) == Telling(rows, key) {
      assert Telling(rows + [row], key) == Telling(rows, key) + [];
    }
  }

  lemma {:induction false} ClosedIsGood(rows: seq<Row>, g: Grouping, except: Option<Kind>)
    requires Good(rows, g)
    ensures Good(rows, CloseAnonymous(g, except))
    ensures forall i | 0 <= i < |CloseAnonymous(g, except).active| && Anonymous(CloseAnonymous(g, except).active[i]) ::
              except == Some(CloseAnonymous(g, except).active[i].key.kind)
  {
    var h := CloseAnonymous(g, except);
    StayingKeeps(g.active, except);
    StayingAlone(g.active, except);
    forall key ensures Told(h.finished, key) + Told(h.active, key) == Telling(rows, key) {
      ToldAppend(g.finished, Closing(g.active, except), key);
      ClosingMoves(g.active, except, key);
    }
  }

  lemma {:induction false} DeltaIsGood(rows: seq<Row>, g: Grouping, row: Row)
    requires Good(rows, g) && row.event.Delta?
    ensures Good(rows + [row], Next(g, row))
  {
    var except := if row.event.key.native == None then Some(row.event.key.kind) else None;
    var g1 := CloseAnonymous(g, except);
    ClosedIsGood(rows, g, except);
    if row.event.text == "" {
      SameTelling(rows, row, g1);
    } else {
      var h := g1.(active := AddDelta(g1.active, row));
      AddedAlone(g1.active, row);
      assert (rows + [row])[..|rows|] == rows;
      AddedKeys(g1.active, row);
      forall key ensures Told(h.finished, key) + Told(h.active, key) == Telling(rows + [row], key) {
        AddedDelta(g1.active, row, key);
      }
    }
  }

  lemma {:induction false} CompletedIsGood(rows: seq<Row>, g: Grouping, row: Row)
    requires Good(rows, g) && row.event.Completed?
    ensures Good(rows + [row], CompleteBlock(g, row))
  {
    RemovedKeeps(g.active, IndexOf(g.active, row.event.key));
    StartsStayStarts(g.starts, row.event.key, false);
    assert (rows + [row])[..|rows|] == rows;
    var h := CompleteBlock(g, row);
    forall key ensures Told(h.finished, key) + Told(h.active, key) == Telling(rows + [row], key) {
      CompletedTells(g, row, key);
      assert Told(g.finished, key) + Told(g.active, key) == Telling(rows, key);
    }
  }

  lemma {:induction false} CompletedTells(g: Grouping, row: Row, key: Key)
    requires row.event.Completed? && DistinctKeys(g.active) && AllStarts(g.starts)
    ensures Told(CompleteBlock(g, row).finished, key) + Told(CompleteBlock(g, row).active, key)
         == (Told(g.finished, key) + Told(g.active, key)) + (if row.event.key == key then [row] else [])
  {
    var h := CompleteBlock(g, row);
    var i := IndexOf(g.active, row.event.key);
    var last := h.finished[|g.finished|];
    StartsStayStarts(g.starts, row.event.key, true);
    var own := if i.Some? then g.active[i.value].rows else [];
    assert last.rows == own + [row] + StartsOf(g.starts, row.event.key, true);
    TellsOneMore(own, row, StartsOf(g.starts, row.event.key, true));
    hide Told, TextRows, DistinctKeys, AllStarts, CompleteBlock, IndexOf, Removed;
    assert h.finished == g.finished + [last] && h.active == Removed(g.active, i) by { CompletedParts(g, row); }
    ToldAppend(g.finished, [last], key);
    ToldAlone(last, key);
    OpenUntilCompleted(g.active, i, row.event.key, key);
    NothingTells();
    TellsLast(Told(g.finished, key), Told(g.active, key), TextRows(own), row);
  }

  lemma {:induction false} TellsLast(finished: seq<Row>, active: seq<Row>, own: seq<Row>, row: Row)
    ensures active == own ==> (finished + (own + [row])) + [] == (finished + active) + [row]
    ensures (finished + []) + active == (finished + active) + []
  {
  }

  lemma {:induction false} CompletedParts(g: Grouping, row: Row)
    requires row.event.Completed?
    ensures var h := CompleteBlock(g, row);
      && |h.finished| == |g.finished| + 1 && h.finished == g.finished + [h.finished[|g.finished|]]
      && h.finished[|g.finished|].key == row.event.key
      && h.active == Removed(g.active, IndexOf(g.active, row.event.key))
  {
  }

  // What a key has open is its one block; nothing of it is left without that block.
  lemma {:induction false} OpenUntilCompleted(active: seq<Block>, i: Option<nat>, own: Key, key: Key)
    requires DistinctKeys(active) && i == IndexOf(active, own)
    ensures key == own ==> Told(Removed(active, i), key) == []
                           && Told(active, key) == (if i.Some? then TextRows(active[i.value].rows) else [])
    ensures key != own ==> Told(Removed(active, i), key) == Told(active, key)
  {
    if i.Some? {
      RemovedBlock(active, i.value, key);
      NoneLeft(active, i.value);
    } else if key == own {
      NoSuchKey(active, key);
    }
    hide Told, TextRows, DistinctKeys;
  }

  // Without its one block a key has nothing open.
  lemma {:induction false} NoneLeft(active: seq<Block>, i: nat)
    requires DistinctKeys(active) && i < |active|
    ensures Told(Removed(active, Some(i)), active[i].key) == []
  {
    var rest := Removed(active, Some(i));
    forall j | 0 <= j < |rest| ensures rest[j].key != active[i].key {
      assert rest[j] == if j < i then active[j] else active[j + 1];
    }
    NoSuchKey(rest, active[i].key);
  }

  lemma {:induction false} AlwaysGood(rows: seq<Row>)
    ensures Good(rows, Grouped(rows))
  {
    if rows != [] {
      AlwaysGood(rows[..|rows| - 1]);
      NextIsGood(rows[..|rows| - 1], rows[|rows| - 1]);
      assert rows == rows[..|rows| - 1] + [rows[|rows| - 1]];
    }
  }

  lemma {:induction false} FinishingKeeps(active: seq<Block>, starts: seq<Row>, status: Status, key: Key)
    requires AllStarts(starts)
    ensures Told(Finishing(active, starts, status), key) == Told(active, key)
  {
    if active != [] {
      var own := StartsOf(starts, active[0].key, true);
      StartsStayStarts(starts, active[0].key, true);
      StartsStayStarts(starts, active[0].key, false);
      FinishingKeeps(active[1..], StartsOf(starts, active[0].key, false), status, key);
      TextRowsAppend(active[0].rows, own);
      StartsTellNothing(own);
    }
  }

  /** Block by block in finishing order, the text rows of a key's blocks are exactly the rows that
      tell for it, in order. */
  lemma {:induction false} RowsArePreserved(rows: seq<Row>, status: Status, key: Key)
    ensures Told(Blocks(rows, status), key) == Telling(rows, key)
  {
    var g := Grouped(rows);
    AlwaysGood(rows);
    ToldAppend(g.finished, Finishing(g.active, g.starts, status), key);
    FinishingKeeps(g.active, g.starts, status, key);
    assert Told(g.finished, key) + Told(g.active, key) == Telling(rows, key);
  }

  /** At most one anonymous block is open at any moment. */
  lemma {:induction false} AnonymousAlone(rows: seq<Row>, n: nat)
    requires n <= |rows|
    ensures OneAnonymous(Grouped(rows[..n]).active)
  {
    AlwaysGood(rows[..n]);
  }

  // Rows -------------------------------------------------------------------------------------------

  function Taken(g: Grouping): multiset<Row> { RowsOf(g.finished) + RowsOf(g.active) + multiset(g.starts) }

  lemma {:induction false} RowsAppend(a: seq<Block>, b: seq<Block>)
    ensures RowsOf(a + b) == RowsOf(a) + RowsOf(b)
  {
    if a == [] {
      assert a + b == b;
    } else {
      assert (a + b)[1..] == a[1..] + b && (a + b)[0] == a[0];
      RowsAppend(a[1..], b);
    }
  }

  lemma {:induction false} ClosingKeepsRows(active: seq<Block>, except: Option<Kind>)
    ensures RowsOf(Closing(active, except)) + RowsOf(Staying(active, except)) == RowsOf(active)
  {
    if active != [] {
      var b, rest := active[0], active[1..];
      ClosingKeepsRows(rest, except);
      FirstBlock(active, except, b.key);
      assert RowsOf(active) == multiset(b.rows) + RowsOf(rest);
      hide Closing, Staying, RowsOf, ClosedFirst, StayedFirst, Told;
      RowsAppend(ClosedFirst(b, except), Closing(rest, except));
      RowsAppend(StayedFirst(b, except), Staying(rest, except));
    }
  }

  lemma {:induction false} StartsSplit(starts: seq<Row>, key: Key)
    ensures multiset(StartsOf(starts, key, true)) + multiset(StartsOf(starts, key, false)) == multiset(starts)
  {
    if starts != [] {
      StartsSplit(starts[1..], key);
      assert starts == [starts[0]] + starts[1..];
    }
  }

  lemma {:induction false} ReplacedRows(active: seq<Block>, i: nat, b: Block)
    requires i < |active|
    ensures RowsOf(active[i := b]) + multiset(active[i].rows) == RowsOf(active) + multiset(b.rows)
  {
    var before, after := active[..i], active[i + 1..];
    assert active == before + ([active[i]] + after) && active[i := b] == before + ([b] + after);
    RowsAppend(before, [active[i]] + after);
    RowsAppend(before, [b] + after);
    assert ([active[i]] + after)[1..] == after && ([b] + after)[1..] == after;
  }

  lemma {:induction false} RemovedRows(active: seq<Block>, i: nat)
    requires i < |active|
    ensures RowsOf(Removed(active, Some(i))) + multiset(active[i].rows) == RowsOf(active)
  {
    var before, after := active[..i], active[i + 1..];
    assert active == before + ([active[i]] + after);
    RowsAppend(before, [active[i]] + after);
    RowsAppend(before, after);
    assert ([active[i]] + after)[1..] == after;
  }

  predicate Consumed(row: Row) {
    row.event.Started? || row.event.Completed? || (row.event.Delta? && row.event.text != "")
  }

  lemma {:induction false} Cancel(a: multiset<Row>, b: multiset<Row>, c: multiset<Row>)
    requires a + c == b + c
    ensures a == b
  {
    forall r ensures a[r] == b[r] { assert (a + c)[r] == (b + c)[r]; }
  }

  lemma {:induction false} DeltaTakes(active: seq<Block>, row: Row)
    requires row.event.Delta?
    ensures RowsOf(AddDelta(active, row)) == RowsOf(active) + multiset{row}
  {
    var i := IndexOf(active, row.event.key);
    var after := AddDelta(active, row);
    if i.None? {
      RowsAppend(active, [after[|active|]]);
      assert RowsOf([after[|active|]]) == multiset([row]) + RowsOf([]);
    } else {
      var own := multiset(active[i.value].rows);
      ReplacedRows(active, i.value, after[i.value]);
      assert multiset(active[i.value].rows + [row]) == own + multiset{row};
      hide RowsOf, AddDelta, IndexOf;
      assert RowsOf(active) + (own + multiset{row}) == (RowsOf(active) + multiset{row}) + own;
      Cancel(RowsOf(after), RowsOf(active) + multiset{row}, own);
    }
  }

  lemma {:induction false} CompletionTakes(g: Grouping, row: Row)
    requires row.event.Completed?
    ensures Taken(CompleteBlock(g, row)) == Taken(g) + multiset{row}
  {
    var h := CompleteBlock(g, row);
    var i := IndexOf(g.active, row.event.key);
    var last := h.finished[|g.finished|];
    RowsAppend(g.finished, [last]);
    assert RowsOf([last]) == multiset(last.rows);
    StartsSplit(g.starts, row.event.key);
    if i.Some? { RemovedRows(g.active, i.value); }
  }

  // Closing blocks takes no row and drops none.
  lemma {:induction false} CloseTakes(g: Grouping, except: Option<Kind>)
    ensures Taken(CloseAnonymous(g, except)) == Taken(g)
  {
    RowsAppend(g.finished, Closing(g.active, except));
    ClosingKeepsRows(g.active, except);
    hide Closing, Staying, RowsOf;
  }

  /** Each step takes its row once or leaves it. */
  lemma {:induction false} NextTakes(g: Grouping, row: Row)
    ensures Taken(Next(g, row)) == Taken(g) + (if Consumed(row) then multiset{row} else multiset{})
  {
    hide CloseAnonymous, RowsOf, AddDelta, CompleteBlock;
    match row.event {
      case Started(_) =>
      case Delta(key, text) =>
        var except := if key.native == None then Some(key.kind) else None;
        CloseTakes(g, except);
        if text != "" { DeltaTakes(CloseAnonymous(g, except).active, row); }
      case Completed(_, _, _) => CompletionTakes(g, row);
      case Boundary => CloseTakes(g, None);
      case Other =>
    }
  }

  lemma {:induction false} TakenRows(rows: seq<Row>)
    ensures Taken(Grouped(rows)) <= multiset(rows)
  {
    if rows != [] {
      hide RowsOf, Next, Consumed;
      TakenRows(rows[..|rows| - 1]);
      NextTakes(Grouped(rows[..|rows| - 1]), rows[|rows| - 1]);
      assert rows == rows[..|rows| - 1] + [rows[|rows| - 1]];
    }
  }

  lemma {:induction false} FinishingTakes(active: seq<Block>, starts: seq<Row>, status: Status)
    ensures RowsOf(Finishing(active, starts, status)) <= RowsOf(active) + multiset(starts)
  {
    if active != [] {
      var rest := StartsOf(starts, active[0].key, false);
      FinishingTakes(active[1..], rest, status);
      StartsSplit(starts, active[0].key);
      var tail := Finishing(active[1..], rest, status);
      assert Finishing(active, starts, status)[1..] == tail;
    }
  }

  /** No row goes to two blocks, nor twice to one. */
  lemma {:induction false} BlocksPartition(rows: seq<Row>, status: Status)
    ensures RowsOf(Blocks(rows, status)) <= multiset(rows)
  {
    var g := Grouped(rows);
    TakenRows(rows);
    RowsAppend(g.finished, Finishing(g.active, g.starts, status));
    FinishingTakes(g.active, g.starts, status);
  }

  predicate Distinct(rows: seq<Row>) { forall i, j | 0 <= i < j < |rows| :: rows[i] != rows[j] }

  lemma {:induction false} CountOnce(rows: seq<Row>, row: Row)
    requires Distinct(rows)
    ensures multiset(rows)[row] <= 1
  {
    if rows != [] {
      CountOnce(rows[1..], row);
      assert rows == [rows[0]] + rows[1..];
      if rows[0] == row { assert row !in rows[1..]; }
    }
  }

  lemma {:induction false} BlockRowsIn(blocks: seq<Block>, i: nat)
    requires i < |blocks|
    ensures multiset(blocks[i].rows) <= RowsOf(blocks)
  {
    if i > 0 { BlockRowsIn(blocks[1..], i - 1); }
  }

  lemma {:induction false} TwoBlocksIn(blocks: seq<Block>, i: nat, j: nat)
    requires i < j < |blocks|
    ensures multiset(blocks[i].rows) + multiset(blocks[j].rows) <= RowsOf(blocks)
  {
    if i == 0 { BlockRowsIn(blocks[1..], j - 1); } else { TwoBlocksIn(blocks[1..], i - 1, j - 1); }
  }

  lemma {:induction false} BlocksAreDisjoint(rows: seq<Row>, status: Status, i: nat, j: nat, row: Row)
    requires Distinct(rows) && i < j < |Blocks(rows, status)|
    ensures !(row in Blocks(rows, status)[i].rows && row in Blocks(rows, status)[j].rows)
  {
    BlocksPartition(rows, status);
    TwoBlocksIn(Blocks(rows, status), i, j);
    CountOnce(rows, row);
  }

  // What each block is made of -----------------------------------------------------------------------

  predicate Textual(b: Block) { exists i | 0 <= i < |b.rows| :: !IsStart(b.rows[i]) }

  function DeltaTexts(rows: seq<Row>): seq<string> {
    if rows == [] then []
    else
      var e := rows[|rows| - 1].event;
      DeltaTexts(rows[..|rows| - 1]) + (if e.Delta? then [e.text] else [])
  }

  predicate OnlyDeltas(rows: seq<Row>) { forall i | 0 <= i < |rows| :: rows[i].event.Delta? }

  /** A block that no completion has ended, and one whose last text row is its completion, which gave it its text. */
  predicate Streams(b: Block) { OnlyDeltas(TextRows(b.rows)) && b.complete == "" }

  predicate Completes(b: Block) {
    var texts := TextRows(b.rows);
    && texts != [] && OnlyDeltas(texts[..|texts| - 1])
    && texts[|texts| - 1].event.Completed? && texts[|texts| - 1].event.text == b.complete
  }

  /** A block holds some row that is not a start, its chunks are the texts of its deltas, and at most its last text row
      is a completion. */
  predicate Sound(b: Block) { Textual(b) && b.chunks == DeltaTexts(b.rows) && (Streams(b) || Completes(b)) }

  lemma {:induction false} DeltaTextsAppend(a: seq<Row>, b: seq<Row>)
    ensures DeltaTexts(a + b) == DeltaTexts(a) + DeltaTexts(b)
  {
    if b == [] {
      assert a + b == a;
    } else {
      var init, last := b[..|b| - 1], b[|b| - 1];
      DeltaTextsAppend(a, init);
      assert (a + b)[..|a + b| - 1] == a + init && (a + b)[|a + b| - 1] == last;
    }
  }

  lemma {:induction false} DeltaTextOf(row: Row)
    ensures DeltaTexts([row]) == if row.event.Delta? then [row.event.text] else []
  {
    assert [row][..0] == [];
  }

  lemma {:induction false} StartsHaveNoText(starts: seq<Row>)
    requires AllStarts(starts)
    ensures DeltaTexts(starts) == []
  {
    if starts != [] {
      StartsHaveNoText(starts[..|starts| - 1]);
      assert IsStart(starts[|starts| - 1]);
    }
  }

  lemma {:induction false} ClosingFrom(active: seq<Block>, except: Option<Kind>, b: Block)
    requires b in Closing(active, except)
    ensures Anonymous(b) && exists a :: a in active && b == a.(status := b.status)
  {
    if Closes(active[0], except) && b == active[0].(status := BlockCompleted) {
      assert active[0] in active;
    } else {
      ClosingFrom(active[1..], except, b);
      var a :| a in active[1..] && b == a.(status := b.status);
      assert a in active;
    }
  }

  ghost predicate AllSound(g: Grouping) {
    && (forall b | b in g.active :: Sound(b) && Streams(b)) && AllStarts(g.starts)
    && (forall b | b in g.finished :: Sound(b) && (Anonymous(b) || Completes(b)))
  }

  lemma {:induction false} CloseIsSound(g: Grouping, except: Option<Kind>)
    requires AllSound(g)
    ensures AllSound(CloseAnonymous(g, except))
  {
    var h := CloseAnonymous(g, except);
    hide Sound, Streams, Completes, Closing, Staying, AllStarts;
    forall b | b in h.active ensures Sound(b) && Streams(b) { StayingFrom(g.active, except, b); }
    forall b | b in h.finished && b !in g.finished ensures Sound(b) && Anonymous(b) {
      ClosingFrom(g.active, except, b);
      var a :| a in g.active && b == a.(status := b.status);
      StatusIsNothing(a, b);
    }
  }

  lemma {:induction false} StatusIsNothing(a: Block, b: Block)
    requires Sound(a) && b == a.(status := b.status)
    ensures Sound(b)
  {
  }

  // A block that takes a delta, and a fresh one that does.
  lemma {:induction false} DeltaIsSound(b: Block, c: Block, row: Row)
    requires Streams(b) && (Sound(b) || (b.rows == [] && b.chunks == [])) && row.event.Delta?
    requires c == b.(rows := b.rows + [row], chunks := b.chunks + [row.event.text])
    ensures Sound(c) && Streams(c)
  {
    DeltaTextsAppend(b.rows, [row]);
    DeltaTextOf(row);
    TellsOneMore(b.rows, row, []);
    assert c.rows[|b.rows|] == row;
  }

  lemma {:induction false} CompletedIsSound(b: Block, c: Block, row: Row, starts: seq<Row>)
    requires Streams(b) && (Sound(b) || (b.rows == [] && b.chunks == [])) && row.event.Completed? && AllStarts(starts)
    requires c == b.(rows := b.rows + [row] + starts, complete := row.event.text, status := c.status)
    ensures Sound(c) && Completes(c)
  {
    TellsOneMore(b.rows, row, starts);
    assert TextRows(c.rows)[..|TextRows(b.rows)|] == TextRows(b.rows);
    DeltaTextsAppend(b.rows, [row]);
    DeltaTextsAppend(b.rows + [row], starts);
    StartsHaveNoText(starts);
    DeltaTextOf(row);
    assert c.rows[|b.rows|] == row;
  }

  lemma {:induction false} StartsAreSound(b: Block, c: Block, starts: seq<Row>)
    requires Sound(b) && Streams(b) && AllStarts(starts) && c == b.(rows := b.rows + starts, status := c.status)
    ensures Sound(c)
  {
    TextRowsAppend(b.rows, starts);
    StartsTellNothing(starts);
    DeltaTextsAppend(b.rows, starts);
    StartsHaveNoText(starts);
    var i :| 0 <= i < |b.rows| && !IsStart(b.rows[i]);
    assert c.rows[i] == b.rows[i];
  }

  lemma {:induction false} NextIsSound(g: Grouping, row: Row)
    requires AllSound(g)
    ensures AllSound(Next(g, row))
  {
    match row.event {
      case Delta(key, text) =>
        var except := if key.native == None then Some(key.kind) else None;
        CloseIsSound(g, except);
        if text != "" { AddIsSound(CloseAnonymous(g, except), row); }
      case Completed(key, _, _) => CompletionIsSound(g, row);
      case Boundary => CloseIsSound(g, None);
      case Started(_) => hide Sound, Streams, Completes;
      case Other =>
    }
  }

  lemma {:induction false} NoneIsSound(key: Key)
    ensures Streams(Block(key, [], [], "", Interrupted))
  {
  }

  lemma {:induction false} AddIsSound(g: Grouping, row: Row)
    requires AllSound(g) && row.event.Delta?
    ensures AllSound(g.(active := AddDelta(g.active, row)))
  {
    var i := IndexOf(g.active, row.event.key);
    var after := AddDelta(g.active, row);
    NoneIsSound(row.event.key);
    assert [] + [row] == [row] && [] + [row.event.text] == [row.event.text];
    hide Sound, Streams, Completes, IndexOf, AllStarts;
    if i.None? {
      DeltaIsSound(Block(row.event.key, [], [], "", Interrupted), after[|g.active|], row);
    } else {
      assert g.active[i.value] in g.active;
      DeltaIsSound(g.active[i.value], after[i.value], row);
    }
  }

  lemma {:induction false} CompletionIsSound(g: Grouping, row: Row)
    requires AllSound(g) && row.event.Completed?
    ensures AllSound(CompleteBlock(g, row))
  {
    NoneIsSound(row.event.key);
    hide Sound, Streams, Completes, IndexOf, AllStarts;
    var h := CompleteBlock(g, row);
    var i := IndexOf(g.active, row.event.key);
    var before := if i.Some? then g.active[i.value] else Block(row.event.key, [], [], "", Interrupted);
    StartsStayStarts(g.starts, row.event.key, true);
    StartsStayStarts(g.starts, row.event.key, false);
    CompletedIsSound(before, h.finished[|g.finished|], row, StartsOf(g.starts, row.event.key, true));
    assert forall b | b in h.active :: b in g.active;
  }

  lemma {:induction false} GroupedIsSound(rows: seq<Row>)
    ensures AllSound(Grouped(rows))
  {
    if rows != [] {
      GroupedIsSound(rows[..|rows| - 1]);
      NextIsSound(Grouped(rows[..|rows| - 1]), rows[|rows| - 1]);
    }
  }

  lemma {:induction false} FinishingIsSound(active: seq<Block>, starts: seq<Row>, status: Status, b: Block)
    requires (forall a | a in active :: Sound(a) && Streams(a)) && AllStarts(starts)
               && b in Finishing(active, starts, status)
    ensures Sound(b)
  {
    hide Sound, Streams, AllStarts;
    var own := StartsOf(starts, active[0].key, true);
    var last := active[0].(status := status, rows := active[0].rows + own);
    assert active[0] in active;
    StartsStayStarts(starts, active[0].key, true);
    StartsStayStarts(starts, active[0].key, false);
    if b == last {
      StartsAreSound(active[0], last, own);
    } else {
      FinishingIsSound(active[1..], StartsOf(starts, active[0].key, false), status, b);
    }
  }

  lemma {:induction false} BlocksAreSound(rows: seq<Row>, status: Status, i: nat)
    requires i < |Blocks(rows, status)|
    ensures Sound(Blocks(rows, status)[i])
  {
    var g := Grouped(rows);
    GroupedIsSound(rows);
    var b := Blocks(rows, status)[i];
    hide Sound;
    if i >= |g.finished| {
      assert b == Finishing(g.active, g.starts, status)[i - |g.finished|];
      FinishingIsSound(g.active, g.starts, status, b);
    } else {
      assert b == g.finished[i];
    }
  }

  lemma {:induction false} FinishingKeys(active: seq<Block>, starts: seq<Row>, status: Status)
    ensures |Finishing(active, starts, status)| == |active|
    ensures forall i | 0 <= i < |active| :: Finishing(active, starts, status)[i].key == active[i].key
  {
    if active != [] { FinishingKeys(active[1..], StartsOf(starts, active[0].key, false), status); }
  }

  /** A block with a native identity is ended by its completion, unless it is the last one of its key. */
  lemma {:induction false} NativeBlocksComplete(rows: seq<Row>, status: Status, i: nat, j: nat)
    requires i < j < |Blocks(rows, status)| && Blocks(rows, status)[i].key == Blocks(rows, status)[j].key
    requires !Anonymous(Blocks(rows, status)[i])
    ensures Completes(Blocks(rows, status)[i])
  {
    var g := Grouped(rows);
    GroupedIsSound(rows);
    AlwaysGood(rows);
    FinishingKeys(g.active, g.starts, status);
    hide Sound, Streams, Completes, Finishing, Told, Telling, OneAnonymous;
    if i < |g.finished| { assert Blocks(rows, status)[i] == g.finished[i]; }
  }

  lemma {:induction false} BlocksTextual(rows: seq<Row>, status: Status, i: nat)
    requires i < |Blocks(rows, status)|
    ensures Textual(Blocks(rows, status)[i])
  {
    BlocksAreSound(rows, status, i);
    hide Blocks, Textual;
  }

  // Text -------------------------------------------------------------------------------------------

  /** The non-empty delta texts of a key, in row order. */
  function Texts(rows: seq<Row>, key: Key): seq<string> {
    if rows == [] then []
    else
      var e := rows[|rows| - 1].event;
      Texts(rows[..|rows| - 1], key) + (if e.Delta? && e.key == key && e.text != "" then [e.text] else [])
  }

  function Chunks(blocks: seq<Block>, key: Key): seq<string> {
    if blocks == [] then []
    else (if blocks[0].key == key then blocks[0].chunks else []) + Chunks(blocks[1..], key)
  }

  lemma {:induction false} TextsAreTold(rows: seq<Row>, key: Key)
    ensures Texts(rows, key) == DeltaTexts(Telling(rows, key))
  {
    if rows != [] {
      var init, last := rows[..|rows| - 1], rows[|rows| - 1];
      TextsAreTold(init, key);
      DeltaTextsAppend(Telling(init, key), if Tells(last, key) then [last] else []);
      DeltaTextOf(last);
    }
  }

  lemma {:induction false} TextRowsKeepTexts(rows: seq<Row>)
    ensures DeltaTexts(TextRows(rows)) == DeltaTexts(rows)
  {
    if rows != [] {
      var init, last := rows[..|rows| - 1], rows[|rows| - 1];
      TextRowsKeepTexts(init);
      DeltaTextsAppend(TextRows(init), if IsStart(last) then [] else [last]);
      DeltaTextOf(last);
    }
  }

  lemma {:induction false} ChunksAreTold(blocks: seq<Block>, key: Key)
    requires forall i | 0 <= i < |blocks| :: Sound(blocks[i])
    ensures Chunks(blocks, key) == DeltaTexts(Told(blocks, key))
  {
    if blocks != [] {
      assert Sound(blocks[0]) && forall i | 0 <= i < |blocks[1..]| :: blocks[1..][i] == blocks[i + 1];
      ChunksAreTold(blocks[1..], key);
      TextRowsKeepTexts(blocks[0].rows);
      DeltaTextsAppend(if blocks[0].key == key then TextRows(blocks[0].rows) else [], Told(blocks[1..], key));
    }
  }

  /** No text is lost, reordered or moved to another key: joined in finishing order, the chunks of a key's blocks are
      exactly its non-empty delta texts. */
  lemma {:induction false} TextIsPreserved(rows: seq<Row>, status: Status, key: Key)
    ensures Chunks(Blocks(rows, status), key) == Texts(rows, key)
  {
    var blocks := Blocks(rows, status);
    forall i | 0 <= i < |blocks| ensures Sound(blocks[i]) { BlocksAreSound(rows, status, i); }
    hide Sound, Blocks;
    ChunksAreTold(blocks, key);
    RowsArePreserved(rows, status, key);
    TextsAreTold(rows, key);
  }
}
