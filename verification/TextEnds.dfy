/** How blocks end: what their status says, and which start rows they take with them. */
module TextEnds {
  import opened Options
  import opened TextBlocks

  // Status ------------------------------------------------------------------------------------------

  /** A row that closes an open block of this key: one without identity is closed by a boundary, and by text of another
      kind or with an identity. */
  predicate ClosesKey(row: Row, key: Key) {
    key.native.None?
    && (row.event.Boundary? || (row.event.Delta? && (row.event.key.native.Some? || row.event.key.kind != key.kind)))
  }

  function LastText(b: Block): (r: Row)
    requires TextRows(b.rows) != []
  {
    TextRows(b.rows)[|TextRows(b.rows)| - 1]
  }

  /** Some row after the block's last text closes it. */
  ghost predicate ClosedLater(rows: seq<Row>, b: Block) {
    TextRows(b.rows) != []
    && exists p, q | 0 <= p < q < |rows| :: rows[p] == LastText(b) && ClosesKey(rows[q], b.key)
  }

  /** No row after the block's last text closes it. */
  ghost predicate StillOpen(rows: seq<Row>, b: Block) {
    TextRows(b.rows) != []
    && exists p | 0 <= p < |rows| :: rows[p] == LastText(b) && forall q | p < q < |rows| :: !ClosesKey(rows[q], b.key)
  }

  ghost predicate EndsWell(rows: seq<Row>, b: Block) {
    if Completes(b) then b.status.Interrupted? <==> LastText(b).event.failed
    else b.status.BlockCompleted? && ClosedLater(rows, b)
  }

  ghost predicate AllEndWell(rows: seq<Row>, g: Grouping) {
    && AllSound(g)
    && (forall b | b in g.active :: StillOpen(rows, b)) && (forall b | b in g.finished :: EndsWell(rows, b))
  }

  lemma {:induction false} OneMoreRow(rows: seq<Row>, row: Row, b: Block)
    ensures EndsWell(rows, b) ==> EndsWell(rows + [row], b)
    ensures StillOpen(rows, b) && !ClosesKey(row, b.key) ==> StillOpen(rows + [row], b)
    ensures StillOpen(rows, b) && ClosesKey(row, b.key) ==> ClosedLater(rows + [row], b)
  {
    var all := rows + [row];
    hide Completes, ClosesKey;
    if ClosedLater(rows, b) {
      var p, q :| 0 <= p < q < |rows| && rows[p] == LastText(b) && ClosesKey(rows[q], b.key);
      assert all[p] == rows[p] && all[q] == rows[q];
    }
    if StillOpen(rows, b) {
      var p :| 0 <= p < |rows| && rows[p] == LastText(b) && forall q | p < q < |rows| :: !ClosesKey(rows[q], b.key);
      assert all[p] == rows[p] && all[|rows|] == row;
    }
  }

  lemma {:induction false} SoundHasText(b: Block)
    requires Sound(b)
    ensures TextRows(b.rows) != [] && (Streams(b) ==> !Completes(b))
  {
    if TextRows(b.rows) == [] {
      var i :| 0 <= i < |b.rows| && !IsStart(b.rows[i]);
      HasTextRow(b.rows, i);
    }
  }

  lemma {:induction false} HasTextRow(rows: seq<Row>, i: nat)
    requires i < |rows| && !IsStart(rows[i])
    ensures TextRows(rows) != []
  {
    if i < |rows| - 1 { HasTextRow(rows[..|rows| - 1], i); }
  }

  // The rows that close blocks are those that close_anonymous is called for.
  lemma {:induction false} ClosingEndsWell(rows: seq<Row>, row: Row, g: Grouping, except: Option<Kind>)
    requires AllEndWell(rows, g)
    requires row.event.Boundary? || row.event.Delta?
    requires except == if row.event.Delta? && row.event.key.native == None then Some(row.event.key.kind) else None
    ensures AllEndWell(rows + [row], CloseAnonymous(g, except))
  {
    var h := CloseAnonymous(g, except);
    CloseIsSound(g, except);
    hide AllSound, Sound, Streams, Completes, StillOpen, EndsWell, ClosedLater, Closing, Staying;
    forall b | b in h.active ensures StillOpen(rows + [row], b) {
      StayingFrom(g.active, except, b);
      OneMoreRow(rows, row, b);
    }
    forall b | b in h.finished ensures EndsWell(rows + [row], b) {
      if b in g.finished { OneMoreRow(rows, row, b); } else { ClosedEndsWell(rows, row, g, except, b); }
    }
  }

  lemma {:induction false} ClosingClosed(active: seq<Block>, except: Option<Kind>, b: Block)
    requires b in Closing(active, except)
    ensures b.status.BlockCompleted? && Closes(b, except)
    ensures exists a :: a in active && b == a.(status := BlockCompleted)
  {
    if Closes(active[0], except) && b == active[0].(status := BlockCompleted) {
      assert active[0] in active;
    } else {
      ClosingClosed(active[1..], except, b);
      var a :| a in active[1..] && b == a.(status := BlockCompleted);
      assert a in active;
    }
  }

  lemma {:induction false} ClosedEndsWell(rows: seq<Row>, row: Row, g: Grouping, except: Option<Kind>, b: Block)
    requires AllEndWell(rows, g) && b in Closing(g.active, except)
    requires row.event.Boundary? || row.event.Delta?
    requires except == if row.event.Delta? && row.event.key.native == None then Some(row.event.key.kind) else None
    ensures EndsWell(rows + [row], b)
  {
    ClosingClosed(g.active, except, b);
    var a :| a in g.active && b == a.(status := BlockCompleted);
    assert Sound(a) && Streams(a) && StillOpen(rows, a);
    OneMoreRow(rows, row, a);
    SoundHasText(a);
    assert ClosesKey(row, a.key);
    SameEnd(rows + [row], a, b);
  }

  lemma {:induction false} SameEnd(rows: seq<Row>, a: Block, b: Block)
    requires a.rows == b.rows && a.key == b.key && a.complete == b.complete
    ensures (ClosedLater(rows, a) <==> ClosedLater(rows, b)) && (StillOpen(rows, a) <==> StillOpen(rows, b))
    ensures Completes(a) <==> Completes(b)
  {
  }

  lemma {:induction false} LastIsOpen(rows: seq<Row>, row: Row, b: Block)
    requires TextRows(b.rows) != [] && LastText(b) == row
    ensures StillOpen(rows + [row], b)
  {
    assert (rows + [row])[|rows|] == row;
  }

  lemma {:induction false} AddedLast(active: seq<Block>, row: Row, b: Block)
    requires row.event.Delta? && b in AddDelta(active, row) && b !in active
    ensures TextRows(b.rows) != [] && LastText(b) == row
  {
    var i := IndexOf(active, row.event.key);
    var own := if i.Some? then active[i.value].rows else [];
    TellsOneMore(own, row, []);
    assert b.rows == own + [row];
    hide TextRows, IndexOf;
  }

  lemma {:induction false} AddedEndsWell(rows: seq<Row>, row: Row, g: Grouping)
    requires AllEndWell(rows + [row], g) && row.event.Delta?
    ensures AllEndWell(rows + [row], g.(active := AddDelta(g.active, row)))
  {
    hide AllSound, StillOpen, EndsWell, TextRows, AddDelta;
    AddIsSound(g, row);
    forall b | b in AddDelta(g.active, row) ensures StillOpen(rows + [row], b) {
      if b !in g.active {
        AddedLast(g.active, row, b);
        LastIsOpen(rows, row, b);
      }
    }
  }

  lemma {:induction false} CompletedEndsWell(rows: seq<Row>, row: Row, g: Grouping)
    requires AllEndWell(rows, g) && row.event.Completed?
    ensures AllEndWell(rows + [row], CompleteBlock(g, row))
  {
    var h, i := CompleteBlock(g, row), IndexOf(g.active, row.event.key);
    var last := h.finished[|g.finished|];
    var own := if i.Some? then g.active[i.value].rows else [];
    var starts := StartsOf(g.starts, row.event.key, true);
    CompletionIsSound(g, row);
    StartsStayStarts(g.starts, row.event.key, true);
    TellsOneMore(own, row, starts);
    assert last.rows == own + [row] + starts && last in h.finished;
    assert Completes(last) by { CompletedCompletes(g, row); }
    hide AllSound, IndexOf, StillOpen, ClosedLater, TextRows, Completes;
    forall b | b in h.active ensures StillOpen(rows + [row], b) {
      assert b in g.active;
      OneMoreRow(rows, row, b);
    }
    forall b | b in h.finished ensures EndsWell(rows + [row], b) {
      if b in g.finished { OneMoreRow(rows, row, b); } else { assert b == last; }
    }
  }

  lemma {:induction false} CompletedCompletes(g: Grouping, row: Row)
    requires AllSound(g) && row.event.Completed?
    ensures Completes(CompleteBlock(g, row).finished[|g.finished|])
  {
    NoneIsSound(row.event.key);
    var i := IndexOf(g.active, row.event.key);
    var before := if i.Some? then g.active[i.value] else Block(row.event.key, [], [], "", Interrupted);
    StartsStayStarts(g.starts, row.event.key, true);
    hide Sound, Streams, Completes, IndexOf, AllStarts;
    assert i.Some? ==> before in g.active;
    var last := CompleteBlock(g, row).finished[|g.finished|];
    CompletedIsSound(before, last, row, StartsOf(g.starts, row.event.key, true));
  }

  lemma {:induction false} NextEndsWell(rows: seq<Row>, row: Row, g: Grouping)
    requires AllEndWell(rows, g)
    ensures AllEndWell(rows + [row], Next(g, row))
  {
    match row.event {
      case Delta(key, text) =>
        var except := if key.native == None then Some(key.kind) else None;
        ClosingEndsWell(rows, row, g, except);
        if text != "" { AddedEndsWell(rows, row, CloseAnonymous(g, except)); }
      case Completed(_, _, _) => CompletedEndsWell(rows, row, g);
      case Boundary => ClosingEndsWell(rows, row, g, None);
      case _ => QuietEndsWell(rows, row, g);
    }
  }

  lemma {:induction false} QuietEndsWell(rows: seq<Row>, row: Row, g: Grouping)
    requires AllEndWell(rows, g) && (row.event.Started? || row.event.Other?)
    ensures AllEndWell(rows + [row], Next(g, row))
  {
    NextIsSound(g, row);
    hide AllSound, StillOpen, EndsWell;
    forall b ensures StillOpen(rows, b) ==> StillOpen(rows + [row], b) { OneMoreRow(rows, row, b); }
    forall b ensures EndsWell(rows, b) ==> EndsWell(rows + [row], b) { OneMoreRow(rows, row, b); }
  }

  lemma {:induction false} GroupedEndsWell(rows: seq<Row>)
    ensures AllEndWell(rows, Grouped(rows))
  {
    if rows != [] {
      GroupedEndsWell(rows[..|rows| - 1]);
      hide AllEndWell, Next;
      NextEndsWell(rows[..|rows| - 1], rows[|rows| - 1], Grouped(rows[..|rows| - 1]));
      assert rows == rows[..|rows| - 1] + [rows[|rows| - 1]];
    }
  }

  /** A block that a completion ended is interrupted exactly when that failed; one that something else closed is
      completed; one that was open at the end has the status of its run. */
  ghost predicate StatusFits(rows: seq<Row>, status: Status, b: Block) {
    && TextRows(b.rows) != []
    && if Completes(b) then b.status.Interrupted? <==> LastText(b).event.failed
       else (b.status.BlockCompleted? && ClosedLater(rows, b)) || (b.status == status && StillOpen(rows, b))
  }

  lemma {:induction false} EndedFits(rows: seq<Row>, status: Status, g: Grouping, b: Block)
    requires AllEndWell(rows, g) && b in g.finished && TextRows(b.rows) != []
    ensures StatusFits(rows, status, b)
  {
    assert EndsWell(rows, b);
    hide AllSound, Completes, StillOpen, ClosedLater, TextRows;
  }

  lemma {:induction false} FinishedOrOpen(rows: seq<Row>, status: Status, i: nat)
    requires i < |Blocks(rows, status)|
    ensures var g, b := Grouped(rows), Blocks(rows, status)[i];
            b in g.finished || b in Finishing(g.active, g.starts, status)
  {
    var g := Grouped(rows);
    hide Grouped, Finishing;
    assert Blocks(rows, status) == g.finished + Finishing(g.active, g.starts, status);
  }

  /** What the status of each block says. */
  lemma {:induction false} StatusSaysHow(rows: seq<Row>, status: Status, i: nat)
    requires i < |Blocks(rows, status)|
    ensures StatusFits(rows, status, Blocks(rows, status)[i])
  {
    hide Blocks, Grouped, AllEndWell, StatusFits, Finishing, Sound, Streams, Completes, TextRows;
    var g, b := Grouped(rows), Blocks(rows, status)[i];
    GroupedEndsWell(rows);
    BlocksAreSound(rows, status, i);
    SoundHasText(b);
    FinishedOrOpen(rows, status, i);
    if b in g.finished { EndedFits(rows, status, g, b); } else { OpenFits(rows, status, g, b); }
  }

  lemma {:induction false} OpenFits(rows: seq<Row>, status: Status, g: Grouping, b: Block)
    requires AllEndWell(rows, g) && b in Finishing(g.active, g.starts, status) && TextRows(b.rows) != []
    ensures StatusFits(rows, status, b)
  {
    hide Sound, Streams, StillOpen, ClosedLater, TextRows, EndsWell, Finishing;
    FinishedAtTheEnd(rows, g.active, g.starts, status, b);
    hide Completes;
  }

  lemma {:induction false} FinishedAtTheEnd(rows: seq<Row>, active: seq<Block>, starts: seq<Row>, status: Status,
                                            b: Block)
    requires forall a | a in active :: Streams(a) && Sound(a) && StillOpen(rows, a)
    requires AllStarts(starts) && b in Finishing(active, starts, status)
    ensures b.status == status && StillOpen(rows, b) && !Completes(b)
  {
    var own := StartsOf(starts, active[0].key, true);
    var last := active[0].(status := status, rows := active[0].rows + own);
    StartsStayStarts(starts, active[0].key, true);
    StartsStayStarts(starts, active[0].key, false);
    if b == last {
      assert active[0] in active;
      TextRowsAppend(active[0].rows, own);
      StartsTellNothing(own);
      SoundHasText(active[0]);
      assert TextRows(b.rows) == TextRows(active[0].rows) + [];
      hide TextRows;
    } else {
      hide Sound, Streams, StillOpen, AllStarts, Completes;
      FinishedAtTheEnd(rows, active[1..], StartsOf(starts, active[0].key, false), status, b);
    }
  }

  // Start rows --------------------------------------------------------------------------------------

  function StartRows(rows: seq<Row>, key: Key): seq<Row> {
    if rows == [] then []
    else
      var last := rows[|rows| - 1];
      StartRows(rows[..|rows| - 1], key) + (if last.event == Started(key) then [last] else [])
  }

  /** The start rows since the last completion of their key. */
  function Waiting(rows: seq<Row>, key: Key): seq<Row> {
    if rows == [] then []
    else
      var init, last := rows[..|rows| - 1], rows[|rows| - 1];
      if last.event == Started(key) then Waiting(init, key) + [last]
      else if last.event.Completed? && last.event.key == key then []
      else Waiting(init, key)
  }

  /** The start rows of a key that blocks took with them, block by block. */
  function TakenStarts(blocks: seq<Block>, key: Key): seq<Row> {
    if blocks == [] then []
    else TakenStarts(blocks[..|blocks| - 1], key) + StartRows(blocks[|blocks| - 1].rows, key)
  }

  predicate NoStarts(b: Block) { forall i | 0 <= i < |b.rows| :: !IsStart(b.rows[i]) }

  lemma {:induction false} StartRowsAppend(a: seq<Row>, b: seq<Row>, key: Key)
    ensures StartRows(a + b, key) == StartRows(a, key) + StartRows(b, key)
  {
    if b == [] {
      assert a + b == a;
    } else {
      var init, last := b[..|b| - 1], b[|b| - 1];
      StartRowsAppend(a, init, key);
      assert (a + b)[..|a + b| - 1] == a + init && (a + b)[|a + b| - 1] == last;
    }
  }

  lemma {:induction false} TakenAppend(blocks: seq<Block>, b: Block, key: Key)
    ensures TakenStarts(blocks + [b], key) == TakenStarts(blocks, key) + StartRows(b.rows, key)
  {
    assert (blocks + [b])[..|blocks|] == blocks;
  }

  lemma {:induction false} NoneTaken(rows: seq<Row>, key: Key)
    requires forall i | 0 <= i < |rows| :: !IsStart(rows[i])
    ensures StartRows(rows, key) == []
  {
    if rows != [] {
      NoneTaken(rows[..|rows| - 1], key);
      assert !IsStart(rows[|rows| - 1]);
    }
  }

  // Of the waiting starts, those of one key, and the others.
  lemma {:induction false} StartsOfAppend(a: seq<Row>, b: seq<Row>, key: Key)
    ensures StartsOf(a + b, key, true) == StartsOf(a, key, true) + StartsOf(b, key, true)
  {
    if a == [] {
      assert a + b == b;
    } else {
      assert (a + b)[1..] == a[1..] + b && (a + b)[0] == a[0];
      StartsOfAppend(a[1..], b, key);
    }
  }

  lemma {:induction false} StartsOfOthers(starts: seq<Row>, key: Key, other: Key)
    ensures StartsOf(StartsOf(starts, key, false), other, true)
         == if other == key then [] else StartsOf(starts, other, true)
  {
    if starts != [] {
      var first := if starts[0].event == Started(key) then [] else [starts[0]];
      StartsOfOthers(starts[1..], key, other);
      StartsOfAppend(first, StartsOf(starts[1..], key, false), other);
      assert first != [] ==> first[1..] == [];
    }
  }

  lemma {:induction false} StartsOfOwn(starts: seq<Row>, key: Key, other: Key)
    ensures StartRows(StartsOf(starts, key, true), other) == if other == key then StartsOf(starts, key, true) else []
  {
    if starts != [] {
      var own, rest := if starts[0].event == Started(key) then [starts[0]] else [], StartsOf(starts[1..], key, true);
      StartsOfOwn(starts[1..], key, other);
      StartRowsAppend(own, rest, other);
      assert own != [] ==> own[..0] == [];
    }
  }

  /** What waits in the grouping is what waits in the rows, and nothing of it is with a block yet. */
  predicate Home(rows: seq<Row>, g: Grouping, key: Key) {
    && StartsOf(g.starts, key, true) == Waiting(rows, key)
    && TakenStarts(g.finished, key) + Waiting(rows, key) == StartRows(rows, key)
  }

  predicate WithoutStarts(active: seq<Block>) { forall i | 0 <= i < |active| :: NoStarts(active[i]) }

  ghost predicate AllHome(rows: seq<Row>, g: Grouping) {
    WithoutStarts(g.active) && forall key :: Home(rows, g, key)
  }

  lemma {:induction false} SnocStarts(rows: seq<Row>, row: Row, key: Key)
    ensures StartRows(rows + [row], key) == StartRows(rows, key) + (if row.event == Started(key) then [row] else [])
    ensures Waiting(rows + [row], key)
         == if row.event == Started(key) then Waiting(rows, key) + [row]
            else if row.event.Completed? && row.event.key == key then [] else Waiting(rows, key)
  {
    assert (rows + [row])[..|rows|] == rows;
  }

  lemma {:induction false} ClosingOne(finished: seq<Block>, active: seq<Block>, except: Option<Kind>)
    requires active != []
    ensures var b := active[0].(status := BlockCompleted);
            finished + Closing(active, except)
            == (if Closes(active[0], except) then finished + [b] else finished) + Closing(active[1..], except)
  {
    var closed := if Closes(active[0], except) then [active[0].(status := BlockCompleted)] else [];
    var rest := Closing(active[1..], except);
    assert Closing(active, except) == closed + rest;
    hide Closing, Closes;
    assert finished + (closed + rest) == (finished + closed) + rest && finished + [] == finished;
  }

  lemma {:induction false} ClosingTakesNone(finished: seq<Block>, active: seq<Block>, except: Option<Kind>, key: Key)
    requires WithoutStarts(active)
    ensures TakenStarts(finished + Closing(active, except), key) == TakenStarts(finished, key)
    decreases |active|
  {
    if active == [] {
      assert finished + [] == finished;
    } else {
      var b := active[0].(status := BlockCompleted);
      var more := if Closes(active[0], except) then finished + [b] else finished;
      assert NoStarts(active[0]) && WithoutStarts(active[1..]);
      hide Closing, TakenStarts, StartRows, WithoutStarts, Closes;
      ClosingOne(finished, active, except);
      NoneTaken(b.rows, key);
      TakenAppend(finished, b, key);
      ClosingTakesNone(more, active[1..], except, key);
    }
  }

  lemma {:induction false} StayingStartsNone(active: seq<Block>, except: Option<Kind>)
    requires WithoutStarts(active)
    ensures WithoutStarts(Staying(active, except))
  {
    var stay := Staying(active, except);
    hide Staying;
    forall i | 0 <= i < |stay| ensures NoStarts(stay[i]) {
      assert stay[i] in stay;
      StayingFrom(active, except, stay[i]);
    }
  }

  lemma {:induction false} ClosingIsHome(rows: seq<Row>, g: Grouping, except: Option<Kind>)
    requires AllHome(rows, g)
    ensures AllHome(rows, CloseAnonymous(g, except))
  {
    StayingStartsNone(g.active, except);
    hide WithoutStarts, Closing, Staying, Waiting, StartRows, TakenStarts, StartsOf;
    forall key ensures Home(rows, CloseAnonymous(g, except), key) {
      assert Home(rows, g, key);
      ClosingTakesNone(g.finished, g.active, except, key);
    }
  }

  lemma {:induction false} OtherRowIsHome(rows: seq<Row>, row: Row, g: Grouping)
    requires AllHome(rows, g) && !row.event.Started? && !row.event.Completed?
    ensures AllHome(rows + [row], g)
  {
    hide WithoutStarts, Waiting, StartRows, TakenStarts, StartsOf;
    forall key ensures Home(rows + [row], g, key) {
      assert Home(rows, g, key);
      SnocStarts(rows, row, key);
      assert StartRows(rows, key) + [] == StartRows(rows, key);
    }
  }

  lemma {:induction false} StartIsHome(rows: seq<Row>, row: Row, g: Grouping)
    requires AllHome(rows, g) && row.event.Started?
    ensures AllHome(rows + [row], g.(starts := g.starts + [row]))
  {
    hide WithoutStarts, Waiting, StartRows, TakenStarts;
    forall key ensures Home(rows + [row], g.(starts := g.starts + [row]), key) {
      assert Home(rows, g, key);
      SnocStarts(rows, row, key);
      StartsOfAppend(g.starts, [row], key);
      assert [row][1..] == [];
      hide StartsOf;
      var taken, waiting := TakenStarts(g.finished, key), Waiting(rows, key);
      assert taken + (waiting + [row]) == (taken + waiting) + [row];
      assert StartRows(rows, key) + [] == StartRows(rows, key) && waiting + [] == waiting;
    }
  }

  lemma {:induction false} DeltaStartsNone(active: seq<Block>, row: Row)
    requires WithoutStarts(active) && row.event.Delta?
    ensures WithoutStarts(AddDelta(active, row))
  {
    hide IndexOf;
  }

  lemma {:induction false} DeltaIsHome(rows: seq<Row>, row: Row, g: Grouping)
    requires AllHome(rows, g) && row.event.Delta?
    ensures AllHome(rows, g.(active := AddDelta(g.active, row)))
  {
    DeltaStartsNone(g.active, row);
    hide WithoutStarts, Waiting, StartRows, TakenStarts, StartsOf, AddDelta;
    forall key ensures Home(rows, g.(active := AddDelta(g.active, row)), key) { assert Home(rows, g, key); }
  }

  lemma {:induction false} CompletedBlock(g: Grouping, row: Row) returns (last: Block, own: seq<Row>)
    requires WithoutStarts(g.active) && row.event.Completed?
    ensures var h := CompleteBlock(g, row);
      && h.finished == g.finished + [last] && h.starts == StartsOf(g.starts, row.event.key, false)
      && last.rows == own + [row] + StartsOf(g.starts, row.event.key, true)
      && (forall i | 0 <= i < |own| :: !IsStart(own[i])) && WithoutStarts(h.active)
  {
    var i := IndexOf(g.active, row.event.key);
    last := CompleteBlock(g, row).finished[|g.finished|];
    own := if i.Some? then g.active[i.value].rows else [];
    assert i.Some? ==> NoStarts(g.active[i.value]);
    hide IndexOf, StartsOf;
  }

  lemma {:induction false} CompletionTakesStarts(g: Grouping, row: Row, key: Key)
    requires WithoutStarts(g.active) && row.event.Completed?
    ensures var h := CompleteBlock(g, row);
      && TakenStarts(h.finished, key)
         == TakenStarts(g.finished, key) + (if key == row.event.key then StartsOf(g.starts, key, true) else [])
      && StartsOf(h.starts, key, true) == if key == row.event.key then [] else StartsOf(g.starts, key, true)
  {
    var last, own := CompletedBlock(g, row);
    var starts := StartsOf(g.starts, row.event.key, true);
    hide StartRows, TakenStarts, CompleteBlock, StartsOf, WithoutStarts;
    StartsOfOthers(g.starts, row.event.key, key);
    StartsOfOwn(g.starts, row.event.key, key);
    OwnStarts(own, row, starts, key);
    TakenAppend(g.finished, last, key);
  }

  lemma {:induction false} OwnStarts(own: seq<Row>, row: Row, starts: seq<Row>, key: Key)
    requires !IsStart(row) && forall i | 0 <= i < |own| :: !IsStart(own[i])
    ensures StartRows(own + [row] + starts, key) == StartRows(starts, key)
  {
    NoneTaken(own + [row], key);
    StartRowsAppend(own + [row], starts, key);
  }

  lemma {:induction false} CompletionIsHome(rows: seq<Row>, row: Row, g: Grouping)
    requires AllHome(rows, g) && row.event.Completed?
    ensures AllHome(rows + [row], CompleteBlock(g, row))
  {
    var last, own := CompletedBlock(g, row);
    hide CompleteBlock, WithoutStarts, StartsOf, TakenStarts, StartRows, Waiting;
    forall key ensures Home(rows + [row], CompleteBlock(g, row), key) {
      assert Home(rows, g, key);
      SnocStarts(rows, row, key);
      CompletionTakesStarts(g, row, key);
      assert StartRows(rows, key) + [] == StartRows(rows, key);
      assert TakenStarts(g.finished, key) + [] == TakenStarts(g.finished, key);
    }
  }

  lemma {:induction false} GroupedIsHome(rows: seq<Row>)
    ensures AllHome(rows, Grouped(rows))
  {
    if rows != [] {
      var init, row := rows[..|rows| - 1], rows[|rows| - 1];
      var g := Grouped(init);
      GroupedIsHome(init);
      assert rows == init + [row] && Grouped(rows) == Next(g, row);
      hide AllHome, Grouped, CloseAnonymous, CompleteBlock, AddDelta;
      match row.event {
        case Started(_) => StartIsHome(init, row, g);
        case Delta(key, text) =>
          var g1 := CloseAnonymous(g, if key.native == None then Some(key.kind) else None);
          ClosingIsHome(init, g, if key.native == None then Some(key.kind) else None);
          DeltaIsHome(init, row, g1);
          OtherRowIsHome(init, row, g1);
          OtherRowIsHome(init, row, g1.(active := AddDelta(g1.active, row)));
        case Completed(_, _, _) => CompletionIsHome(init, row, g);
        case Boundary => ClosingIsHome(init, g, None); OtherRowIsHome(init, row, CloseAnonymous(g, None));
        case Other => OtherRowIsHome(init, row, g);
      }
    }
  }

  predicate OpenKey(active: seq<Block>, key: Key) { exists i | 0 <= i < |active| :: active[i].key == key }

  lemma {:induction false} FinishingOne(finished: seq<Block>, active: seq<Block>, starts: seq<Row>, status: Status)
    requires active != []
    ensures var b := active[0];
            var last := b.(status := status, rows := b.rows + StartsOf(starts, b.key, true));
            finished + Finishing(active, starts, status)
            == (finished + [last]) + Finishing(active[1..], StartsOf(starts, b.key, false), status)
  {
    var last := active[0].(status := status, rows := active[0].rows + StartsOf(starts, active[0].key, true));
    var rest := Finishing(active[1..], StartsOf(starts, active[0].key, false), status);
    assert Finishing(active, starts, status) == [last] + rest;
    hide Finishing, StartsOf;
    assert finished + ([last] + rest) == (finished + [last]) + rest;
  }

  lemma {:induction false} LastStarts(b: Block, starts: seq<Row>, key: Key)
    requires NoStarts(b)
    ensures StartRows(b.rows + StartsOf(starts, b.key, true), key)
         == if b.key == key then StartsOf(starts, key, true) else []
  {
    hide StartRows, StartsOf;
    NoneTaken(b.rows, key);
    StartRowsAppend(b.rows, StartsOf(starts, b.key, true), key);
    StartsOfOwn(starts, b.key, key);
  }

  lemma {:induction false} FinishingTakesStarts(finished: seq<Block>, active: seq<Block>, starts: seq<Row>,
                                                status: Status, key: Key)
    requires DistinctKeys(active) && WithoutStarts(active)
    ensures TakenStarts(finished + Finishing(active, starts, status), key)
         == TakenStarts(finished, key) + (if OpenKey(active, key) then StartsOf(starts, key, true) else [])
    decreases |active|
  {
    if active == [] {
      assert finished + [] == finished;
    } else {
      var b, own, rest := active[0], StartsOf(starts, active[0].key, true), StartsOf(starts, active[0].key, false);
      var last := b.(status := status, rows := b.rows + own);
      hide Finishing, TakenStarts, StartRows, StartsOf, OpenKey, DistinctKeys, WithoutStarts, NoStarts;
      RestOfOpen(active);
      KeyOfRest(active, key);
      FinishingOne(finished, active, starts, status);
      LastStarts(b, starts, key);
      StartsOfOthers(starts, b.key, key);
      TakenAppend(finished, last, key);
      FinishingTakesStarts(finished + [last], active[1..], rest, status, key);
    }
  }

  lemma {:induction false} RestOfOpen(active: seq<Block>)
    requires DistinctKeys(active) && WithoutStarts(active) && active != []
    ensures NoStarts(active[0]) && WithoutStarts(active[1..]) && DistinctKeys(active[1..])
  {
    hide NoStarts;
  }

  lemma {:induction false} KeyOfRest(active: seq<Block>, key: Key)
    requires active != [] && DistinctKeys(active)
    ensures OpenKey(active, key) <==> active[0].key == key || OpenKey(active[1..], key)
    ensures active[0].key == key ==> !OpenKey(active[1..], key)
  {
    if OpenKey(active[1..], key) {
      var i :| 0 <= i < |active[1..]| && active[1..][i].key == key;
      assert active[i + 1].key == key;
    }
    if OpenKey(active, key) && active[0].key != key {
      var i :| 0 <= i < |active| && active[i].key == key;
      assert active[1..][i - 1].key == key;
    }
  }

  /** The start rows of a key go with its blocks, in order, each with the first that ends after it by a completion
      or with the run; what is left is what came after the last completion, when nothing of the key is open at the
      end. */
  lemma {:induction false} StartsGoAlong(rows: seq<Row>, status: Status, key: Key)
    ensures TakenStarts(Blocks(rows, status), key)
            + (if OpenKey(Grouped(rows).active, key) then [] else Waiting(rows, key)) == StartRows(rows, key)
  {
    var g := Grouped(rows);
    AlwaysGood(rows);
    GroupedIsHome(rows);
    assert Home(rows, g, key);
    hide Grouped, TakenStarts, StartRows, Waiting, StartsOf, Told, Telling, Finishing;
    FinishingTakesStarts(g.finished, g.active, g.starts, status, key);
  }

  /** A completed block takes exactly the starts that wait for its key. */
  lemma {:induction false} CompletionTakesWaiting(rows: seq<Row>, row: Row, key: Key)
    requires row.event.Completed?
    ensures TakenStarts(Grouped(rows + [row]).finished, key)
         == TakenStarts(Grouped(rows).finished, key) + (if key == row.event.key then Waiting(rows, key) else [])
  {
    GroupedIsHome(rows);
    assert (rows + [row])[..|rows|] == rows;
    assert Home(rows, Grouped(rows), key);
    CompletionTakesStarts(Grouped(rows), row, key);
    hide TakenStarts, Waiting, StartsOf, CompleteBlock;
  }
}
