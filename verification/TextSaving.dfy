/** Which blocks are saved: those that say something short enough and touch no protected row. */
module TextSaving {
  import opened Options
  import opened TextBlocks
  import opened TextCompaction

  predicate Says(row: Row) { (row.event.Delta? || row.event.Completed?) && row.event.text != "" }

  lemma {:induction false} JoinedOne(chunks: seq<string>, text: string)
    ensures JoinText(chunks + [text]) != "" <==> JoinText(chunks) != "" || text != ""
  {
    if chunks == [] {
      assert chunks + [text] == [text] && [text][1..] == [];
    } else {
      assert (chunks + [text])[1..] == chunks[1..] + [text];
      JoinedOne(chunks[1..], text);
    }
  }

  lemma {:induction false} JoinedIff(rows: seq<Row>)
    ensures JoinText(DeltaTexts(rows)) != "" <==> exists i :: 0 <= i < |rows| && rows[i].event.Delta? && Says(rows[i])
  {
    if rows != [] {
      var init, last := rows[..|rows| - 1], rows[|rows| - 1];
      JoinedIff(init);
      assert forall i | 0 <= i < |init| :: rows[i] == init[i];
      if last.event.Delta? { JoinedOne(DeltaTexts(init), last.event.text); }
      else { assert DeltaTexts(rows) == DeltaTexts(init) + [] == DeltaTexts(init); }
      hide JoinText, DeltaTexts;
    }
  }

  lemma {:induction false} TextRowsHold(rows: seq<Row>, row: Row)
    ensures row in TextRows(rows) <==> row in rows && !IsStart(row)
  {
    if rows != [] {
      TextRowsHold(rows[..|rows| - 1], row);
      assert rows == rows[..|rows| - 1] + [rows[|rows| - 1]];
    }
  }

  lemma {:induction false} SoundSays(b: Block)
    requires Sound(b)
    ensures b.complete != "" <==> exists i :: 0 <= i < |b.rows| && b.rows[i].event.Completed? && Says(b.rows[i])
  {
    var texts := TextRows(b.rows);
    if b.complete != "" {
      var last := texts[|texts| - 1];
      TextRowsHold(b.rows, last);
    }
    forall i | 0 <= i < |b.rows| && b.rows[i].event.Completed? && Says(b.rows[i]) ensures b.complete != "" {
      TextRowsHold(b.rows, b.rows[i]);
      var j :| 0 <= j < |texts| && texts[j] == b.rows[i];
      assert j < |texts| - 1 ==> texts[..|texts| - 1][j] == texts[j];
    }
  }

  /** A block is saved exactly when one of its rows says something, the text is short enough, and no row of it is
      protected. */
  lemma {:induction false} SavedIff(rows: seq<Row>, status: Status, i: nat, protected: set<nat>,
                                    tooLong: string -> bool)
    requires i < |Blocks(rows, status)|
    ensures var b := Blocks(rows, status)[i];
      Saves(b, protected, tooLong) <==>
        && (exists k :: 0 <= k < |b.rows| && Says(b.rows[k])) && !tooLong(TextOf(b))
        && forall k | 0 <= k < |b.rows| :: b.rows[k].id !in protected
  {
    var b := Blocks(rows, status)[i];
    BlocksAreSound(rows, status, i);
    SoundSays(b);
    JoinedIff(b.rows);
    hide Blocks, Sound, DeltaTexts, JoinText;
  }
}
