/** What the details of a run show of its evidence: each change where it stands, with the counts of its diff. */
module FileShown {
  import opened Options
  import opened FileDetails
  import opened FileCard
  import opened FileAggregate

  // Blocks ------------------------------------------------------------------------------------------

  /** A block with a diff counts its lines, and one without has no counts. */
  predicate CountsShown(b: Block) {
    match b.diff
    case Some(d) => b.counts.additions == Some(d.additions) && b.counts.deletions == Some(d.deletions)
    case None => b.counts.additions.None? && b.counts.deletions.None?
  }

  /** A change as it was observed. */
  predicate ChangeShown(differ: Differ, b: Block, c: Change) {
    && b.sequence == c.sequence && b.kind == c.kind && CountsShown(b)
    && match c.semantics
       case ReportedMutation(d) => b.semantics.ReportedBlock? && b.diff == Some(d)
       case ExactMutation(_, _, d) => b.semantics.ExactBlock? && b.diff == Some(d)
       case FullBeforeAfter(before, after) => b.semantics.FullStates? && b.diff == differ(before, after)
       case UnifiedDiffSnapshot(d) => b.semantics.DiffSnapshot? && b.diff == Some(d)
       case OperationOnly => b.semantics.OperationBlock? && b.diff == None
  }

  predicate AllShown(differ: Differ, blocks: seq<Block>, changes: seq<Change>) {
    |blocks| == |changes| && forall i | 0 <= i < |changes| :: ChangeShown(differ, blocks[i], changes[i])
  }

  /** The one diff of a file that is shown by its net change. */
  predicate NetShown(f: File, sequence: int, kind: ChangeKind, diff: Diff) {
    && f.presentation.NetDiff? && f.kind == kind && |f.blocks| == 1 && f.counts == f.blocks[0].counts
    && f.blocks[0].sequence == sequence && f.blocks[0].kind == kind && f.blocks[0].semantics.FullNetDiff?
    && f.blocks[0].diff == Some(diff) && CountsShown(f.blocks[0])
  }

  // Totals ------------------------------------------------------------------------------------------

  function DiffLines(blocks: seq<Block>): seq<(nat, nat)> {
    if blocks == [] then []
    else
      var last := blocks[|blocks| - 1];
      DiffLines(blocks[..|blocks| - 1])
        + (if last.diff.Some? then [(last.diff.value.additions, last.diff.value.deletions)] else [])
  }

  /** The sums over the diffs, capped at the largest 64-bit number; nothing when there is no diff. */
  predicate Totals(counts: Counts, blocks: seq<Block>) {
    var lines := DiffLines(blocks);
    if lines == [] then counts.additions.None? && counts.deletions.None?
    else counts.additions == Some(Capped(PlainSum(lines).0)) && counts.deletions == Some(Capped(PlainSum(lines).1))
  }

  lemma {:induction false} KnownAreDiffs(blocks: seq<Block>)
    requires forall i | 0 <= i < |blocks| :: CountsShown(blocks[i])
    ensures KnownOnly(CountsOfBlocks(blocks)) == DiffLines(blocks)
  {
    if blocks != [] {
      var counts := CountsOfBlocks(blocks);
      assert counts[..|counts| - 1] == CountsOfBlocks(blocks[..|blocks| - 1]);
      KnownAreDiffs(blocks[..|blocks| - 1]);
      assert CountsShown(blocks[|blocks| - 1]);
    }
  }

  lemma {:induction false} SumsAreTotals(differ: Differ, blocks: seq<Block>, changes: seq<Change>)
    requires AllShown(differ, blocks, changes)
    ensures Totals(SumKnown(CountsOfBlocks(blocks)), blocks)
  {
    forall i | 0 <= i < |blocks| ensures CountsShown(blocks[i]) { assert ChangeShown(differ, blocks[i], changes[i]); }
    KnownAreDiffs(blocks);
    SaturatingIsCapped(DiffLines(blocks));
    hide ChangeShown, CountsShown, SaturatingSum, PlainSum, KnownOnly, DiffLines;
  }

  /** The kind of a file is the kind its changes share, and an update when they share none. */
  predicate SharedKind(kind: ChangeKind, changes: seq<Change>) {
    && changes != []
    && ((forall i | 0 <= i < |changes| :: changes[i].kind == kind)
        || (kind.Update?
            && exists i, j | 0 <= i < |changes| && 0 <= j < |changes| :: changes[i].kind != changes[j].kind))
  }

  lemma {:induction false} CombinedIsShared(changes: seq<Change>)
    requires changes != []
    ensures SharedKind(CombinedKind(changes), changes)
  {
    if !AllOfKind(changes, changes[0].kind) {
      var j :| 0 <= j < |changes| && changes[j].kind != changes[0].kind;
      assert changes[0].kind != changes[j].kind;
    }
  }

  // Files -------------------------------------------------------------------------------------------

  predicate OfSemantics(changes: seq<Change>, exact: bool) {
    forall i | 0 <= i < |changes| ::
      if exact then changes[i].semantics.ExactMutation? else changes[i].semantics.ReportedMutation?
  }

  /** Changes with a diff each, or with states: by their net change when they are a chain of states or one snapshot, and
      otherwise each for itself, with the sums over them. */
  predicate DiffsShown(differ: Differ, f: File, diffs: seq<Change>)
    requires diffs != []
  {
    var first, last := diffs[0].semantics, diffs[|diffs| - 1].semantics;
    if FullStatesOnly(diffs) && Chained(diffs) then
      && first.before != last.after && differ(first.before, last.after).Some?
      && NetShown(f, diffs[0].sequence, NetKind(first.before, last.after), differ(first.before, last.after).value)
    else if |diffs| == 1 && first.UnifiedDiffSnapshot? then
      NetShown(f, diffs[0].sequence, diffs[0].kind, first.diff)
    else
      && AllShown(differ, f.blocks, diffs) && Totals(f.counts, f.blocks) && SharedKind(f.kind, diffs)
      && (f.presentation.ExactMutations? <==> OfSemantics(diffs, true))
      && (f.presentation.ReportedMutations? <==> OfSemantics(diffs, false))
      && (f.presentation.ExactMutations? || f.presentation.ReportedMutations? || f.presentation.OperationHistory?)
  }

  lemma {:induction false} BlocksShowChanges(differ: Differ, changes: seq<Change>)
    ensures AllShown(differ, BlocksOf(differ, changes), changes)
  {
  }

  /** A chain of states that ends where it began. */
  predicate CancelOut(differ: Differ, diffs: seq<Change>)
    requires diffs != []
  {
    && FullStatesOnly(diffs) && Chained(diffs)
    && var before, after := diffs[0].semantics.before, diffs[|diffs| - 1].semantics.after;
       before == after || differ(before, after).None?
  }

  predicate ByNetChange(diffs: seq<Change>)
    requires diffs != []
  {
    (FullStatesOnly(diffs) && Chained(diffs)) || (|diffs| == 1 && diffs[0].semantics.UnifiedDiffSnapshot?)
  }

  lemma {:induction false} NetIsShown(differ: Differ, path: nat, diffs: seq<Change>)
    requires diffs != [] && ByNetChange(diffs)
    ensures DiffDetail(differ, path, diffs).Some? ==> DiffsShown(differ, DiffDetail(differ, path, diffs).value, diffs)
    ensures DiffDetail(differ, path, diffs).None? <==> CancelOut(differ, diffs)
  {
    hide AllShown, Totals, SharedKind, SumKnown, BlocksOf;
  }

  lemma {:induction false} HistoryIsShown(differ: Differ, path: nat, diffs: seq<Change>)
    requires diffs != [] && !ByNetChange(diffs)
    ensures DiffDetail(differ, path, diffs).Some? && DiffsShown(differ, DiffDetail(differ, path, diffs).value, diffs)
  {
    BlocksShowChanges(differ, diffs);
    SumsAreTotals(differ, BlocksOf(differ, diffs), diffs);
    CombinedIsShared(diffs);
    hide AllShown, Totals, SharedKind, CombinedKind, SumKnown, BlocksOf, Chained, NetShown, CountsOfBlocks;
  }

  lemma {:induction false} DiffsAreShown(differ: Differ, path: nat, diffs: seq<Change>)
    requires diffs != []
    ensures DiffDetail(differ, path, diffs).Some? ==> DiffsShown(differ, DiffDetail(differ, path, diffs).value, diffs)
    ensures DiffDetail(differ, path, diffs).None? <==> CancelOut(differ, diffs)
  {
    hide DiffDetail, DiffsShown;
    if ByNetChange(diffs) { NetIsShown(differ, path, diffs); } else { HistoryIsShown(differ, path, diffs); }
  }

  /** What is shown of the changes on a path. Bare writes are listed among the diffs, where they happened, but add
      nothing to the counts; alone, or when the diffs cancel out, only they are listed, without counts. */
  ghost predicate FileShown(differ: Differ, f: File, changes: seq<Change>) {
    var writes, diffs := Selected(changes, true), Selected(changes, false);
    && f.operations == |changes|
    && if diffs == [] || CancelOut(differ, diffs) then
         && f.presentation.OperationsOnly? && f.counts.additions.None? && f.counts.deletions.None?
         && AllShown(differ, f.blocks, writes) && SharedKind(f.kind, writes)
       else if writes == [] then DiffsShown(differ, f, diffs)
       else
         && f.presentation.OperationHistory? && AllShown(differ, f.blocks, changes) && SharedKind(f.kind, changes)
         && exists g :: DiffsShown(differ, g, diffs) && f.counts == g.counts
  }

  lemma {:induction false} ChangesAreShown(differ: Differ, path: nat, changes: seq<Change>)
    requires changes != [] && FileDetail(differ, path, changes).Some?
    ensures FileShown(differ, FileDetail(differ, path, changes).value, changes)
  {
    var writes, diffs := Selected(changes, true), Selected(changes, false);
    DetailCountsAll(differ, path, changes);
    SelectedSplits(changes);
    BlocksShowChanges(differ, changes);
    BlocksShowChanges(differ, writes);
    CombinedIsShared(changes);
    if writes != [] { CombinedIsShared(writes); }
    if diffs == [] { OnlyWrites(changes); } else { DiffsAreShown(differ, path, diffs); }
    hide DiffDetail, DiffsShown, CancelOut, AllShown, SharedKind, CombinedKind, BlocksOf, Chained;
    if diffs != [] && DiffDetail(differ, path, diffs).Some? {
      var g := DiffDetail(differ, path, diffs).value;
      CountedOperations(differ, g, diffs, |changes|);
    }
  }

  lemma {:induction false} CountedOperations(differ: Differ, f: File, diffs: seq<Change>, operations: nat)
    requires diffs != [] && DiffsShown(differ, f, diffs)
    ensures DiffsShown(differ, f.(operations := operations), diffs)
  {
    hide AllShown, Totals, SharedKind, OfSemantics, CountsShown;
  }

  lemma {:induction false} OnlyWrites(changes: seq<Change>)
    requires Selected(changes, false) == []
    ensures Selected(changes, true) == changes
  {
    if changes != [] {
      OnlyWrites(changes[..|changes| - 1]);
      assert changes == changes[..|changes| - 1] + [changes[|changes| - 1]];
    }
  }

  // Cards -------------------------------------------------------------------------------------------

  lemma {:induction false} NameIsIrrelevant(differ: Differ, f: File, id: nat, changes: seq<Change>)
    requires FileShown(differ, f.(id := id), changes)
    ensures FileShown(differ, f, changes)
  {
    hide DiffsShown, AllShown, SharedKind, CancelOut, Selected;
    var diffs := Selected(changes, false);
    if diffs != [] && !CancelOut(differ, diffs) && Selected(changes, true) == [] {
      NameOfDiffs(differ, f, id, diffs);
    }
  }

  lemma {:induction false} NameOfDiffs(differ: Differ, f: File, id: nat, diffs: seq<Change>)
    requires diffs != [] && DiffsShown(differ, f.(id := id), diffs)
    ensures DiffsShown(differ, f, diffs)
  {
    hide AllShown, Totals, SharedKind, OfSemantics, CountsShown;
  }

  /** Without a run diff every listed file shows the changes observed on its path, in order of their sequence. */
  lemma {:induction false} ListedIsShown(env: Env, items: seq<Item>, k: nat)
    requires LatestRunDiff(items).None? && k < |ListedFiles(env, items)|
    ensures var f := ListedFiles(env, items)[k];
            FileShown(env.differ, f, BySequence(OnPath(Observed(items), f.path)))
  {
    var f := ListedFiles(env, items)[k];
    var found := OnPath(Observed(items), f.path);
    ListedIsDetail(env, items, k);
    BySequenceKeeps(found);
    hide ListedFiles, Observed, OnPath, BySequence, FileDetail, FileShown;
    ChangesAreShown(env.differ, f.path, BySequence(found));
    NameIsIrrelevant(env.differ, f, 0, BySequence(found));
  }

  /** A readable run diff is shown section by section, each with the counts of its diff and the changes observed on its
      path, one at least; what it leaves out, outside the execution root, shows what was observed. */
  lemma {:induction false} SnapshotIsShown(env: Env, sequence: int, diff: RunDiff, changes: seq<Change>, k: nat)
    requires !diff.blank && Readable(diff.sections) && k < |SnapshotFiles(env, sequence, diff, changes)|
    ensures var f := SnapshotFiles(env, sequence, diff, changes)[k];
            var seen := |OnPath(changes, f.path)|;
      if k < |diff.sections| then
        && Some(f.path) == diff.sections[k].path && f.operations == (if seen == 0 then 1 else seen)
        && NetShown(f, sequence, diff.sections[k].kind, diff.sections[k].diff)
      else FileShown(env.differ, f, BySequence(OnPath(changes, f.path)))
  {
    if k >= |diff.sections| {
      var listed := set i | 0 <= i < |diff.sections| :: diff.sections[i].path.value;
      var missing := Outside(p => p !in listed, Outside(env.outside, changes));
      var f := FilesFrom(env.differ, missing)[k - |diff.sections|];
      assert f in FilesFrom(env.differ, missing);
      OutsiderIsShown(env, changes, listed, f);
      hide FilesFrom, Outside, OnPath, FileShown;
    }
  }

  lemma {:induction false} OutsiderIsShown(env: Env, changes: seq<Change>, listed: set<nat>, f: File)
    requires f in FilesFrom(env.differ, Outside(p => p !in listed, Outside(env.outside, changes)))
    ensures FileShown(env.differ, f, BySequence(OnPath(changes, f.path)))
  {
    var outsiders := Outside(env.outside, changes);
    var missing := Outside(p => p !in listed, outsiders);
    FilesAtPaths(env.differ, missing, PathsOf(missing), f);
    OnPathNotEmpty(missing, f.path);
    OutsiderFile(env, changes, listed, f);
    OutsideOnly(p => p !in listed, outsiders, f.path);
    OutsideOnly(env.outside, changes, f.path);
    BySequenceKeeps(OnPath(changes, f.path));
    hide OnPath, Outside, FilesAt, PathsOf, BySequence, FileShown, FileDetail;
    ChangesAreShown(env.differ, f.path, BySequence(OnPath(changes, f.path)));
  }

  /** What happened to a path leaves something to show. */
  predicate LeavesSomething(differ: Differ, changes: seq<Change>) {
    && changes != []
    && !(FullStatesOnly(changes) && Chained(changes)
         && changes[0].semantics.before == changes[|changes| - 1].semantics.after)
  }

  lemma {:induction false} ObservedIsListed(env: Env, changes: seq<Change>, path: nat)
    requires Succeeds(env.differ) && LeavesSomething(env.differ, BySequence(OnPath(changes, path)))
    ensures exists f :: f in FilesFrom(env.differ, changes) && f.path == path
  {
    var found := BySequence(OnPath(changes, path));
    BySequenceKeeps(OnPath(changes, path));
    OnPathNotEmpty(changes, path);
    DisappearsIff(env.differ, path, found);
    DetailCountsAll(env.differ, path, found);
    FilesAtPaths(env.differ, changes, PathsOf(changes), FileOf(env.differ, changes, path).value);
    hide OnPath, PathsOf, FilesAt, BySequence, FileDetail;
  }

  /** Beside a run diff, every path outside the execution root that it does not name is listed as it would be without;
      beside a blank one those alone; and an unreadable one counts for nothing. */
  lemma {:induction false} OutsidersAreListed(env: Env, sequence: int, diff: RunDiff, changes: seq<Change>, path: nat)
    requires Succeeds(env.differ) && LeavesSomething(env.differ, BySequence(OnPath(changes, path)))
    requires (env.outside(path) && (diff.blank || !SectionLists(diff, path)))
          || (!diff.blank && !Readable(diff.sections))
    ensures exists f :: f in SnapshotFiles(env, sequence, diff, changes) && f.path == path
  {
    var outsiders := Outside(env.outside, changes);
    OutsideOnly(env.outside, changes, path);
    hide OnPath, Outside, FilesFrom, BySequence, LeavesSomething;
    if diff.blank {
      ObservedIsListed(env, outsiders, path);
    } else if !Readable(diff.sections) {
      ObservedIsListed(env, changes, path);
    } else {
      var listed := set i | 0 <= i < |diff.sections| :: diff.sections[i].path.value;
      OutsideOnly(p => p !in listed, outsiders, path);
      assert path !in listed by { NotListed(diff, listed, path); }
      ObservedIsListed(env, Outside(p => p !in listed, outsiders), path);
    }
  }

  lemma {:induction false} NotListed(diff: RunDiff, listed: set<nat>, path: nat)
    requires Readable(diff.sections) && listed == set i | 0 <= i < |diff.sections| :: diff.sections[i].path.value
    requires !SectionLists(diff, path)
    ensures path !in listed
  {
  }

  /** The run diff that counts is the last one. */
  lemma {:induction false} LastRunDiffCounts(items: seq<Item>, i: nat)
    requires i < |items| && items[i].runDiff.Some? && forall j | i < j < |items| :: items[j].runDiff.None?
    ensures LatestRunDiff(items) == Some((items[i].sequence, items[i].runDiff.value))
  {
    if i < |items| - 1 { LastRunDiffCounts(items[..|items| - 1], i); }
  }

  lemma {:induction false} NoRunDiff(items: seq<Item>)
    requires forall j | 0 <= j < |items| :: items[j].runDiff.None?
    ensures LatestRunDiff(items) == None
  {
    if items != [] { NoRunDiff(items[..|items| - 1]); }
  }

  // Evidence ----------------------------------------------------------------------------------------

  /** The path that an entry is reported under: a single entry goes by the path of the write that it belongs to. */
  predicate Under(item: Item, e: Entry, path: nat) {
    if |item.entries| == 1 && item.operation.Some? && item.operation.value.path.Some?
    then item.operation.value.path == Some(path) else e.path == Some(path)
  }

  /** An entry that names a path and changes something there, as the change it is observed as. */
  predicate ObservedAs(item: Item, e: Entry, c: Change) {
    && e.named && Under(item, e, c.path) && c.sequence == item.sequence && e.semantics == Some(c.semantics)
    && match c.semantics
       case FullBeforeAfter(before, after) =>
         before != after && if e.kind.Some? then e.kind == Some(c.kind) else ArisesFrom(c.kind, before, after)
       case UnifiedDiffSnapshot(d) => d.text != 0 && if e.kind.Some? then e.kind == Some(c.kind) else c.kind.Update?
       case ExactMutation(oldText, newText, _) => oldText != newText && c.kind.Update?
       case ReportedMutation(_) => c.kind.Update?
       case OperationOnly => false
  }

  predicate ArisesFrom(kind: ChangeKind, before: Text, after: Text) {
    match kind
    case Add => before.None? && after.Some?
    case Delete => before.Some? && after.None?
    case Update => before.Some? == after.Some?
  }

  ghost predicate Observable(item: Item, e: Entry) { exists c :: ObservedAs(item, e, c) }

  /** The observable entries give one change each, in order. */
  ghost predicate EntriesObserved(item: Item, entries: seq<Entry>, changes: seq<Change>)
    decreases |entries|
  {
    if entries == [] then changes == []
    else
      var init, last := entries[..|entries| - 1], entries[|entries| - 1];
      if Observable(item, last)
      then changes != [] && ObservedAs(item, last, changes[|changes| - 1])
           && EntriesObserved(item, init, changes[..|changes| - 1])
      else EntriesObserved(item, init, changes)
  }

  lemma {:induction false} EntryIsObserved(item: Item, e: Entry)
    ensures if Observable(item, e) then |EntryChange(item, e)| == 1 && ObservedAs(item, e, EntryChange(item, e)[0])
            else EntryChange(item, e) == []
  {
    if EntryChange(item, e) != [] { assert ObservedAs(item, e, EntryChange(item, e)[0]); }
  }

  lemma {:induction false} EntriesAreObserved(item: Item, entries: seq<Entry>)
    ensures EntriesObserved(item, entries, EntryChanges(item, entries))
  {
    if entries != [] {
      var init, last := entries[..|entries| - 1], entries[|entries| - 1];
      EntriesAreObserved(item, init);
      EntryIsObserved(item, last);
      var before := EntryChanges(item, init);
      assert (before + EntryChange(item, last))[..|before|] == before && before + [] == before;
      hide ObservedAs, Observable, EntryChange;
    }
  }

  predicate SeenAt(changes: seq<Change>, sequence: int, path: nat) {
    exists i | 0 <= i < |changes| :: changes[i].sequence == sequence && changes[i].path == path
  }

  lemma {:induction false} TrailingIsSeen(changes: seq<Change>, sequence: int, path: nat)
    requires EndsBy(changes, sequence)
    ensures Trailing(changes, sequence, path) <==> SeenAt(changes, sequence, path)
  {
    if changes != [] {
      var init, last := changes[..|changes| - 1], changes[|changes| - 1];
      if last.sequence == sequence {
        TrailingIsSeen(init, sequence, path);
        if SeenAt(changes, sequence, path) && last.path != path {
          var i :| 0 <= i < |changes| && changes[i].sequence == sequence && changes[i].path == path;
          assert init[i] == changes[i];
        }
        if SeenAt(init, sequence, path) {
          var i :| 0 <= i < |init| && init[i].sequence == sequence && init[i].path == path;
          assert changes[i] == init[i];
        }
      }
    }
  }

  /** A write of the item that no entry of its sequence has reported on that path. */
  predicate BareWrite(item: Item, before: seq<Change>) {
    && !item.noChanges && item.operation.Some? && item.operation.value.path.Some?
    && !SeenAt(before, item.sequence, item.operation.value.path.value)
  }

  /** What one more item adds to the observed changes: what its entries say, in order, and then its write, when nothing
      of its sequence says anything of that path. */
  lemma {:induction false} ItemIsObserved(items: seq<Item>)
    requires items != [] && ReadInOrder(items)
    ensures var init, item := Observed(items[..|items| - 1]), items[|items| - 1];
      exists reported :: EntriesObserved(item, item.entries, reported)
        && (if BareWrite(item, init + reported)
            then exists c :: Observed(items) == init + reported + [c] && c.sequence == item.sequence
                   && Some(c.path) == item.operation.value.path && c.kind == item.operation.value.kind
                   && c.semantics.OperationOnly?
            else Observed(items) == init + reported)
  {
    var init, item := items[..|items| - 1], items[|items| - 1];
    var reported := EntryChanges(item, item.entries);
    EntriesAreObserved(item, item.entries);
    EntriesEndBy(items);
    assert EntriesObserved(item, item.entries, reported);
    if !item.noChanges && item.operation.Some? && item.operation.value.path.Some? {
      TrailingIsSeen(Observed(init) + reported, item.sequence, item.operation.value.path.value);
      if BareWrite(item, Observed(init) + reported) {
        var c := Change(item.sequence, item.operation.value.path.value, item.operation.value.kind, OperationOnly);
        assert Observed(items) == Observed(init) + reported + [c];
      }
    }
    hide EntriesObserved, EntryChanges, EndsBy, SeenAt, ReadInOrder;
  }

  lemma {:induction false} EntriesEndBy(items: seq<Item>)
    requires items != [] && ReadInOrder(items)
    ensures var item := items[|items| - 1];
            EndsBy(Observed(items[..|items| - 1]) + EntryChanges(item, item.entries), item.sequence)
  {
    var init, item := items[..|items| - 1], items[|items| - 1];
    ObservedInOrder(init);
    EntriesInOrder(item, item.entries);
    if init != [] { assert init[|init| - 1].sequence <= item.sequence; }
    hide Observed, EntryChanges;
  }
}
