/** The evidence of a run gathered per path, and the published card with its details. */
module FileCard {
  import opened Options
  import opened FileDetails

  const SCHEMA_VERSION := 3

  // named: it names a path, which may still not be one to display.
  datatype Entry = Entry(named: bool, path: Option<nat>, kind: Option<ChangeKind>, semantics: Option<Semantics>)
  datatype Operation = Operation(path: Option<nat>, kind: ChangeKind) // no path: not a write
  datatype Section = Section(path: Option<nat>, kind: ChangeKind, diff: Diff)
  datatype RunDiff = RunDiff(blank: bool, sections: seq<Section>)

  // One piece of evidence: sendPath is the source of a successful send; runDiff a diff of the whole run.
  datatype Item = Item(id: nat, sequence: int, sendPath: Option<nat>, runDiff: Option<RunDiff>,
                       entries: seq<Entry>, noChanges: bool, operation: Option<Operation>)

  // append_diff_changes and append_operation_only_change ---------------------------------------------

  // Changes that change nothing are not observed; a snapshot text of 0 is the empty diff.
  predicate Visible(s: Semantics) {
    match s
    case FullBeforeAfter(before, after) => before != after
    case UnifiedDiffSnapshot(d) => d.text != 0
    case ExactMutation(oldText, newText, _) => oldText != newText
    case ReportedMutation(_) => true
    case OperationOnly => false
  }

  function KindOf(e: Entry): ChangeKind
    requires e.semantics.Some?
  {
    match e.semantics.value
    case FullBeforeAfter(before, after) => if e.kind.Some? then e.kind.value else NetKind(before, after)
    case UnifiedDiffSnapshot(_) => if e.kind.Some? then e.kind.value else Update
    case _ => Update
  }

  // A single entry takes the path of the write that reported it.
  function EntryPath(item: Item, e: Entry): Option<nat> {
    if |item.entries| == 1 && item.operation.Some? && item.operation.value.path.Some? then item.operation.value.path
    else e.path
  }

  function EntryChange(item: Item, e: Entry): seq<Change> {
    if !e.named || EntryPath(item, e).None? || e.semantics.None? || !Visible(e.semantics.value) then []
    else [Change(item.sequence, EntryPath(item, e).value, KindOf(e), e.semantics.value)]
  }

  function EntryChanges(item: Item, entries: seq<Entry>): seq<Change> {
    if entries == [] then []
    else EntryChanges(item, entries[..|entries| - 1]) + EntryChange(item, entries[|entries| - 1])
  }

  /** A change of this sequence on this path, among the last ones. */
  predicate Trailing(changes: seq<Change>, sequence: int, path: nat) {
    changes != [] && changes[|changes| - 1].sequence == sequence
    && (changes[|changes| - 1].path == path || Trailing(changes[..|changes| - 1], sequence, path))
  }

  function WithOperation(changes: seq<Change>, item: Item): seq<Change> {
    if item.noChanges || item.operation.None? || item.operation.value.path.None? then changes
    else if Trailing(changes, item.sequence, item.operation.value.path.value) then changes
    else changes + [Change(item.sequence, item.operation.value.path.value, item.operation.value.kind, OperationOnly)]
  }

  function Observed(items: seq<Item>): seq<Change> {
    if items == [] then []
    else
      var item := items[|items| - 1];
      WithOperation(Observed(items[..|items| - 1]) + EntryChanges(item, item.entries), item)
  }

  method AppendChanges(changes: seq<Change>, item: Item) returns (after: seq<Change>)
    ensures after == WithOperation(changes + EntryChanges(item, item.entries), item)
  {
    after := changes;
    var i := 0;
    while i < |item.entries|
      invariant 0 <= i <= |item.entries|
      invariant after == changes + EntryChanges(item, item.entries[..i])
    {
      assert item.entries[..i + 1][..i] == item.entries[..i];
      var e := item.entries[i];
      var path := if |item.entries| == 1 && item.operation.Some? && item.operation.value.path.Some?
                  then item.operation.value.path else e.path;
      if e.named && path.Some? && e.semantics.Some? && Visible(e.semantics.value) {
        after := after + [Change(item.sequence, path.value, KindOf(e), e.semantics.value)];
      }
      i := i + 1;
    }
    assert item.entries[..i] == item.entries;
    if item.noChanges || item.operation.None? || item.operation.value.path.None? { return; }
    var path := item.operation.value.path.value;
    if !Trailing(after, item.sequence, path) {
      after := after + [Change(item.sequence, path, item.operation.value.kind, OperationOnly)];
    }
  }

  // file_details_from_operations -------------------------------------------------------------------

  function OnPath(changes: seq<Change>, path: nat): seq<Change> {
    if changes == [] then []
    else
      var rest := OnPath(changes[..|changes| - 1], path);
      if changes[|changes| - 1].path == path then rest + [changes[|changes| - 1]] else rest
  }

  function InsertPath(paths: seq<nat>, path: nat): seq<nat> {
    if paths == [] || path < paths[0] then [path] + paths
    else if path == paths[0] then paths
    else [paths[0]] + InsertPath(paths[1..], path)
  }

  function PathsOf(changes: seq<Change>): seq<nat> {
    if changes == [] then [] else InsertPath(PathsOf(changes[..|changes| - 1]), changes[|changes| - 1].path)
  }

  /** A stable sort by sequence. */
  function InsertChange(changes: seq<Change>, c: Change): seq<Change> {
    if changes == [] || changes[|changes| - 1].sequence <= c.sequence then changes + [c]
    else InsertChange(changes[..|changes| - 1], c) + [changes[|changes| - 1]]
  }

  function BySequence(changes: seq<Change>): seq<Change> {
    if changes == [] then [] else InsertChange(BySequence(changes[..|changes| - 1]), changes[|changes| - 1])
  }

  function FileOf(differ: Differ, changes: seq<Change>, path: nat): Option<File> {
    FileDetail(differ, path, BySequence(OnPath(changes, path)))
  }

  function FilesAt(differ: Differ, changes: seq<Change>, paths: seq<nat>): seq<File> {
    if paths == [] then []
    else
      var rest := FilesAt(differ, changes, paths[..|paths| - 1]);
      match FileOf(differ, changes, paths[|paths| - 1])
      case None => rest
      case Some(f) => rest + [f]
  }

  function FilesFrom(differ: Differ, changes: seq<Change>): seq<File> {
    FilesAt(differ, changes, PathsOf(changes))
  }

  predicate StrictlySorted(paths: seq<nat>) { forall i, j | 0 <= i < j < |paths| :: paths[i] < paths[j] }

  lemma {:induction false} InsertPathSorts(paths: seq<nat>, path: nat)
    requires StrictlySorted(paths)
    ensures StrictlySorted(InsertPath(paths, path))
    ensures forall p :: p in InsertPath(paths, path) <==> p in paths || p == path
  {
    if paths != [] && path > paths[0] {
      InsertPathSorts(paths[1..], path);
      assert paths == [paths[0]] + paths[1..];
    }
  }

  lemma {:induction false} PathsAreSorted(changes: seq<Change>)
    ensures StrictlySorted(PathsOf(changes))
    ensures forall p :: p in PathsOf(changes) <==> exists c :: c in changes && c.path == p
  {
    if changes != [] {
      var init, last := changes[..|changes| - 1], changes[|changes| - 1];
      PathsAreSorted(init);
      InsertPathSorts(PathsOf(init), last.path);
      assert changes == init + [last];
    }
  }

  lemma {:induction false} InsertChangeKeeps(changes: seq<Change>, c: Change)
    ensures multiset(InsertChange(changes, c)) == multiset(changes) + multiset{c}
    ensures |InsertChange(changes, c)| == |changes| + 1
  {
    if changes != [] && changes[|changes| - 1].sequence > c.sequence {
      InsertChangeKeeps(changes[..|changes| - 1], c);
      assert changes == changes[..|changes| - 1] + [changes[|changes| - 1]];
    }
  }

  lemma {:induction false} BySequenceKeeps(changes: seq<Change>)
    ensures multiset(BySequence(changes)) == multiset(changes) && |BySequence(changes)| == |changes|
  {
    if changes != [] {
      BySequenceKeeps(changes[..|changes| - 1]);
      InsertChangeKeeps(BySequence(changes[..|changes| - 1]), changes[|changes| - 1]);
      assert changes == changes[..|changes| - 1] + [changes[|changes| - 1]];
    }
  }

  predicate InOrder(changes: seq<Change>) {
    forall i, j | 0 <= i < j < |changes| :: changes[i].sequence <= changes[j].sequence
  }

  /** Evidence read in order stays in order: the sort moves nothing. */
  lemma {:induction false} InOrderStays(changes: seq<Change>)
    requires InOrder(changes)
    ensures BySequence(changes) == changes
  {
    if changes != [] {
      var init := changes[..|changes| - 1];
      assert InOrder(init);
      InOrderStays(init);
      assert init == [] || init[|init| - 1] == changes[|changes| - 2];
      hide InOrder;
      assert changes == changes[..|changes| - 1] + [changes[|changes| - 1]];
    }
  }

  lemma {:induction false} InsertChangeOrders(changes: seq<Change>, c: Change)
    requires InOrder(changes)
    ensures InOrder(InsertChange(changes, c))
  {
    if changes != [] && changes[|changes| - 1].sequence > c.sequence {
      var init, last := changes[..|changes| - 1], changes[|changes| - 1];
      InsertChangeOrders(init, c);
      InsertChangeKeeps(init, c);
      forall x | x in InsertChange(init, c) ensures x.sequence <= last.sequence {
        assert x in multiset(InsertChange(init, c));
        if x != c { assert x in init; }
      }
    }
  }

  /** The sort sorts. */
  lemma {:induction false} BySequenceOrders(changes: seq<Change>)
    ensures InOrder(BySequence(changes))
  {
    if changes != [] {
      BySequenceOrders(changes[..|changes| - 1]);
      InsertChangeOrders(BySequence(changes[..|changes| - 1]), changes[|changes| - 1]);
    }
  }

  function OfSequence(changes: seq<Change>, sequence: int): seq<Change> {
    if changes == [] then []
    else
      var last := changes[|changes| - 1];
      OfSequence(changes[..|changes| - 1], sequence) + (if last.sequence == sequence then [last] else [])
  }

  lemma OfSequenceAppend(changes: seq<Change>, c: Change, sequence: int)
    ensures OfSequence(changes + [c], sequence)
              == OfSequence(changes, sequence) + (if c.sequence == sequence then [c] else [])
  {
    assert (changes + [c])[..|changes|] == changes;
  }

  lemma {:induction false} InsertChangeIsStable(changes: seq<Change>, c: Change, sequence: int)
    ensures OfSequence(InsertChange(changes, c), sequence)
         == OfSequence(changes, sequence) + (if c.sequence == sequence then [c] else [])
  {
    if changes == [] || changes[|changes| - 1].sequence <= c.sequence {
      OfSequenceAppend(changes, c, sequence);
    } else {
      var init, last := changes[..|changes| - 1], changes[|changes| - 1];
      InsertChangeIsStable(init, c, sequence);
      OfSequenceAppend(InsertChange(init, c), last, sequence);
    }
  }

  /** And it is stable: the changes of one sequence keep their order. */
  lemma {:induction false} BySequenceIsStable(changes: seq<Change>, sequence: int)
    ensures OfSequence(BySequence(changes), sequence) == OfSequence(changes, sequence)
  {
    if changes != [] {
      BySequenceIsStable(changes[..|changes| - 1], sequence);
      InsertChangeIsStable(BySequence(changes[..|changes| - 1]), changes[|changes| - 1], sequence);
    }
  }

  /** Evidence is read in the order of its sequence numbers. */
  predicate ReadInOrder(items: seq<Item>) {
    forall i, j | 0 <= i < j < |items| :: items[i].sequence <= items[j].sequence
  }

  predicate EndsBy(changes: seq<Change>, sequence: int) {
    InOrder(changes) && forall i | 0 <= i < |changes| :: changes[i].sequence <= sequence
  }

  lemma {:induction false} EntriesInOrder(item: Item, entries: seq<Entry>)
    ensures forall i | 0 <= i < |EntryChanges(item, entries)| ::
              EntryChanges(item, entries)[i].sequence == item.sequence
  {
    if entries != [] { EntriesInOrder(item, entries[..|entries| - 1]); }
  }

  lemma {:induction false} ObservedInOrder(items: seq<Item>)
    requires ReadInOrder(items)
    ensures InOrder(Observed(items))
    ensures items != [] ==> EndsBy(Observed(items), items[|items| - 1].sequence)
  {
    if items != [] {
      var init, item := items[..|items| - 1], items[|items| - 1];
      ObservedInOrder(init);
      if init != [] { assert init[|init| - 1].sequence <= item.sequence; }
      EntriesInOrder(item, item.entries);
      assert EndsBy(Observed(init), item.sequence);
      hide Observed, Trailing, EntryChanges;
      assert EndsBy(Observed(init) + EntryChanges(item, item.entries), item.sequence);
      assert Observed(items) == WithOperation(Observed(init) + EntryChanges(item, item.entries), item) by {
        LastItem(items);
      }
    }
  }

  lemma LastItem(items: seq<Item>)
    requires items != []
    ensures var item := items[|items| - 1];
            Observed(items) == WithOperation(Observed(items[..|items| - 1]) + EntryChanges(item, item.entries), item)
  {
  }

  lemma {:induction false} OnPathInOrder(changes: seq<Change>, path: nat)
    requires InOrder(changes)
    ensures InOrder(OnPath(changes, path))
  {
    if changes != [] {
      var init, last := changes[..|changes| - 1], changes[|changes| - 1];
      OnPathInOrder(init, path);
      OnPathHolds(init, path);
      forall c | c in OnPath(init, path) ensures c.sequence <= last.sequence {
        var i :| 0 <= i < |init| && init[i] == c;
        assert changes[i] == c;
      }
    }
  }

  /** So for every path the sort moves nothing: its changes stand as they were observed. */
  lemma PathsKeepTheirOrder(items: seq<Item>, path: nat)
    requires ReadInOrder(items)
    ensures BySequence(OnPath(Observed(items), path)) == OnPath(Observed(items), path)
  {
    ObservedInOrder(items);
    OnPathInOrder(Observed(items), path);
    InOrderStays(OnPath(Observed(items), path));
  }

  lemma {:induction false} OnPathHolds(changes: seq<Change>, path: nat)
    ensures forall c :: c in OnPath(changes, path) <==> c in changes && c.path == path
  {
    if changes != [] {
      OnPathHolds(changes[..|changes| - 1], path);
      assert changes == changes[..|changes| - 1] + [changes[|changes| - 1]];
    }
  }

  lemma FileCounts(differ: Differ, changes: seq<Change>, path: nat)
    ensures var f := FileOf(differ, changes, path);
            f.Some? ==> f.value.path == path && f.value.operations == |OnPath(changes, path)|
  {
    DetailCountsAll(differ, path, BySequence(OnPath(changes, path)));
    BySequenceKeeps(OnPath(changes, path));
  }

  /** The files of a list of paths, each for a path whose changes leave something to show. */
  lemma {:induction false} FilesAtPaths(differ: Differ, changes: seq<Change>, paths: seq<nat>, f: File)
    ensures f in FilesAt(differ, changes, paths) <==> f.path in paths && FileOf(differ, changes, f.path) == Some(f)
  {
    hide FileOf;
    if paths != [] {
      var init, last := paths[..|paths| - 1], paths[|paths| - 1];
      FilesAtPaths(differ, changes, init, f);
      FileCounts(differ, changes, last);
      assert paths == init + [last];
    }
  }

  /** ... in the order of the paths. */
  lemma {:induction false} FilesInOrder(differ: Differ, changes: seq<Change>, paths: seq<nat>, i: nat, j: nat)
    requires StrictlySorted(paths) && i < j < |FilesAt(differ, changes, paths)|
    ensures FilesAt(differ, changes, paths)[i].path < FilesAt(differ, changes, paths)[j].path
  {
    hide FileOf;
    var init, last := paths[..|paths| - 1], paths[|paths| - 1];
    var before := FilesAt(differ, changes, init);
    FileCounts(differ, changes, last);
    if j < |before| {
      FilesInOrder(differ, changes, init, i, j);
    } else {
      assert before[i] in before;
      FilesAtPaths(differ, changes, init, before[i]);
      var k :| 0 <= k < |init| && init[k] == before[i].path;
      assert paths[k] < paths[|paths| - 1];
    }
  }

  lemma NotListed(changes: seq<Change>, path: nat)
    requires path !in PathsOf(changes)
    ensures OnPath(changes, path) == []
  {
    OnPathHolds(changes, path);
    PathsAreSorted(changes);
    if OnPath(changes, path) != [] {
      assert OnPath(changes, path)[0] in OnPath(changes, path);
    }
  }

  method FileDetailsFromOperations(differ: Differ, changes: seq<Change>) returns (files: seq<File>)
    ensures files == FilesFrom(differ, changes)
  {
    hide FileDetail;
    var byPath: map<nat, seq<Change>> := map[];
    var paths: seq<nat> := [];
    var i := 0;
    while i < |changes|
      invariant 0 <= i <= |changes|
      invariant paths == PathsOf(changes[..i])
      invariant forall p :: p in byPath <==> p in paths
      invariant forall p | p in byPath :: byPath[p] == OnPath(changes[..i], p)
    {
      assert changes[..i + 1][..i] == changes[..i];
      var c := changes[i];
      PathsAreSorted(changes[..i]);
      InsertPathSorts(paths, c.path);
      if c.path !in paths { NotListed(changes[..i], c.path); }
      byPath := byPath[c.path := (if c.path in byPath then byPath[c.path] else []) + [c]];
      paths := InsertPath(paths, c.path);
      i := i + 1;
    }
    assert changes[..i] == changes;
    files := [];
    var k := 0;
    while k < |paths|
      invariant 0 <= k <= |paths|
      invariant files == FilesAt(differ, changes, paths[..k])
    {
      assert paths[..k + 1][..k] == paths[..k] && paths[k] in byPath;
      var detail := FileDetail(differ, paths[k], BySequence(byPath[paths[k]]));
      if detail.Some? { files := files + [detail.value]; }
      k := k + 1;
    }
    assert paths[..k] == paths;
  }
}
