/** The whole aggregation: evidence in, details and card out, and the check that reads them back. */
module FileAggregate {
  import opened Options
  import opened FileDetails
  import opened FileCard

  datatype Summary = Summary(id: nat, path: nat, kind: ChangeKind, presentation: Presentation, operations: nat,
                             counts: Counts)
  datatype Card = Card(fileCount: nat, operations: nat, counts: Counts, files: seq<Summary>)
  datatype Details = Details(card: Card, files: seq<File>)

  // The environment of one aggregation: the differ, which paths lie outside the execution root, the
  // identities files already have, and new ones by position. The identity 0 is the blank one.
  datatype Env = Env(differ: Differ, outside: nat -> bool, known: map<nat, nat>, newId: nat -> nat)

  // Run snapshots ----------------------------------------------------------------------------------

  function CountOn(changes: seq<Change>, path: nat): nat {
    if OnPath(changes, path) == [] then 1 else |OnPath(changes, path)|
  }

  function SectionFile(sequence: int, changes: seq<Change>, s: Section): File
    requires s.path.Some?
  {
    File(0, s.path.value, s.kind, NetDiff, CountOn(changes, s.path.value), Known(s.diff),
         [Block(sequence, FullNetDiff, s.kind, Known(s.diff), Some(s.diff))])
  }

  predicate Readable(sections: seq<Section>) {
    sections != [] && forall i | 0 <= i < |sections| :: sections[i].path.Some?
  }

  function SectionFiles(sequence: int, changes: seq<Change>, sections: seq<Section>): (r: seq<File>)
    requires forall i | 0 <= i < |sections| :: sections[i].path.Some?
    ensures |r| == |sections| && forall i | 0 <= i < |r| :: r[i] == SectionFile(sequence, changes, sections[i])
  {
    seq(|sections|, i requires 0 <= i < |sections| => SectionFile(sequence, changes, sections[i]))
  }

  function Outside(outside: nat -> bool, changes: seq<Change>): seq<Change> {
    if changes == [] then []
    else
      var rest := Outside(outside, changes[..|changes| - 1]);
      if outside(changes[|changes| - 1].path) then rest + [changes[|changes| - 1]] else rest
  }

  // file_details_with_authoritative_snapshot: inside the root the diff of the run is the authority.
  function SnapshotFiles(env: Env, sequence: int, diff: RunDiff, changes: seq<Change>): seq<File> {
    var outsiders := Outside(env.outside, changes);
    if diff.blank then FilesFrom(env.differ, outsiders)
    else if !Readable(diff.sections) then FilesFrom(env.differ, changes)
    else
      var listed := set i | 0 <= i < |diff.sections| :: diff.sections[i].path.value;
      SectionFiles(sequence, changes, diff.sections)
        + FilesFrom(env.differ, Outside(p => p !in listed, outsiders))
  }

  // aggregate_evidence_with_existing_ids -----------------------------------------------------------

  function LatestRunDiff(items: seq<Item>): Option<(int, RunDiff)> {
    if items == [] then None
    else if items[|items| - 1].runDiff.Some? then Some((items[|items| - 1].sequence, items[|items| - 1].runDiff.value))
    else LatestRunDiff(items[..|items| - 1])
  }

  function SendPaths(items: seq<Item>): set<nat> {
    set i | 0 <= i < |items| && items[i].sendPath.Some? :: items[i].sendPath.value
  }

  function AllFiles(env: Env, items: seq<Item>): seq<File> {
    match LatestRunDiff(items)
    case None => FilesFrom(env.differ, Observed(items))
    case Some(snapshot) => SnapshotFiles(env, snapshot.0, snapshot.1, Observed(items))
  }

  function Retained(files: seq<File>, dropped: set<nat>): seq<File> {
    if files == [] then []
    else
      var rest := Retained(files[..|files| - 1], dropped);
      if files[|files| - 1].path in dropped then rest else rest + [files[|files| - 1]]
  }

  function Named(env: Env, files: seq<File>): (r: seq<File>)
    ensures |r| == |files|
    ensures forall i | 0 <= i < |r| :: r[i] == files[i].(id := r[i].id)
  {
    seq(|files|, i requires 0 <= i < |files| =>
      files[i].(id := if files[i].path in env.known then env.known[files[i].path] else env.newId(i)))
  }

  function CountsOf(files: seq<File>): (r: seq<Counts>)
    ensures |r| == |files| && forall i | 0 <= i < |r| :: r[i] == files[i].counts
  {
    seq(|files|, i requires 0 <= i < |files| => files[i].counts)
  }

  function TotalOperations(files: seq<File>): nat {
    if files == [] then 0 else SatAdd(TotalOperations(files[..|files| - 1]), files[|files| - 1].operations)
  }

  function SummaryOf(f: File): Summary { Summary(f.id, f.path, f.kind, f.presentation, f.operations, f.counts) }

  function Summaries(files: seq<File>): (r: seq<Summary>)
    ensures |r| == |files| && forall i | 0 <= i < |r| :: r[i] == SummaryOf(files[i])
  {
    seq(|files|, i requires 0 <= i < |files| => SummaryOf(files[i]))
  }

  predicate AllKnown(files: seq<File>) { forall i | 0 <= i < |files| :: BothKnown(files[i].counts) }

  function CardOf(files: seq<File>): Card {
    Card(|files|, TotalOperations(files), if AllKnown(files) then SumKnown(CountsOf(files)) else UNKNOWN,
        Summaries(files))
  }

  function ListedFiles(env: Env, items: seq<Item>): seq<File> {
    Named(env, Retained(AllFiles(env, items), SendPaths(items)))
  }

  function Aggregate(env: Env, items: seq<Item>): Option<Details> {
    var files := ListedFiles(env, items);
    if files == [] then None else Some(Details(CardOf(files), files))
  }

  lemma {:induction false} NothingObserved()
    ensures Observed([]) == [] && SendPaths([]) == {} && LatestRunDiff([]) == None
  {
  }

  lemma {:induction false} OneMoreItem(items: seq<Item>, i: nat)
    requires i < |items|
    ensures Observed(items[..i + 1])
              == WithOperation(Observed(items[..i]) + EntryChanges(items[i], items[i].entries), items[i])
    ensures SendPaths(items[..i + 1])
         == SendPaths(items[..i]) + (if items[i].sendPath.Some? then {items[i].sendPath.value} else {})
  {
    assert items[..i + 1][..i] == items[..i];
  }

  method AggregateEvidence(env: Env, items: seq<Item>) returns (details: Option<Details>)
    ensures details == Aggregate(env, items)
  {
    hide Observed, Retained, Named, CardOf, SnapshotFiles, FilesFrom;
    assert Observed([]) == [] && SendPaths([]) == {} by { NothingObserved(); }
    var changes: seq<Change> := [];
    var latest: Option<(int, RunDiff)> := None;
    var sendPaths: set<nat> := {};
    var i := 0;
    while i < |items|
      invariant 0 <= i <= |items|
      invariant changes == Observed(items[..i]) && latest == LatestRunDiff(items[..i])
                  && sendPaths == SendPaths(items[..i])
    {
      assert items[..i + 1][..i] == items[..i];
      OneMoreItem(items, i);
      if items[i].sendPath.Some? { sendPaths := sendPaths + {items[i].sendPath.value}; }
      if items[i].runDiff.Some? { latest := Some((items[i].sequence, items[i].runDiff.value)); }
      changes := AppendChanges(changes, items[i]);
      i := i + 1;
    }
    assert items[..i] == items;
    var all;
    if latest.Some? {
      all := SnapshotFiles(env, latest.value.0, latest.value.1, changes);
    } else {
      all := FileDetailsFromOperations(env.differ, changes);
    }
    var kept := RetainUnsent(all, sendPaths);
    if kept == [] { return None; }
    var files := Named(env, kept);
    var card := BuildCard(files);
    return Some(Details(card, files));
  }

  method RetainUnsent(files: seq<File>, dropped: set<nat>) returns (kept: seq<File>)
    ensures kept == Retained(files, dropped)
  {
    kept := [];
    var k := 0;
    while k < |files|
      invariant 0 <= k <= |files| && kept == Retained(files[..k], dropped)
    {
      assert files[..k + 1][..k] == files[..k];
      if files[k].path !in dropped { kept := kept + [files[k]]; }
      k := k + 1;
    }
    assert files[..k] == files;
  }

  method BuildCard(files: seq<File>) returns (card: Card)
    ensures card == CardOf(files)
  {
    var known, operations := true, 0;
    var j := 0;
    while j < |files|
      invariant 0 <= j <= |files|
      invariant known == AllKnown(files[..j]) && operations == TotalOperations(files[..j])
    {
      assert files[..j + 1][..j] == files[..j];
      known := known && files[j].counts.additions.Some? && files[j].counts.deletions.Some?;
      operations := SatAdd(operations, files[j].operations);
      j := j + 1;
    }
    assert files[..j] == files;
    var counts := UNKNOWN;
    if known { counts := SumKnownCounts(CountsOf(files)); }
    return Card(|files|, operations, counts, Summaries(files));
  }

  // What the card says ------------------------------------------------------------------------------

  function PlainOperations(files: seq<File>): nat {
    if files == [] then 0 else PlainOperations(files[..|files| - 1]) + files[|files| - 1].operations
  }

  lemma {:induction false} OperationsAreCapped(files: seq<File>)
    ensures TotalOperations(files) == Capped(PlainOperations(files))
  {
    if files != [] { OperationsAreCapped(files[..|files| - 1]); }
  }

  function PairsOf(files: seq<File>): (r: seq<(nat, nat)>)
    requires AllKnown(files)
    ensures |r| == |files|
    ensures forall i | 0 <= i < |r| :: r[i] == (files[i].counts.additions.value, files[i].counts.deletions.value)
  {
    seq(|files|, i requires 0 <= i < |files| => (files[i].counts.additions.value, files[i].counts.deletions.value))
  }

  predicate Summarises(s: Summary, f: File) {
    && s.id == f.id && s.path == f.path && s.kind == f.kind && s.presentation == f.presentation
    && s.operations == f.operations
    && s.counts.additions == f.counts.additions && s.counts.deletions == f.counts.deletions
  }

  /** The card agrees with its details: summary by summary, and in every total. Totals are known exactly when every
      file's are, and are then the sums over the files, capped at the largest 64-bit number. */
  lemma {:induction false} CardAgrees(env: Env, items: seq<Item>)
    ensures Aggregate(env, items).Some? ==> var d := Aggregate(env, items).value;
      && d.files != [] && d.card.fileCount == |d.files| == |d.card.files|
      && (forall i | 0 <= i < |d.files| :: Summarises(d.card.files[i], d.files[i]))
      && d.card.operations == Capped(PlainOperations(d.files))
      && (BothKnown(d.card.counts) <==> AllKnown(d.files))
      && (!AllKnown(d.files) ==> d.card.counts == UNKNOWN)
      && (AllKnown(d.files) ==>
            && d.card.counts.additions == Some(Capped(PlainSum(PairsOf(d.files)).0))
            && d.card.counts.deletions == Some(Capped(PlainSum(PairsOf(d.files)).1)))
  {
    var files := ListedFiles(env, items);
    OperationsAreCapped(files);
    hide ListedFiles, TotalOperations, PlainOperations;
    if AllKnown(files) {
      AllKnownKeepsAll(CountsOf(files));
      assert KnownOnly(CountsOf(files)) == PairsOf(files);
      SaturatingIsCapped(PairsOf(files));
      hide PlainSum, SaturatingSum, KnownOnly;
    }
  }

  lemma {:induction false} RetainedHolds(files: seq<File>, dropped: set<nat>, f: File)
    ensures f in Retained(files, dropped) <==> f in files && f.path !in dropped
  {
    if files != [] {
      RetainedHolds(files[..|files| - 1], dropped, f);
      assert files == files[..|files| - 1] + [files[|files| - 1]];
    }
  }

  /** The source of a successful send is never listed, wherever in the evidence the send stands. */
  lemma {:induction false} SendSourcesAreNotListed(env: Env, items: seq<Item>, i: nat, k: nat)
    requires i < |items| && items[i].sendPath.Some?
    ensures k < |ListedFiles(env, items)| ==> ListedFiles(env, items)[k].path != items[i].sendPath.value
  {
    var kept := Retained(AllFiles(env, items), SendPaths(items));
    assert items[i].sendPath.value in SendPaths(items);
    hide AllFiles, Retained;
    if k < |ListedFiles(env, items)| {
      assert kept[k] in kept;
      RetainedHolds(AllFiles(env, items), SendPaths(items), kept[k]);
    }
  }

  /** Without a run snapshot each listed file counts the changes observed on its path, and a path with changes is listed
      unless it was sent or its changes chain back to where they began. */
  lemma {:induction false} OperationCountsAreObserved(env: Env, items: seq<Item>, k: nat)
    requires LatestRunDiff(items).None? && k < |ListedFiles(env, items)|
    ensures var f := ListedFiles(env, items)[k]; f.operations == |OnPath(Observed(items), f.path)|
  {
    var all := AllFiles(env, items);
    var kept := Retained(all, SendPaths(items));
    hide Observed, Retained, FileOf;
    assert kept[k] in kept;
    RetainedHolds(all, SendPaths(items), kept[k]);
    FilesAtPaths(env.differ, Observed(items), PathsOf(Observed(items)), kept[k]);
    FileCounts(env.differ, Observed(items), kept[k].path);
  }

  lemma {:induction false} OnPathNotEmpty(changes: seq<Change>, path: nat)
    ensures path in PathsOf(changes) <==> OnPath(changes, path) != []
  {
    PathsAreSorted(changes);
    OnPathHolds(changes, path);
    if OnPath(changes, path) != [] { assert OnPath(changes, path)[0] in OnPath(changes, path); }
  }

  lemma {:induction false} ListedIff(env: Env, items: seq<Item>, path: nat)
    requires LatestRunDiff(items).None? && Succeeds(env.differ)
    ensures var changes := BySequence(OnPath(Observed(items), path));
      (exists k :: 0 <= k < |ListedFiles(env, items)| && ListedFiles(env, items)[k].path == path) <==>
        && changes != [] && path !in SendPaths(items)
        && !(FullStatesOnly(changes) && Chained(changes)
             && changes[0].semantics.before == changes[|changes| - 1].semantics.after)
  {
    var observed := Observed(items);
    var changes := BySequence(OnPath(observed, path));
    var all := AllFiles(env, items);
    var kept := Retained(all, SendPaths(items));
    BySequenceKeeps(OnPath(observed, path));
    OnPathNotEmpty(observed, path);
    FileCounts(env.differ, observed, path);
    if changes != [] { DisappearsIff(env.differ, path, changes); }
    hide Observed, Retained, FileDetail, Chained, BySequence, FullStatesOnly;
    var f := FileOf(env.differ, observed, path);
    if f.Some? && path in PathsOf(observed) && path !in SendPaths(items) {
      FilesAtPaths(env.differ, observed, PathsOf(observed), f.value);
      RetainedHolds(all, SendPaths(items), f.value);
      var k :| 0 <= k < |kept| && kept[k] == f.value;
      assert ListedFiles(env, items)[k].path == path;
    }
    forall k | 0 <= k < |kept| && kept[k].path == path
      ensures f == Some(kept[k]) && path in PathsOf(observed) && path !in SendPaths(items)
    {
      assert kept[k] in kept;
      RetainedHolds(all, SendPaths(items), kept[k]);
      FilesAtPaths(env.differ, observed, PathsOf(observed), kept[k]);
    }
  }

  /** One change from the first state to the last for a chain, every change in its place for a broken one. */
  predicate ShowsStates(differ: Differ, f: File, changes: seq<Change>)
    requires changes != [] && FullStatesOnly(changes)
  {
    var before, after := changes[0].semantics.before, changes[|changes| - 1].semantics.after;
    if Chained(changes) then
      before != after && |f.blocks| == 1 && f.blocks[0].diff == differ(before, after)
      && f.kind == f.blocks[0].kind == NetKind(before, after)
    else
      |f.blocks| == |changes|
      && forall i | 0 <= i < |changes| ::
           f.blocks[i].sequence == changes[i].sequence
           && f.blocks[i].diff == differ(changes[i].semantics.before, changes[i].semantics.after)
  }

  /** A listed file whose changes are all full states shows them so, in the order of their sequence,
      and counts them all. */
  lemma {:induction false} ListedChains(env: Env, items: seq<Item>, k: nat)
    requires LatestRunDiff(items).None? && Succeeds(env.differ)
    ensures k < |ListedFiles(env, items)|
              && FullStatesOnly(OnPath(Observed(items), ListedFiles(env, items)[k].path)) ==>
      var f := ListedFiles(env, items)[k];
      var found := OnPath(Observed(items), f.path);
      var changes := BySequence(found);
      && changes != [] && FullStatesOnly(changes) && ShowsStates(env.differ, f, changes)
      && f.operations == |changes| && InOrder(changes) && (ReadInOrder(items) ==> changes == found)
  {
    if k >= |ListedFiles(env, items)| || !FullStatesOnly(OnPath(Observed(items), ListedFiles(env, items)[k].path)) {
      return;
    }
    var path := ListedFiles(env, items)[k].path;
    var found := OnPath(Observed(items), path);
    var changes := BySequence(found);
    OperationCountsAreObserved(env, items, k);
    BySequenceKeeps(found);
    BySequenceOrders(found);
    if ReadInOrder(items) { PathsKeepTheirOrder(items, path); }
    FullStatesStay(found, changes);
    ListedIsDetail(env, items, k);
    hide Observed, ListedFiles, OnPath, BySequence, ReadInOrder, InOrder, ShowsStates, FileDetail, FullStatesOnly,
         Succeeds;
    FullStatesShown(env.differ, path, changes, ListedFiles(env, items)[k]);
  }

  lemma {:induction false} ListedIsDetail(env: Env, items: seq<Item>, k: nat)
    requires LatestRunDiff(items).None? && k < |ListedFiles(env, items)|
    ensures var f := ListedFiles(env, items)[k]; var found := OnPath(Observed(items), f.path);
            found != [] && FileDetail(env.differ, f.path, BySequence(found)) == Some(f.(id := 0))
  {
    var all := AllFiles(env, items);
    var kept := Retained(all, SendPaths(items));
    var path := kept[k].path;
    OnPathNotEmpty(Observed(items), path);
    hide Observed, Retained, OnPath, BySequence;
    assert kept[k] in kept;
    RetainedHolds(all, SendPaths(items), kept[k]);
    FilesAtPaths(env.differ, Observed(items), PathsOf(Observed(items)), kept[k]);
    DetailIsUnnamed(env.differ, path, BySequence(OnPath(Observed(items), path)));
  }

  lemma {:induction false} DetailIsUnnamed(differ: Differ, path: nat, changes: seq<Change>)
    ensures FileDetail(differ, path, changes).Some? ==> FileDetail(differ, path, changes).value.id == 0
  {
    SelectedSplits(changes);
    hide SumKnown, Chained, CombinedKind, Selected;
  }

  lemma {:induction false} FullStatesShown(differ: Differ, path: nat, changes: seq<Change>, f: File)
    requires Succeeds(differ) && changes != [] && FullStatesOnly(changes)
    requires FileDetail(differ, path, changes) == Some(f.(id := 0))
    ensures ShowsStates(differ, f, changes)
  {
    FullStateDetail(differ, path, changes);
    hide FileDetail, SumKnown;
  }

  lemma {:induction false} FullStatesStay(changes: seq<Change>, sorted: seq<Change>)
    requires FullStatesOnly(changes) && multiset(sorted) == multiset(changes)
    ensures FullStatesOnly(sorted)
  {
    forall i | 0 <= i < |sorted| ensures sorted[i].semantics.FullBeforeAfter? {
      assert sorted[i] in multiset(sorted);
      assert sorted[i] in changes;
    }
  }

  // What file_detail_from_operations shows of full states alone.
  lemma {:induction false} FullStateDetail(differ: Differ, path: nat, changes: seq<Change>)
    requires Succeeds(differ) && changes != [] && FullStatesOnly(changes)
    ensures FileDetail(differ, path, changes).Some? ==>
      && NetDetail(differ, path, changes).Some?
      && FileDetail(differ, path, changes).value
         == NetDetail(differ, path, changes).value.(operations := |changes|)
  {
    AllSelected(changes);
    hide Selected, Chained, SumKnown;
  }

  lemma {:induction false} OutsideOnly(outside: nat -> bool, changes: seq<Change>, path: nat)
    ensures OnPath(Outside(outside, changes), path) == if outside(path) then OnPath(changes, path) else []
  {
    if changes != [] {
      var init, last := changes[..|changes| - 1], changes[|changes| - 1];
      OutsideOnly(outside, init, path);
      if outside(last.path) {
        var kept := Outside(outside, init);
        assert (kept + [last])[..|kept|] == kept;
      }
    }
  }

  lemma {:induction false} OutsiderFile(env: Env, changes: seq<Change>, listed: set<nat>, f: File)
    requires f in FilesFrom(env.differ, Outside(p => p !in listed, Outside(env.outside, changes)))
    ensures env.outside(f.path) && f.path !in listed && f.operations == |OnPath(changes, f.path)|
  {
    var outsiders := Outside(env.outside, changes);
    var missing := Outside(p => p !in listed, outsiders);
    FilesAtPaths(env.differ, missing, PathsOf(missing), f);
    FileCounts(env.differ, missing, f.path);
    OnPathNotEmpty(missing, f.path);
    OutsideOnly(p => p !in listed, outsiders, f.path);
    OutsideOnly(env.outside, changes, f.path);
    hide FileOf, OnPath, Outside, FilesAt, PathsOf;
  }

  predicate SectionLists(diff: RunDiff, path: nat) {
    exists i | 0 <= i < |diff.sections| :: diff.sections[i].path == Some(path)
  }

  /** A readable run snapshot is the authority: its sections are listed as they stand, and operations add only paths
      outside the execution root that no section names, with all their observed changes counted. */
  lemma {:induction false} SnapshotIsAuthority(env: Env, sequence: int, diff: RunDiff, changes: seq<Change>, k: nat)
    requires !diff.blank && Readable(diff.sections) && k < |SnapshotFiles(env, sequence, diff, changes)|
    ensures var f := SnapshotFiles(env, sequence, diff, changes)[k];
      if k < |diff.sections| then f == SectionFile(sequence, changes, diff.sections[k])
      else env.outside(f.path) && !SectionLists(diff, f.path) && f.operations == |OnPath(changes, f.path)|
  {
    if k >= |diff.sections| {
      var listed := set i | 0 <= i < |diff.sections| :: diff.sections[i].path.value;
      var missing := Outside(p => p !in listed, Outside(env.outside, changes));
      var f := FilesFrom(env.differ, missing)[k - |diff.sections|];
      assert f in FilesFrom(env.differ, missing);
      OutsiderFile(env, changes, listed, f);
      hide FilesFrom, Outside, OnPath;
      assert SectionLists(diff, f.path) ==> f.path in listed;
    }
  }

  // adapt_detail_to_public_v2 ----------------------------------------------------------------------

  /** What the read-back check makes of stored details; None when it refuses them. */
  function ReadBack(details: Details, version: nat, legacy: nat -> nat): Option<Details> {
    if |details.card.files| != |details.files| || version !in {1, 2, SCHEMA_VERSION} then None
    else if exists i | 0 <= i < |details.files| ::
      || details.files[i].path != details.card.files[i].path
      || (version != 1 && (details.card.files[i].id == 0 || details.files[i].id != details.card.files[i].id)) then None
    else if version != 1 then Some(details)
    else Some(Details(details.card.(files := LegacySummaries(details.card.files, legacy)),
        LegacyFiles(details.files, legacy)))
  }

  function LegacySummaries(files: seq<Summary>, legacy: nat -> nat): (r: seq<Summary>)
    ensures |r| == |files| && forall i | 0 <= i < |r| :: r[i] == files[i].(id := legacy(i))
  {
    seq(|files|, i requires 0 <= i < |files| => files[i].(id := legacy(i)))
  }

  function LegacyFiles(files: seq<File>, legacy: nat -> nat): (r: seq<File>)
    ensures |r| == |files| && forall i | 0 <= i < |r| :: r[i] == files[i].(id := legacy(i))
  {
    seq(|files|, i requires 0 <= i < |files| => files[i].(id := legacy(i)))
  }

  method AdaptDetail(details: Details, version: nat, legacy: nat -> nat) returns (adapted: Option<Details>)
    ensures adapted == ReadBack(details, version, legacy)
  {
    if |details.card.files| != |details.files| || version !in {1, 2, SCHEMA_VERSION} { return None; }
    var summaries, files := details.card.files, details.files;
    var i := 0;
    while i < |summaries|
      invariant 0 <= i <= |summaries| == |details.card.files|
      invariant version != 1 ==> summaries == details.card.files && forall j | 0 <= j < i :: summaries[j].id != 0
      invariant version == 1 ==> forall j | 0 <= j < i :: summaries[j] == details.card.files[j].(id := legacy(j))
      invariant forall j | i <= j < |summaries| :: summaries[j] == details.card.files[j]
    {
      if version == 1 { summaries := summaries[i := summaries[i].(id := legacy(i))]; }
      else if summaries[i].id == 0 { return None; }
      i := i + 1;
    }
    var k := 0;
    while k < |files|
      invariant 0 <= k <= |files| == |details.files|
      invariant forall j | 0 <= j < k :: details.files[j].path == details.card.files[j].path
      invariant version != 1 ==> files == details.files && forall j | 0 <= j < k :: files[j].id == summaries[j].id
      invariant version == 1 ==> forall j | 0 <= j < k :: files[j] == details.files[j].(id := legacy(j))
      invariant forall j | k <= j < |files| :: files[j] == details.files[j]
    {
      if files[k].path != summaries[k].path { return None; }
      if version == 1 { files := files[k := files[k].(id := summaries[k].id)]; }
      else if files[k].id != summaries[k].id || files[k].id == 0 { return None; }
      k := k + 1;
    }
    assert version == 1 ==>
           summaries == LegacySummaries(details.card.files, legacy) && files == LegacyFiles(details.files, legacy);
    return Some(Details(details.card.(files := summaries), files));
  }

  predicate SamePaths(d: Details) {
    && |d.card.files| == |d.files|
    && forall i | 0 <= i < |d.files| :: d.files[i].path == d.card.files[i].path
  }

  predicate SameIds(d: Details) {
    && |d.card.files| == |d.files|
    && forall i | 0 <= i < |d.files| :: d.files[i].id == d.card.files[i].id != 0
  }

  /** Which stored details are accepted: of the versions 2 and 3 those whose card and files agree in path and identity,
      none of it blank, and they stay as they are; of version 1 those that agree in path, and file and summary get the
      identity derived for their place and keep the rest; of any other version none. */
  lemma StoredVersions(d: Details, version: nat, legacy: nat -> nat)
    ensures var read := ReadBack(d, version, legacy);
      && (version == 2 || version == 3 ==> read == if SamePaths(d) && SameIds(d) then Some(d) else None)
      && (version == 1 ==> (read.Some? <==> SamePaths(d)))
      && (version == 1 && read.Some? ==>
            && |read.value.files| == |read.value.card.files| == |d.files|
            && read.value.card == d.card.(files := read.value.card.files)
            && forall i | 0 <= i < |d.files| ::
                 && read.value.files[i].id == read.value.card.files[i].id == legacy(i)
                 && read.value.files[i] == d.files[i].(id := legacy(i))
                 && read.value.card.files[i] == d.card.files[i].(id := legacy(i)))
      && (version == 0 || version > 3 ==> read.None?)
  {
  }

  /** The read-back check accepts what aggregation produced, and changes nothing, exactly when no
      file got a blank identity. */
  lemma {:induction false} ReadBackIff(env: Env, items: seq<Item>, legacy: nat -> nat)
    ensures Aggregate(env, items).Some? ==> var d := Aggregate(env, items).value;
      ReadBack(d, SCHEMA_VERSION, legacy)
          == (if exists i | 0 <= i < |d.files| :: d.files[i].id == 0 then None else Some(d))
  {
    hide ListedFiles, TotalOperations, SumKnown;
  }

  /** Neither the identities files already have nor the new ones are blank. */
  ghost predicate NoBlank(env: Env) {
    (forall p | p in env.known :: env.known[p] != 0) && forall i :: env.newId(i) != 0
  }

  /** So it accepts whatever aggregation produces from identities that are not blank. */
  lemma {:induction false} ReadBackAccepts(env: Env, items: seq<Item>, legacy: nat -> nat)
    requires NoBlank(env)
    ensures Aggregate(env, items).Some? ==>
      ReadBack(Aggregate(env, items).value, SCHEMA_VERSION, legacy) == Some(Aggregate(env, items).value)
  {
    ReadBackIff(env, items, legacy);
    NamedIds(env, Retained(AllFiles(env, items), SendPaths(items)));
    hide AllFiles, Retained, Named, CardOf, ReadBack;
  }

  lemma {:induction false} NamedIds(env: Env, files: seq<File>)
    ensures forall i | 0 <= i < |files| ::
      Named(env, files)[i].id == if files[i].path in env.known then env.known[files[i].path] else env.newId(i)
  {
  }
}
