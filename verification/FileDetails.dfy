/** Evidence of one run folded into changed files and a card (crates/rovai-core/src/agent_run_file_change.rs).
    Texts, paths and identities are numbers; the JSON fields of an item arrive already picked apart, and the
    text differ is a parameter. */
module FileDetails {
  import opened Options

  const U64_MAX := 0xFFFF_FFFF_FFFF_FFFF

  function SatAdd(a: nat, b: nat): nat { if a + b > U64_MAX then U64_MAX else a + b }

  datatype ChangeKind = Add | Update | Delete
  type Text = Option<nat> // None: the file does not exist
  datatype Diff = Diff(text: nat, additions: nat, deletions: nat)
  type Differ = (Text, Text) -> Option<Diff>

  datatype Semantics =
    | FullBeforeAfter(before: Text, after: Text)
    | UnifiedDiffSnapshot(diff: Diff)
    | ExactMutation(oldText: nat, newText: nat, fragment: Diff)
    | ReportedMutation(diff: Diff)
    | OperationOnly

  datatype Change = Change(sequence: int, path: nat, kind: ChangeKind, semantics: Semantics)

  datatype BlockSemantics = FullNetDiff | FullStates | DiffSnapshot | ExactBlock | ReportedBlock | OperationBlock
  datatype Counts = Counts(additions: Option<nat>, deletions: Option<nat>)

  datatype Block = Block(sequence: int, semantics: BlockSemantics, kind: ChangeKind, counts: Counts, diff: Option<Diff>)

  datatype Presentation = NetDiff | ExactMutations | ReportedMutations | OperationHistory | OperationsOnly

  datatype File = File(id: nat, path: nat, kind: ChangeKind, presentation: Presentation, operations: nat,
                       counts: Counts, blocks: seq<Block>)

  const UNKNOWN := Counts(None, None)

  function Known(d: Diff): Counts { Counts(Some(d.additions), Some(d.deletions)) }

  predicate BothKnown(c: Counts) { c.additions.Some? && c.deletions.Some? }

  // operation_block --------------------------------------------------------------------------------

  function OperationBlockOf(differ: Differ, c: Change): Block {
    match c.semantics
    case ReportedMutation(d) => Block(c.sequence, ReportedBlock, c.kind, Known(d), Some(d))
    case ExactMutation(_, _, d) => Block(c.sequence, ExactBlock, c.kind, Known(d), Some(d))
    case FullBeforeAfter(before, after) =>
      var d := differ(before, after);
      Block(c.sequence, FullStates, c.kind, if d.Some? then Known(d.value) else UNKNOWN, d)
    case UnifiedDiffSnapshot(d) => Block(c.sequence, DiffSnapshot, c.kind, Known(d), Some(d))
    case OperationOnly => Block(c.sequence, OperationBlock, c.kind, UNKNOWN, None)
  }

  function BlocksOf(differ: Differ, changes: seq<Change>): (r: seq<Block>)
    ensures |r| == |changes| && forall i | 0 <= i < |r| :: r[i] == OperationBlockOf(differ, changes[i])
  {
    seq(|changes|, i requires 0 <= i < |changes| => OperationBlockOf(differ, changes[i]))
  }

  function CountsOfBlocks(blocks: seq<Block>): (r: seq<Counts>)
    ensures |r| == |blocks| && forall i | 0 <= i < |r| :: r[i] == blocks[i].counts
  {
    seq(|blocks|, i requires 0 <= i < |blocks| => blocks[i].counts)
  }

  // combined_change_kind ---------------------------------------------------------------------------

  predicate AllOfKind(changes: seq<Change>, kind: ChangeKind) {
    forall i | 0 <= i < |changes| :: changes[i].kind == kind
  }

  function CombinedKind(changes: seq<Change>): ChangeKind {
    if changes != [] && AllOfKind(changes, changes[0].kind) then changes[0].kind else Update
  }

  // sum_known_counts -------------------------------------------------------------------------------

  function KnownOnly(counts: seq<Counts>): seq<(nat, nat)> {
    if counts == [] then []
    else
      var rest := KnownOnly(counts[..|counts| - 1]);
      var last := counts[|counts| - 1];
      if BothKnown(last) then rest + [(last.additions.value, last.deletions.value)] else rest
  }

  function SaturatingSum(pairs: seq<(nat, nat)>): (nat, nat) {
    if pairs == [] then (0, 0)
    else
      var rest := SaturatingSum(pairs[..|pairs| - 1]);
      (SatAdd(rest.0, pairs[|pairs| - 1].0), SatAdd(rest.1, pairs[|pairs| - 1].1))
  }

  function SumKnown(counts: seq<Counts>): Counts {
    var known := KnownOnly(counts);
    if known == [] then UNKNOWN else Counts(Some(SaturatingSum(known).0), Some(SaturatingSum(known).1))
  }

  method SumKnownCounts(counts: seq<Counts>) returns (total: Counts)
    ensures total == SumKnown(counts)
  {
    var found, additions, deletions := false, 0, 0;
    var i := 0;
    while i < |counts|
      invariant 0 <= i <= |counts|
      invariant found <==> KnownOnly(counts[..i]) != []
      invariant (additions, deletions) == SaturatingSum(KnownOnly(counts[..i]))
    {
      assert counts[..i + 1][..i] == counts[..i];
      ghost var before := KnownOnly(counts[..i]);
      if counts[i].additions.Some? && counts[i].deletions.Some? {
        found := true;
        additions := SatAdd(additions, counts[i].additions.value);
        deletions := SatAdd(deletions, counts[i].deletions.value);
        assert (before + [(counts[i].additions.value, counts[i].deletions.value)])[..|before|] == before;
      }
      i := i + 1;
    }
    assert counts[..i] == counts;
    return if found then Counts(Some(additions), Some(deletions)) else UNKNOWN;
  }

  /** A known total is the plain sum of the known parts, capped at the largest 64-bit number. */
  function PlainSum(pairs: seq<(nat, nat)>): (nat, nat) {
    if pairs == [] then (0, 0)
    else
      var rest := PlainSum(pairs[..|pairs| - 1]);
      (rest.0 + pairs[|pairs| - 1].0, rest.1 + pairs[|pairs| - 1].1)
  }

  function Capped(n: nat): nat { if n > U64_MAX then U64_MAX else n }

  lemma {:induction false} SaturatingIsCapped(pairs: seq<(nat, nat)>)
    ensures SaturatingSum(pairs) == (Capped(PlainSum(pairs).0), Capped(PlainSum(pairs).1))
  {
    if pairs != [] { SaturatingIsCapped(pairs[..|pairs| - 1]); }
  }

  lemma {:induction false} AllKnownKeepsAll(counts: seq<Counts>)
    requires forall i | 0 <= i < |counts| :: BothKnown(counts[i])
    ensures |KnownOnly(counts)| == |counts|
    ensures forall i | 0 <= i < |counts| ::
              BothKnown(counts[i]) && KnownOnly(counts)[i] == (counts[i].additions.value, counts[i].deletions.value)
  {
    if counts != [] { AllKnownKeepsAll(counts[..|counts| - 1]); }
  }

  // continuous_full_state_detail -------------------------------------------------------------------

  predicate FullStatesOnly(changes: seq<Change>) {
    forall i | 0 <= i < |changes| :: changes[i].semantics.FullBeforeAfter?
  }

  /** Each change starts from the text the one before it left. */
  predicate Chained(changes: seq<Change>)
    requires FullStatesOnly(changes)
  {
    forall i | 0 < i < |changes| :: changes[i].semantics.before == changes[i - 1].semantics.after
  }

  function HistoryFile(differ: Differ, path: nat, changes: seq<Change>, presentation: Presentation): File {
    File(0, path, CombinedKind(changes), presentation, |changes|,
         SumKnown(CountsOfBlocks(BlocksOf(differ, changes))), BlocksOf(differ, changes))
  }

  function NetKind(before: Text, after: Text): ChangeKind {
    if before.None? && after.Some? then Add else if before.Some? && after.None? then Delete else Update
  }

  /** A chain collapses to its ends, a broken one keeps every change. */
  function NetDetail(differ: Differ, path: nat, changes: seq<Change>): Option<File>
    requires changes != [] && FullStatesOnly(changes)
  {
    var before, after := changes[0].semantics.before, changes[|changes| - 1].semantics.after;
    if !Chained(changes) then Some(HistoryFile(differ, path, changes, OperationHistory))
    else if before == after || differ(before, after).None? then None
    else
      var d := differ(before, after).value;
      Some(File(0, path, NetKind(before, after), NetDiff, |changes|, Known(d),
                [Block(changes[0].sequence, FullNetDiff, NetKind(before, after), Known(d), Some(d))]))
  }

  method ContinuousFullStateDetail(differ: Differ, path: nat, changes: seq<Change>) returns (detail: Option<File>)
    requires changes != [] && FullStatesOnly(changes)
    ensures detail == NetDetail(differ, path, changes)
  {
    var first := changes[0];
    var baseline, current := first.semantics.before, first.semantics.after;
    var continuous := true;
    var i := 1;
    while i < |changes|
      invariant 1 <= i <= |changes| && continuous
      invariant FullStatesOnly(changes[..i]) && Chained(changes[..i])
      invariant current == changes[i - 1].semantics.after
    {
      if changes[i].semantics.before != current {
        continuous := false;
        break;
      }
      current := changes[i].semantics.after;
      i := i + 1;
    }
    if !continuous {
      assert !Chained(changes);
      var blocks := BlocksOf(differ, changes);
      var counts := SumKnownCounts(CountsOfBlocks(blocks));
      return Some(File(0, path, CombinedKind(changes), OperationHistory, |changes|, counts, blocks));
    }
    assert changes[..i] == changes;
    if baseline == current { return None; }
    var kind := NetKind(baseline, current);
    var diff := differ(baseline, current);
    if diff.None? { return None; }
    var d := diff.value;
    return Some(File(0, path, kind, NetDiff, |changes|, Known(d),
                     [Block(first.sequence, FullNetDiff, kind, Known(d), Some(d))]));
  }

  /** The differ fails only on equal states. */
  ghost predicate Succeeds(differ: Differ) {
    forall a, b :: differ(a, b).None? <==> a == b
  }

  /** A chain of any length is one change from its first `before` to its last `after`, and vanishes exactly when those
      are equal; any break keeps every change, in order. */
  lemma ChainsCollapse(differ: Differ, path: nat, changes: seq<Change>)
    requires Succeeds(differ) && changes != [] && FullStatesOnly(changes)
    ensures var detail := NetDetail(differ, path, changes);
            var before, after := changes[0].semantics.before, changes[|changes| - 1].semantics.after;
      && (detail.None? <==> Chained(changes) && before == after)
      && (Chained(changes) && before != after ==>
            |detail.value.blocks| == 1 && detail.value.blocks[0].diff == differ(before, after)
            && detail.value.operations == |changes|)
      && (!Chained(changes) ==>
            |detail.value.blocks| == |changes|
            && forall i | 0 <= i < |changes| ::
                 detail.value.blocks[i].sequence == changes[i].sequence
                 && detail.value.blocks[i].diff == differ(changes[i].semantics.before, changes[i].semantics.after))
  {
  }

  // file_detail_from_diff_operations and file_detail_from_operations ---------------------------------

  predicate IsOperationOnly(c: Change) { c.semantics.OperationOnly? }

  function Selected(changes: seq<Change>, operationOnly: bool): seq<Change> {
    if changes == [] then []
    else
      var rest := Selected(changes[..|changes| - 1], operationOnly);
      var last := changes[|changes| - 1];
      if IsOperationOnly(last) == operationOnly then rest + [last] else rest
  }

  function DiffDetail(differ: Differ, path: nat, changes: seq<Change>): Option<File>
    requires changes != []
  {
    if FullStatesOnly(changes) then NetDetail(differ, path, changes)
    else if |changes| == 1 && changes[0].semantics.UnifiedDiffSnapshot? then
      var d := changes[0].semantics.diff;
      Some(File(0, path, changes[0].kind, NetDiff, 1, Known(d),
                [Block(changes[0].sequence, FullNetDiff, changes[0].kind, Known(d), Some(d))]))
    else
      Some(HistoryFile(differ, path, changes,
        if forall i | 0 <= i < |changes| :: changes[i].semantics.ExactMutation? then ExactMutations
        else if forall i | 0 <= i < |changes| :: changes[i].semantics.ReportedMutation? then ReportedMutations
        else OperationHistory))
  }

  function FileDetail(differ: Differ, path: nat, changes: seq<Change>): Option<File> {
    var only, diffs := Selected(changes, true), Selected(changes, false);
    if diffs == [] then
      Some(File(0, path, CombinedKind(changes), OperationsOnly, |changes|, UNKNOWN, BlocksOf(differ, changes)))
    else
      match DiffDetail(differ, path, diffs)
      case None =>
        if only == [] then None
        else Some(File(0, path, CombinedKind(only), OperationsOnly, |changes|, UNKNOWN, BlocksOf(differ, only)))
      case Some(detail) =>
        if only == [] then Some(detail.(operations := |changes|))
        else Some(File(0, path, CombinedKind(changes), OperationHistory, |changes|, detail.counts,
            BlocksOf(differ, changes)))
  }

  lemma {:induction false} SelectedSplits(changes: seq<Change>)
    ensures |Selected(changes, true)| + |Selected(changes, false)| == |changes|
    ensures forall c :: c in changes <==> c in Selected(changes, true) || c in Selected(changes, false)
    ensures forall c | c in Selected(changes, true) :: IsOperationOnly(c)
    ensures forall c | c in Selected(changes, false) :: !IsOperationOnly(c)
  {
    if changes != [] {
      SelectedSplits(changes[..|changes| - 1]);
      assert changes == changes[..|changes| - 1] + [changes[|changes| - 1]];
    }
  }

  /** A listed file counts every change observed on its path, whatever it shows of them. */
  lemma DetailCountsAll(differ: Differ, path: nat, changes: seq<Change>)
    ensures FileDetail(differ, path, changes).Some? ==>
      FileDetail(differ, path, changes).value.operations == |changes|
      && FileDetail(differ, path, changes).value.path == path
  {
    SelectedSplits(changes);
    hide SumKnown, Chained, CombinedKind;
  }

  /** A path disappears exactly when all its changes are full states that chain back to where they began. */
  lemma DisappearsIff(differ: Differ, path: nat, changes: seq<Change>)
    requires Succeeds(differ) && changes != []
    ensures FileDetail(differ, path, changes).None? <==>
      FullStatesOnly(changes) && Chained(changes)
      && changes[0].semantics.before == changes[|changes| - 1].semantics.after
  {
    SelectedSplits(changes);
    var only, diffs := Selected(changes, true), Selected(changes, false);
    if FullStatesOnly(changes) {
      AllSelected(changes);
    } else if only == [] {
      AllSelected(changes);
    }
    if diffs != [] && FullStatesOnly(diffs) { ChainsCollapse(differ, path, diffs); }
  }

  lemma {:induction false} AllSelected(changes: seq<Change>)
    requires forall c | c in changes :: !IsOperationOnly(c)
    ensures Selected(changes, false) == changes && Selected(changes, true) == []
  {
    if changes != [] {
      AllSelected(changes[..|changes| - 1]);
      assert changes == changes[..|changes| - 1] + [changes[|changes| - 1]];
    }
  }
}
