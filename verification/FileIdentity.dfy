/** The identities of listed files over every revision of a run's card: a projection hands the identities of the card
    before it on, by path, and new files get identities never used before. */
module FileIdentity {
  import opened Options
  import opened FileDetails
  import opened FileCard
  import opened FileAggregate

  /** load_existing_file_ids: of several entries for one path the last one counts. */
  function KnownIds(files: seq<Summary>): map<nat, nat> {
    if files == [] then map[]
    else KnownIds(files[..|files| - 1])[files[|files| - 1].path := files[|files| - 1].id]
  }

  // A revision without changes leaves no card to take identities from.
  function Existing(details: Option<Details>): map<nat, nat> {
    if details.Some? then KnownIds(details.value.card.files) else map[]
  }

  // The evidence and the environment of one projection; its known identities are those of the card before it.
  datatype Round = Round(env: Env, items: seq<Item>)

  /** What the last of these projections published. */
  function Projected(rounds: seq<Round>): Option<Details> {
    if rounds == [] then None
    else
      var init, last := rounds[..|rounds| - 1], rounds[|rounds| - 1];
      Aggregate(last.env.(known := Existing(Projected(init))), last.items)
  }

  predicate Issues(rounds: seq<Round>, r: nat, k: nat, id: nat) { r < |rounds| && rounds[r].env.newId(k) == id }

  predicate IssuesLast(rounds: seq<Round>, k: nat, id: nat)
    requires rounds != []
  {
    rounds[|rounds| - 1].env.newId(k) == id
  }

  /** New identities are not blank, and each is issued for one file of one projection. */
  ghost predicate FreshIds(rounds: seq<Round>) {
    && (forall r, k: nat | 0 <= r < |rounds| :: rounds[r].env.newId(k) != 0)
    && (forall r, s, k, l, id | Issues(rounds, r, k, id) && Issues(rounds, s, l, id) :: r == s && k == l)
  }

  ghost predicate EverIssued(rounds: seq<Round>, id: nat) { exists r, k :: Issues(rounds, r, k, id) }

  predicate HasEntry(files: seq<Summary>, path: nat, id: nat) {
    exists i | 0 <= i < |files| :: files[i].path == path && files[i].id == id
  }

  lemma {:induction false} KnownIsListed(files: seq<Summary>, path: nat)
    ensures path in KnownIds(files) ==> HasEntry(files, path, KnownIds(files)[path])
  {
    if files != [] && path in KnownIds(files) {
      var init, last := files[..|files| - 1], files[|files| - 1];
      KnownIsListed(init, path);
      if path == last.path {
        assert files[|files| - 1].path == path;
      } else {
        var i :| 0 <= i < |init| && init[i].path == path && init[i].id == KnownIds(init)[path];
        assert files[i] == init[i];
      }
    }
  }

  /** Of several entries for one path the last has the say. */
  lemma {:induction false} LastEntryCounts(files: seq<Summary>, i: nat)
    requires i < |files| && forall j | i < j < |files| :: files[j].path != files[i].path
    ensures files[i].path in KnownIds(files) && KnownIds(files)[files[i].path] == files[i].id
  {
    if i < |files| - 1 {
      var init := files[..|files| - 1];
      assert init[i] == files[i];
      LastEntryCounts(init, i);
    }
  }

  function Before(rounds: seq<Round>): map<nat, nat>
    requires rounds != []
  {
    Existing(Projected(rounds[..|rounds| - 1]))
  }

  /** A listed file has the identity its path had on the card before, or else the new one of its position. */
  lemma {:induction false} LastRound(rounds: seq<Round>)
    requires rounds != [] && Projected(rounds).Some?
    ensures var d, last, known := Projected(rounds).value, rounds[|rounds| - 1], Before(rounds);
      && d.files == ListedFiles(last.env.(known := known), last.items)
      && |d.card.files| == |d.files|
      && forall i | 0 <= i < |d.files| ::
           && d.card.files[i] == SummaryOf(d.files[i])
           && d.files[i].id == IdAt(known, last.env.newId, d.files[i].path, i)
  {
    var last := rounds[|rounds| - 1];
    var env := last.env.(known := Before(rounds));
    NamedIds(env, Retained(AllFiles(env, last.items), SendPaths(last.items)));
    hide AllFiles, Retained, TotalOperations, SumKnown, Existing;
  }

  predicate Distinct(files: seq<Summary>) {
    forall i, j | 0 <= i < j < |files| :: files[i].id != files[j].id
  }

  /** Every listed identity was issued, and files at different paths have different ones. */
  ghost predicate Traced(rounds: seq<Round>, files: seq<Summary>) {
    && (forall i | 0 <= i < |files| :: EverIssued(rounds, files[i].id))
    && (forall i, j | 0 <= i < |files| && 0 <= j < |files| && files[i].path != files[j].path ::
        files[i].id != files[j].id)
  }

  lemma {:induction false} FewerRounds(rounds: seq<Round>)
    requires rounds != [] && FreshIds(rounds)
    ensures FreshIds(rounds[..|rounds| - 1])
    ensures forall id :: EverIssued(rounds[..|rounds| - 1], id) ==> EverIssued(rounds, id)
    ensures forall id, k :: EverIssued(rounds[..|rounds| - 1], id) ==> !IssuesLast(rounds, k, id)
  {
    var init, last: nat := rounds[..|rounds| - 1], |rounds| - 1;
    assert forall r, k, id | Issues(init, r, k, id) :: Issues(rounds, r, k, id);
    forall id, k | EverIssued(init, id)
      ensures !IssuesLast(rounds, k, id)
    {
      var r, l :| Issues(init, r, l, id);
      assert Issues(rounds, r, l, id);
      assert IssuesLast(rounds, k, id) ==> Issues(rounds, last, k, id);
    }
  }

  lemma {:induction false} KnownAreTraced(rounds: seq<Round>, files: seq<Summary>, p: nat, q: nat)
    requires Traced(rounds, files)
    ensures p in KnownIds(files) ==> EverIssued(rounds, KnownIds(files)[p])
    ensures p in KnownIds(files) && q in KnownIds(files) && p != q ==> KnownIds(files)[p] != KnownIds(files)[q]
  {
    KnownIsListed(files, p);
    KnownIsListed(files, q);
    hide EverIssued, KnownIds;
  }

  /** Over all revisions: identities are issued ones, and no two paths of a card share one. */
  lemma {:induction false} IdsAreTraced(rounds: seq<Round>)
    requires FreshIds(rounds)
    ensures Projected(rounds).Some? ==> Traced(rounds, Projected(rounds).value.card.files)
    decreases |rounds|
  {
    if rounds != [] && Projected(rounds).Some? {
      var init, last, known := rounds[..|rounds| - 1], rounds[|rounds| - 1], Before(rounds);
      FewerRounds(rounds);
      IdsAreTraced(init);
      LastRound(rounds);
      var files := Projected(rounds).value.card.files;
      hide FreshIds, Projected, Traced, EverIssued;
      forall p, q
        ensures p in known ==> EverIssued(init, known[p])
        ensures p in known && q in known && p != q ==> known[p] != known[q]
      {
        if Projected(init).Some? { KnownAreTraced(init, Projected(init).value.card.files, p, q); }
      }
      LastIsTraced(rounds, files, known);
    }
  }

  function IdAt(known: map<nat, nat>, newId: nat -> nat, path: nat, i: nat): nat {
    if path in known then known[path] else newId(i)
  }

  // Two entries share an identity only when the card before had their one path.
  lemma {:induction false} ClashIsKnown(rounds: seq<Round>, known: map<nat, nat>, p: nat, q: nat, i: nat, j: nat)
    requires rounds != [] && FreshIds(rounds) && i != j
    requires p in known ==> EverIssued(rounds[..|rounds| - 1], known[p])
    requires q in known ==> EverIssued(rounds[..|rounds| - 1], known[q])
    requires p in known && q in known && p != q ==> known[p] != known[q]
    ensures var newId := rounds[|rounds| - 1].env.newId;
            IdAt(known, newId, p, i) == IdAt(known, newId, q, j) <==> p == q && p in known
  {
    FewerRounds(rounds);
    var last, newId := |rounds| - 1, rounds[|rounds| - 1].env.newId;
    assert Issues(rounds, last, i, newId(i)) && Issues(rounds, last, j, newId(j));
    assert IssuesLast(rounds, i, newId(i)) && IssuesLast(rounds, j, newId(j));
    hide EverIssued;
  }

  lemma {:induction false} LastIsTraced(rounds: seq<Round>, files: seq<Summary>, known: map<nat, nat>)
    requires rounds != [] && FreshIds(rounds)
    requires forall i | 0 <= i < |files| :: files[i].id == IdAt(known, rounds[|rounds| - 1].env.newId, files[i].path, i)
    requires forall p | p in known :: EverIssued(rounds[..|rounds| - 1], known[p])
    requires forall p, q | p in known && q in known && p != q :: known[p] != known[q]
    ensures Traced(rounds, files)
    ensures Distinct(files) <==>
            forall i, j | 0 <= i < j < |files| && files[i].path == files[j].path :: files[i].path !in known
  {
    FewerRounds(rounds);
    var last := |rounds| - 1;
    forall i | 0 <= i < |files|
      ensures EverIssued(rounds, files[i].id)
    {
      if files[i].path !in known { assert Issues(rounds, last, i, files[i].id); }
    }
    hide EverIssued, FreshIds, IdAt;
    forall i, j | 0 <= i < |files| && 0 <= j < |files| && i != j
      ensures files[i].id == files[j].id <==> files[i].path == files[j].path && files[i].path in known
    {
      ClashIsKnown(rounds, known, files[i].path, files[j].path, i, j);
    }
  }

  // What the revisions promise ---------------------------------------------------------------------

  ghost predicate NeverBlank(rounds: seq<Round>) {
    forall r, k: nat | 0 <= r < |rounds| :: rounds[r].env.newId(k) != 0
  }

  lemma {:induction false} KnownIsNeverBlank(rounds: seq<Round>)
    requires NeverBlank(rounds)
    ensures forall p | p in Existing(Projected(rounds)) :: Existing(Projected(rounds))[p] != 0
    decreases |rounds|
  {
    if rounds != [] && Projected(rounds).Some? {
      var init, files := rounds[..|rounds| - 1], Projected(rounds).value.card.files;
      assert NeverBlank(init);
      KnownIsNeverBlank(init);
      LastRound(rounds);
      hide Projected;
      forall p | p in KnownIds(files) ensures KnownIds(files)[p] != 0 { KnownIsListed(files, p); }
    }
  }

  /** Every revision of a card is read back unchanged, since no new identity is blank. */
  lemma {:induction false} RevisionsAreReadBack(rounds: seq<Round>, legacy: nat -> nat)
    requires NeverBlank(rounds)
    ensures Projected(rounds).Some? ==> ReadBack(Projected(rounds).value, SCHEMA_VERSION, legacy) == Projected(rounds)
  {
    if rounds == [] { return; }
    var init, last := rounds[..|rounds| - 1], rounds[|rounds| - 1];
    assert NeverBlank(init);
    KnownIsNeverBlank(init);
    var env := last.env.(known := Existing(Projected(init)));
    assert NoBlank(env);
    ReadBackAccepts(env, last.items, legacy);
    hide Aggregate, ReadBack;
  }

  /** The identities on a card are distinct exactly when no path that the card before it already had is listed twice. */
  lemma {:induction false} IdsAreDistinctIff(rounds: seq<Round>)
    requires FreshIds(rounds) && rounds != []
    ensures Projected(rounds).Some? ==> var files := Projected(rounds).value.card.files;
      (Distinct(files) <==>
        forall i, j | 0 <= i < j < |files| && files[i].path == files[j].path :: files[i].path !in Before(rounds))
  {
    if Projected(rounds).None? { return; }
    var init, files, known := rounds[..|rounds| - 1], Projected(rounds).value.card.files, Before(rounds);
    FewerRounds(rounds);
    IdsAreTraced(init);
    LastRound(rounds);
    hide FreshIds, Projected, Traced, EverIssued, IdAt;
    forall p, q
      ensures p in known ==> EverIssued(init, known[p])
      ensures p in known && q in known && p != q ==> known[p] != known[q]
    {
      if Projected(init).Some? { KnownAreTraced(init, Projected(init).value.card.files, p, q); }
    }
    LastIsTraced(rounds, files, known);
  }

  /** find_run_file_change_summary takes the first entry with the identity. */
  function FirstWith(files: seq<Summary>, id: nat): (k: nat)
    requires exists i | 0 <= i < |files| :: files[i].id == id
    ensures k < |files| && files[k].id == id && forall i | 0 <= i < k :: files[i].id != id
  {
    if files[0].id == id then 0
    else
      assert exists i | 0 <= i < |files[1..]| :: files[1..][i].id == id by {
        var i :| 0 <= i < |files| && files[i].id == id;
        assert files[1..][i - 1] == files[i];
      }
      FirstWith(files[1..], id) + 1
  }

  /** So every entry is found by its own identity exactly when the identities are distinct. */
  lemma {:induction false} EachIsFoundIff(files: seq<Summary>)
    ensures (forall k | 0 <= k < |files| :: FirstWith(files, files[k].id) == k) <==> Distinct(files)
  {
    forall i, j | 0 <= i < j < |files| && files[i].id == files[j].id
      ensures FirstWith(files, files[j].id) != j
    {
    }
  }

  lemma {:induction false} RetainedStaysSorted(files: seq<File>, dropped: set<nat>)
    requires forall i, j | 0 <= i < j < |files| :: files[i].path < files[j].path
    ensures forall i, j | 0 <= i < j < |Retained(files, dropped)| ::
              Retained(files, dropped)[i].path < Retained(files, dropped)[j].path
  {
    if files != [] {
      var init, last := files[..|files| - 1], files[|files| - 1];
      RetainedStaysSorted(init, dropped);
      forall f | f in Retained(init, dropped) ensures f.path < last.path {
        RetainedHolds(init, dropped, f);
        var i :| 0 <= i < |init| && init[i] == f;
        assert files[i] == f;
      }
    }
  }

  /** Without a run snapshot they always are: no path is listed twice. */
  lemma {:induction false} DistinctWithoutSnapshot(rounds: seq<Round>)
    requires FreshIds(rounds) && rounds != [] && LatestRunDiff(rounds[|rounds| - 1].items).None?
    ensures Projected(rounds).Some? ==> Distinct(Projected(rounds).value.card.files)
  {
    if Projected(rounds).None? { return; }
    IdsAreDistinctIff(rounds);
    LastRound(rounds);
    var last := rounds[|rounds| - 1];
    var observed := Observed(last.items);
    var all := FilesFrom(last.env.differ, observed);
    PathsAreSorted(observed);
    forall i, j | 0 <= i < j < |all| ensures all[i].path < all[j].path {
      FilesInOrder(last.env.differ, observed, PathsOf(observed), i, j);
    }
    RetainedStaysSorted(all, SendPaths(last.items));
    hide FreshIds, Projected, Before, Observed, FilesFrom, Retained;
  }

  const TWICE := Section(Some(5), Update, Diff(1, 1, 0))
  const SNAPSHOT := Item(0, 0, None, Some(RunDiff(false, [TWICE, TWICE])), [], false, None)

  function RoundOf(first: nat): Round {
    Round(Env((a, b) => None, p => false, map[], k => 2 * k + first), [SNAPSHOT])
  }

  lemma {:induction false} SnapshotEvidence(items: seq<Item>)
    requires items == [SNAPSHOT]
    ensures Observed(items) == [] && SendPaths(items) == {} && LatestRunDiff(items) == Some((0, SNAPSHOT.runDiff.value))
  {
    NothingObserved();
    OneMoreItem(items, 0);
    assert items[..0] == [] && items[..1] == items && items[0] == SNAPSHOT;
    assert EntryChanges(SNAPSHOT, SNAPSHOT.entries) == [];
    hide Observed, SendPaths;
  }

  lemma {:induction false} TwoSections(env: Env, items: seq<Item>)
    requires items == [SNAPSHOT]
    ensures var files := ListedFiles(env, items); |files| == 2 && files[0].path == files[1].path == 5
    ensures Aggregate(env, items).Some?
  {
    SnapshotEvidence(items);
    hide Observed, SendPaths, LatestRunDiff, Retained, CardOf;
    var files := AllFiles(env, items);
    assert |files| == 2 && files[0].path == files[1].path == 5;
    NothingDropped(files);
  }

  lemma {:induction false} NothingDropped(files: seq<File>)
    ensures Retained(files, {}) == files
  {
    if files != [] {
      NothingDropped(files[..|files| - 1]);
      assert files == files[..|files| - 1] + [files[|files| - 1]];
    }
  }

  lemma {:induction false} TwoRoundsAreFresh(rounds: seq<Round>)
    requires rounds == [RoundOf(1), RoundOf(2)]
    ensures FreshIds(rounds)
  {
  }

  /** A run diff with two sections for one path: on the second revision both entries have one identity. */
  lemma {:induction false} OneIdentityTwice(rounds: seq<Round>)
    requires rounds == [RoundOf(1), RoundOf(2)]
    ensures FreshIds(rounds) && Projected(rounds).Some? && !Distinct(Projected(rounds).value.card.files)
  {
    TwoRoundsAreFresh(rounds);
    var init := rounds[..1];
    assert rounds[0].items == rounds[1].items == [SNAPSHOT];
    hide FreshIds, Aggregate, ListedFiles, RoundOf;
    assert init == [RoundOf(1)] && init[..0] == [] && Projected(init[..0]) == None;
    TwoSections(init[0].env.(known := map[]), init[0].items);
    TwoSections(rounds[1].env.(known := Existing(Projected(init))), rounds[1].items);
    LastRound(init);
    LastRound(rounds);
    var before := Projected(init).value.card.files;
    assert before[|before| - 1].path == 5;
    assert 5 in Before(rounds);
    IdsAreDistinctIff(rounds);
  }
}
