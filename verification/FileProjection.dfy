/** Publishing file-change projections behind a growing source, and the recovery sweep in pages of eight
    (crates/rovai-core/src/agent_run_file_change.rs:150-332, 600-716). */
module FileProjection {
  import opened Options

  const PAGE := 8

  datatype Projection = Projection(complete: bool, source: nat, revision: nat, failed: bool)
  datatype Run = Run(terminal: bool, evidence: bool, facts: nat, projection: Option<Projection>)
  datatype Build = Unreadable | Untrusted | Built(complete: bool)
  datatype Outcome = NotTerminal | Unchanged | Published | SourceMoved | Refused

  /** terminal_recovery_candidates: an ended run with evidence whose projection is missing or behind its facts. */
  predicate IsCandidate(r: Run) {
    r.terminal && r.evidence && (r.projection.None? || r.projection.value.source < r.facts)
  }

  predicate Behind(r: Run) {
    r.projection.Some? ==> r.projection.value.source <= r.facts && r.projection.value.revision >= 1
  }

  /** There is something to project: the run has ended, and what was published does not stand at its facts. */
  predicate IsDue(r: Run) { r.terminal && !(r.projection.Some? && r.projection.value.source == r.facts) }

  /** The recovery sweep looks for exactly the runs with evidence that projecting would publish something for. */
  lemma CandidateIff(r: Run)
    requires Behind(r)
    ensures IsCandidate(r) <==> r.evidence && IsDue(r)
  {
  }

  predicate After(cursor: Option<nat>, id: nat) { cursor.None? || cursor.value < id }

  ghost predicate IsPage(runs: map<nat, Run>, cursor: Option<nat>, page: seq<nat>) {
    && |page| <= 8
    && (forall i | 0 <= i < |page| :: page[i] in runs && After(cursor, page[i]) && IsCandidate(runs[page[i]]))
    && (forall i, j | 0 <= i < j < |page| :: page[i] < page[j])
    && (forall id | id in runs && After(cursor, id) && IsCandidate(runs[id]) && id !in page ::
          |page| == 8 && page[7] < id)
  }

  /** Nothing fails and nothing arrives. */
  ghost predicate Undisturbed(build: nat -> Build, arriving: nat -> nat) {
    forall id :: build(id).Built? && arriving(id) == 0
  }

  /** A page misses no candidate between the cursor and any of its members. */
  lemma PageCovers(runs: map<nat, Run>, cursor: Option<nat>, page: seq<nat>, taken: nat, id: nat)
    requires IsPage(runs, cursor, page) && 1 <= taken <= |page|
    requires id in runs && IsCandidate(runs[id]) && After(cursor, id) && id <= page[taken - 1]
    ensures id in page[..taken]
  {
    if id in page {
      var i :| 0 <= i < |page| && page[i] == id;
      assert i < taken;
      assert page[..taken][i] == id;
    }
  }

  predicate Increasing(ids: seq<nat>) { forall i, j | 0 <= i < j < |ids| :: ids[i] < ids[j] }

  /** A sweep so far: what it visited lies up to the cursor, and it passed over no candidate. */
  ghost predicate Swept(original: map<nat, Run>, runs: map<nat, Run>, visited: seq<nat>, cursor: Option<nat>) {
    && runs.Keys == original.Keys && Increasing(visited)
    && (forall id | id in visited :: id in runs && !After(cursor, id))
    && (forall id | id in runs && id !in visited :: runs[id] == original[id])
    && (forall id | id in runs && IsCandidate(original[id]) && !After(cursor, id) :: id in visited)
  }

  lemma IncreasingAppend(a: seq<nat>, b: seq<nat>)
    requires Increasing(a) && Increasing(b) && forall i, j | 0 <= i < |a| && 0 <= j < |b| :: a[i] < b[j]
    ensures Increasing(a + b)
  {
  }

  lemma PagePart(runs: map<nat, Run>, cursor: Option<nat>, page: seq<nat>, taken: nat)
    requires IsPage(runs, cursor, page) && 1 <= taken <= |page|
    ensures Increasing(page[..taken])
    ensures forall id | id in page[..taken] :: id in runs && After(cursor, id) && id <= page[taken - 1]
    ensures After(cursor, page[taken - 1])
    ensures forall id | id in runs && IsCandidate(runs[id]) && After(cursor, id) && id <= page[taken - 1] ::
              id in page[..taken]
  {
    hide IsCandidate;
    forall id | id in runs && IsCandidate(runs[id]) && After(cursor, id) && id <= page[taken - 1]
      ensures id in page[..taken]
    {
      PageCovers(runs, cursor, page, taken, id);
    }
  }

  lemma SweptFurther(original: map<nat, Run>, runs: map<nat, Run>, later: map<nat, Run>, visited: seq<nat>,
                     cursor: Option<nat>, part: seq<nat>, last: nat)
    requires Swept(original, runs, visited, cursor) && Increasing(part) && After(cursor, last)
    requires forall id | id in part :: id in runs && After(cursor, id) && id <= last
    requires forall id | id in runs && IsCandidate(runs[id]) && After(cursor, id) && id <= last :: id in part
    requires later.Keys == runs.Keys && forall id | id in later && id !in part :: later[id] == runs[id]
    ensures Swept(original, later, visited + part, Some(last))
    ensures forall id | id in visited :: id !in part
  {
    hide IsCandidate;
    forall i, j | 0 <= i < |visited| && 0 <= j < |part| ensures visited[i] < part[j] {
      assert visited[i] in visited && part[j] in part;
    }
    IncreasingAppend(visited, part);
    hide Increasing;
  }

  lemma SweptKeys(original: map<nat, Run>, runs: map<nat, Run>, visited: seq<nat>, cursor: Option<nat>)
    requires Swept(original, runs, visited, cursor)
    ensures runs.Keys == original.Keys && forall id | id in visited :: id in runs
  {
  }

  lemma NothingSwept(runs: map<nat, Run>)
    ensures Swept(runs, runs, [], None)
  {
  }

  lemma PageFacts(runs: map<nat, Run>, cursor: Option<nat>, page: seq<nat>)
    requires IsPage(runs, cursor, page)
    ensures forall i | 0 <= i < |page| :: page[i] in runs && After(cursor, page[i])
    ensures forall i, j | 0 <= i < j < |page| :: page[i] < page[j]
    ensures page == [] ==> forall id | id in runs && After(cursor, id) :: !IsCandidate(runs[id])
  {
  }

  lemma SweepEnds(original: map<nat, Run>, runs: map<nat, Run>, visited: seq<nat>, cursor: Option<nat>)
    requires Swept(original, runs, visited, cursor)
    requires forall id | id in runs && After(cursor, id) :: !IsCandidate(runs[id])
    ensures runs.Keys == original.Keys && Increasing(visited)
    ensures forall id | id in original && IsCandidate(original[id]) :: id in visited
    ensures forall id | id in runs && id !in visited :: runs[id] == original[id] && !IsCandidate(runs[id])
  {
    hide IsCandidate;
  }

  function Ahead(runs: map<nat, Run>, cursor: Option<nat>): set<nat> { set id | id in runs && After(cursor, id) }

  lemma SameAhead(runs: map<nat, Run>, later: map<nat, Run>, cursor: Option<nat>)
    requires later.Keys == runs.Keys
    ensures Ahead(later, cursor) == Ahead(runs, cursor)
  {
  }

  lemma CursorMoves(runs: map<nat, Run>, cursor: Option<nat>, page: seq<nat>, taken: nat)
    requires IsPage(runs, cursor, page) && 1 <= taken <= |page|
    ensures |Ahead(runs, Some(page[taken - 1]))| < |Ahead(runs, cursor)|
  {
    Smaller(Ahead(runs, Some(page[taken - 1])), Ahead(runs, cursor), page[taken - 1]);
  }

  class Projector {
    var runs: map<nat, Run>

    ghost predicate Valid()
      reads this
    {
      forall id | id in runs :: Behind(runs[id])
    }

    constructor ()
      ensures Valid() && runs == map[]
    {
      runs := map[];
    }

    method AppendEvidence(id: nat, count: nat)
      requires Valid() && id in runs
      modifies this
      ensures Valid() && id in old(runs)
      ensures runs == old(runs)[id := old(runs)[id].(evidence := old(runs)[id].evidence || count > 0,
                                                     facts := old(runs)[id].facts + count)]
    {
      runs := runs[id := runs[id].(evidence := runs[id].evidence || count > 0, facts := runs[id].facts + count)];
    }

    /** project_terminal_run; `arriving` facts are appended between building and publishing. A publication raises the
        revision by one and the source strictly; an unchanged source publishes nothing. */
    method ProjectTerminalRun(id: nat, build: Build, arriving: nat) returns (outcome: Outcome)
      requires Valid() && id in runs
      modifies this
      ensures Valid() && id in old(runs) && runs.Keys == old(runs).Keys
      ensures forall other | other in runs && other != id :: runs[other] == old(runs)[other]
      ensures var r, s := old(runs)[id], runs[id];
        && (outcome.NotTerminal? <==> !r.terminal)
        && (outcome.Unchanged? <==> r.terminal && !IsDue(r))
        && (outcome.Refused? <==> IsDue(r) && !build.Built?)
        && (outcome.SourceMoved? <==> IsDue(r) && build.Built? && arriving > 0)
        && (outcome.Published? <==> IsDue(r) && build.Built? && arriving == 0)
        && (outcome.NotTerminal? || outcome.Unchanged? ==> s == r)
        && (outcome.Refused? ==>
              s == if r.projection.Some? then r.(projection := Some(r.projection.value.(failed := true))) else r)
        && (outcome.SourceMoved? ==> s == r.(evidence := true, facts := r.facts + arriving))
        && (outcome.Published? ==>
              && s == r.(projection := s.projection) && s.projection.Some? && !s.projection.value.failed
              && s.projection.value.source == r.facts && s.projection.value.complete == build.complete
              && s.projection.value.revision == (if r.projection.Some? then r.projection.value.revision + 1 else 1)
              && (r.projection.Some? ==> s.projection.value.source > r.projection.value.source))
    {
      var r := runs[id];
      if !r.terminal { return NotTerminal; }
      var source, existing := r.facts, r.projection;
      if existing.Some? && existing.value.source == source { return Unchanged; }
      if !build.Built? {
        if existing.Some? { runs := runs[id := r.(projection := Some(existing.value.(failed := true)))]; }
        return Refused;
      }
      AppendEvidence(id, arriving);
      if runs[id].facts != source { return SourceMoved; }
      var revision := if existing.Some? then existing.value.revision + 1 else 1;
      runs := runs[id := runs[id].(projection := Some(Projection(build.complete, source, revision, false)))];
      return Published;
    }

    method TerminalRecoveryCandidates(cursor: Option<nat>) returns (page: seq<nat>)
      ensures IsPage(runs, cursor, page)
    {
      page := [];
      var rest := set id | id in runs && After(cursor, id) && IsCandidate(runs[id]);
      while rest != {} && |page| < PAGE
        invariant |page| <= PAGE
        invariant forall id | id in rest :: id in runs && After(cursor, id) && IsCandidate(runs[id])
        invariant forall id | id in runs && After(cursor, id) && IsCandidate(runs[id]) :: id in page || id in rest
        invariant forall i | 0 <= i < |page| :: page[i] in runs && After(cursor, page[i]) && IsCandidate(runs[page[i]])
        invariant forall i, j | 0 <= i < j < |page| :: page[i] < page[j]
        invariant forall i, id | 0 <= i < |page| && id in rest :: page[i] < id
        decreases |rest|
      {
        var least := Least(rest);
        page := page + [least];
        rest := rest - {least};
      }
    }

    /** A sweep of the cursor over every page. Each run is visited at most once, every candidate is visited, whatever
        fails before it, and a sweep in which nothing fails and nothing arrives leaves no candidate. */
    method Sweep(build: nat -> Build, arriving: nat -> nat) returns (visited: seq<nat>)
      requires Valid()
      modifies this
      ensures Valid() && runs.Keys == old(runs).Keys
      ensures Increasing(visited)
      ensures forall id | id in old(runs) && IsCandidate(old(runs)[id]) :: id in visited
      ensures forall id | id in runs && id !in visited :: runs[id] == old(runs)[id]
      ensures Undisturbed(build, arriving) ==> forall id | id in runs :: !IsCandidate(runs[id])
    {
      hide IsCandidate, IsDue, Undisturbed, Behind, Swept, IsPage, Increasing, Ahead, After;
      visited := [];
      var cursor: Option<nat> := None;
      var done := false;
      NothingSwept(runs);
      while !done
        invariant Valid() && Swept(old(runs), runs, visited, cursor)
        invariant done ==> forall id | id in runs && After(cursor, id) :: !IsCandidate(runs[id])
        invariant Undisturbed(build, arriving) ==> forall id | id in visited && id in runs :: !IsCandidate(runs[id])
        decreases if done then 0 else 1, |Ahead(runs, cursor)|
      {
        var page := TerminalRecoveryCandidates(cursor);
        PageFacts(runs, cursor, page);
        if page == [] {
          done := true;
        } else {
          // The budget may run out before the end of the page.
          var taken: nat :| 1 <= taken <= |page|;
          PagePart(runs, cursor, page, taken);
          ghost var before, seen, from := runs, visited, cursor;
          SweptKeys(old(runs), runs, visited, cursor);
          visited, cursor := VisitPage(page[..taken], build, arriving, visited, cursor);
          SweptFurther(old(runs), before, runs, seen, from, page[..taken], page[taken - 1]);
          CursorMoves(before, from, page, taken);
          SameAhead(before, runs, cursor);
        }
      }
      SweepEnds(old(runs), runs, visited, cursor);
    }

    method VisitPage(page: seq<nat>, build: nat -> Build, arriving: nat -> nat, visited: seq<nat>, cursor: Option<nat>)
      returns (after: seq<nat>, last: Option<nat>)
      requires Valid() && page != [] && (forall i | 0 <= i < |page| :: page[i] in runs && After(cursor, page[i]))
      requires forall i, j | 0 <= i < j < |page| :: page[i] < page[j]
      modifies this
      ensures Valid() && runs.Keys == old(runs).Keys && after == visited + page && last == Some(page[|page| - 1])
      ensures forall id | id in runs && id !in page :: runs[id] == old(runs)[id]
      ensures Undisturbed(build, arriving) ==> forall id | id in page :: !IsCandidate(runs[id])
    {
      hide Behind;
      var i := 0;
      after, last := visited, cursor;
      while i < |page|
        invariant 0 <= i <= |page| && Valid() && runs.Keys == old(runs).Keys
        invariant after == visited + page[..i] && (i > 0 ==> last == Some(page[i - 1]))
        invariant forall id | id in runs && id !in page[..i] :: runs[id] == old(runs)[id]
        invariant Undisturbed(build, arriving) ==> forall id | id in page[..i] :: !IsCandidate(runs[id])
      {
        var outcome := ProjectTerminalRun(page[i], build(page[i]), arriving(page[i]));
        after, last := after + [page[i]], Some(page[i]);
        assert page[..i + 1] == page[..i] + [page[i]] && page[i] !in page[..i];
        i := i + 1;
      }
      assert page[..i] == page;
    }
  }

  method Least(ids: set<nat>) returns (least: nat)
    requires ids != {}
    ensures least in ids && forall id | id in ids :: least <= id
  {
    least :| least in ids;
    var rest := ids - {least};
    while rest != {}
      invariant rest <= ids && least in ids
      invariant forall id | id in ids && id !in rest :: least <= id
      decreases |rest|
    {
      var id :| id in rest;
      if id < least { least := id; }
      rest := rest - {id};
    }
  }

  lemma Smaller(a: set<nat>, b: set<nat>, x: nat)
    requires a <= b && x in b && x !in a
    ensures |a| < |b|
  {
    SubsetSize(a, b - {x});
  }

  lemma {:induction false} SubsetSize(a: set<nat>, b: set<nat>)
    requires a <= b
    ensures |a| <= |b|
  {
    if a != {} {
      var x :| x in a;
      SubsetSize(a - {x}, b - {x});
    }
  }
}
