/** Replacing the authority database by its migrated copy, and recovering after a crash at any file operation
    (crates/rovai-core/src/authority_migration.rs). A disk performs `left` more operations and then crashes;
    every method stops at the operation that crashes. */
module SwitchRecovery {
  import opened Options

  datatype Kind = Wal | Shm | Journal
  datatype Path =
    | Main | Side(kind: Kind) | Staging | BackupOf(original: Path) | Detached(kind: Kind) | Recovered(kind: Kind)

  // An identity token: the object key, the size and content time, and the time of the last status change.
  datatype Token = Token(key: nat, content: nat, changed: nat)

  datatype Stage = Prepared | SidecarsDetached | Published
  datatype Artifact = Artifact(kind: Kind, identity: Token, backup: Token)
  datatype Manifest = Manifest(sourceMain: Token, migratedMain: Token, artifacts: seq<Artifact>, stage: Stage)

  datatype Outcome = Done | Crashed | Refused

  type Files = map<Path, Token>

  const KINDS := [Wal, Shm, Journal]

  /** matches_legacy_rename: only on Unix may a rename explain a different status-change time. */
  predicate Matches(unix: bool, now: Token, before: Token) {
    now == before || (unix && now.key == before.key && now.content == before.content)
  }

  // States -----------------------------------------------------------------------------------------

  predicate AtSource(unix: bool, f: Files, a: Artifact) {
    Side(a.kind) in f && Matches(unix, f[Side(a.kind)], a.identity) && Detached(a.kind) !in f
  }

  predicate AtDetached(unix: bool, f: Files, a: Artifact) {
    Detached(a.kind) in f && Matches(unix, f[Detached(a.kind)], a.identity) && Side(a.kind) !in f
  }

  predicate DistinctKinds(artifacts: seq<Artifact>) {
    forall i, j | 0 <= i < j < |artifacts| :: artifacts[i].kind != artifacts[j].kind
  }

  predicate Listed(artifacts: seq<Artifact>, kind: Kind) {
    exists i | 0 <= i < |artifacts| :: artifacts[i].kind == kind
  }

  ghost predicate OnlyListed(f: Files, artifacts: seq<Artifact>) {
    forall k | Side(k) in f :: Listed(artifacts, k)
  }

  /** Before the copy is published: the original main file, each sidecar at its place or set aside. */
  ghost predicate BeforePublish(unix: bool, m: Manifest, f: Files) {
    && DistinctKinds(m.artifacts) && m.migratedMain.key != m.sourceMain.key
    && Main in f && f[Main] == m.sourceMain && OnlyListed(f, m.artifacts)
    && (forall i | 0 <= i < |m.artifacts| :: AtSource(unix, f, m.artifacts[i]) || AtDetached(unix, f, m.artifacts[i]))
    && (Staging in f ==> f[Staging] == m.migratedMain)
  }

  /** After it: the migrated main file, every original sidecar set aside. */
  ghost predicate AfterPublish(unix: bool, m: Manifest, f: Files) {
    && DistinctKinds(m.artifacts) && m.migratedMain.key != m.sourceMain.key
    && Main in f && Matches(unix, f[Main], m.migratedMain) && Staging !in f
    && (forall i | 0 <= i < |m.artifacts| :: AtDetached(unix, f, m.artifacts[i]))
    && forall k :: Side(k) !in f
  }

  /** The original database with exactly its original sidecars, and no copy left beside it. */
  ghost predicate OriginalAgain(unix: bool, m: Manifest, f: Files) {
    && Main in f && f[Main] == m.sourceMain && Staging !in f && OnlyListed(f, m.artifacts)
    && forall i | 0 <= i < |m.artifacts| :: AtSource(unix, f, m.artifacts[i])
  }

  /** No file is lost: whatever was on the disk still is, with its content, but for the dropped keys. */
  ghost predicate KeepsFiles(before: Files, after: Files, dropped: set<nat>) {
    forall p | p in before && before[p].key !in dropped :: Holds(after, before[p])
  }

  ghost predicate Holds(f: Files, t: Token) {
    exists p :: p in f && f[p].key == t.key && f[p].content == t.content
  }

  lemma KeepsReflexive(f: Files, dropped: set<nat>)
    ensures KeepsFiles(f, f, dropped)
  {
    forall p | p in f ensures Holds(f, f[p]) { assert f[p].key == f[p].key; }
  }

  lemma KeepsCompose(a: Files, b: Files, c: Files, dropped: set<nat>)
    requires KeepsFiles(a, b, dropped) && KeepsFiles(b, c, dropped)
    ensures KeepsFiles(a, c, dropped)
  {
    forall p | p in a && a[p].key !in dropped
      ensures Holds(c, a[p])
    {
      assert Holds(b, a[p]);
      var q :| q in b && b[q].key == a[p].key && b[q].content == a[p].content;
      assert Holds(c, b[q]);
    }
  }

  lemma RenameKeeps(b: Files, c: Files, from: Path, to: Path)
    requires from in b && to !in b && from != to && to in c
    requires c == (b - {from})[to := c[to]] && c[to].key == b[from].key && c[to].content == b[from].content
    ensures KeepsFiles(b, c, {})
  {
    forall q | q in b
      ensures Holds(c, b[q])
    {
      if q == from { assert c[to].key == b[q].key; } else { assert q in c && c[q] == b[q]; }
    }
  }

  lemma CreateKeeps(b: Files, c: Files, to: Path)
    requires to !in b && to in c && c == b[to := c[to]]
    ensures KeepsFiles(b, c, {})
  {
    forall q | q in b ensures Holds(c, b[q]) { assert q in c && c[q] == b[q]; }
  }

  lemma RemoveKeeps(b: Files, path: Path)
    requires path in b
    ensures KeepsFiles(b, b - {path}, {b[path].key})
  {
    forall q | q in b && b[q].key != b[path].key ensures Holds(b - {path}, b[q]) { assert q in b - {path}; }
  }

  predicate SameAt(before: Files, after: Files, p: Path) {
    (p in after <==> p in before) && (p in before ==> after[p] == before[p])
  }

  // Restoring one set-aside sidecar keeps the state before publication.
  lemma RestoredOne(unix: bool, m: Manifest, f: Files, i: nat, t: Token)
    requires BeforePublish(unix, m, f) && i < |m.artifacts| && Side(m.artifacts[i].kind) !in f
    requires Detached(m.artifacts[i].kind) in f && Matches(unix, t, f[Detached(m.artifacts[i].kind)])
    ensures var g := (f - {Detached(m.artifacts[i].kind)})[Side(m.artifacts[i].kind) := t];
            && BeforePublish(unix, m, g) && AtSource(unix, g, m.artifacts[i])
            && forall j | 0 <= j < |m.artifacts| && AtSource(unix, f, m.artifacts[j]) ::
                AtSource(unix, g, m.artifacts[j])
  {
    var g := (f - {Detached(m.artifacts[i].kind)})[Side(m.artifacts[i].kind) := t];
    assert AtDetached(unix, f, m.artifacts[i]);
    forall j | 0 <= j < |m.artifacts|
      ensures AtSource(unix, g, m.artifacts[j]) || AtDetached(unix, g, m.artifacts[j])
      ensures AtSource(unix, f, m.artifacts[j]) ==> AtSource(unix, g, m.artifacts[j])
    {
      if j != i { assert m.artifacts[j].kind != m.artifacts[i].kind; }
    }
    forall k | Side(k) in g ensures Listed(m.artifacts, k) {
      if k == m.artifacts[i].kind { assert Listed(m.artifacts, k); }
    }
  }

  class Disk {
    const unix: bool
    var files: Files
    var manifest: Option<Manifest>
    var left: nat   // operations that still succeed
    var nextKey: nat  // larger than every object key on the disk

    constructor (unix: bool, files: Files, left: nat, nextKey: nat)
      ensures this.unix == unix && this.files == files && manifest == None && this.left == left
                && this.nextKey == nextKey
    {
      this.unix, this.files, this.manifest, this.left, this.nextKey := unix, files, None, left, nextKey;
    }

    // Operations -----------------------------------------------------------------------------------

    method Rename(from: Path, to: Path) returns (alive: bool)
      requires from in files && from != to
      modifies `files, `left
      ensures alive <==> old(left) > 0
      ensures alive ==> left == old(left) - 1
      ensures alive ==>
                to in files && files == (old(files) - {from})[to := files[to]]
                && Matches(unix, files[to], old(files)[from])
      ensures !alive ==> files == old(files) && left == 0
    {
      if left == 0 { return false; }
      var now: nat := *;
      var t := files[from];
      files := (files - {from})[to := if unix then t.(changed := now) else t];
      left := left - 1;
      return true;
    }

    method Remove(path: Path) returns (alive: bool)
      modifies `files, `left
      ensures alive <==> old(left) > 0
      ensures alive ==> left == old(left) - 1 && files == old(files) - {path}
      ensures !alive ==> files == old(files) && left == 0
    {
      if left == 0 { return false; }
      files, left := files - {path}, left - 1;
      return true;
    }

    // Writes a file of its own: a new object.
    method Create(path: Path, content: nat) returns (alive: bool)
      modifies `files, `left, `nextKey
      ensures alive <==> old(left) > 0
      ensures alive ==> left == old(left) - 1 && nextKey == old(nextKey) + 1
      ensures alive ==> files == old(files)[path := Token(old(nextKey), content, old(nextKey))]
      ensures !alive ==> files == old(files) && left == 0 && nextKey == old(nextKey)
    {
      if left == 0 { return false; }
      files := files[path := Token(nextKey, content, nextKey)];
      nextKey, left := nextKey + 1, left - 1;
      return true;
    }

    method Write(path: Path, content: nat) returns (alive: bool)
      requires path in files
      modifies `files, `left
      ensures alive <==> old(left) > 0
      ensures alive ==> left == old(left) - 1 && path in files && files == old(files)[path := files[path]]
      ensures alive ==> files[path].key == old(files)[path].key && files[path].content == content
      ensures !alive ==> files == old(files) && left == 0
    {
      if left == 0 { return false; }
      var now: nat := *;
      files, left := files[path := Token(files[path].key, content, now)], left - 1;
      return true;
    }

    method WriteManifest(m: Option<Manifest>) returns (alive: bool)
      modifies `manifest, `left
      ensures alive <==> old(left) > 0
      ensures alive ==> manifest == m && left == old(left) - 1
      ensures !alive ==> manifest == old(manifest) && left == 0
    {
      if left == 0 { return false; }
      manifest, left := m, left - 1;
      return true;
    }
  }

  // Recovery ---------------------------------------------------------------------------------------

  /** Where the restore finds a sidecar: at its place, set aside, or in its copy, and there as the manifest has it. */
  predicate Restorable(unix: bool, f: Files, a: Artifact) {
    if Side(a.kind) in f then Matches(unix, f[Side(a.kind)], a.identity)
    else if Detached(a.kind) in f then Matches(unix, f[Detached(a.kind)], a.identity)
    else BackupOf(Side(a.kind)) in f && f[BackupOf(Side(a.kind))] == a.backup
  }

  /** The content it is restored with: its own, or that of the copy when it is nowhere else. */
  predicate Restored(before: Files, after: Files, a: Artifact) {
    && Side(a.kind) in after
    && after[Side(a.kind)].content
       == if Side(a.kind) in before || Detached(a.kind) in before then a.identity.content else a.backup.content
  }

  predicate SameParts(before: Files, after: Files, kind: Kind) {
    && SameAt(before, after, Side(kind)) && SameAt(before, after, Detached(kind))
    && SameAt(before, after, BackupOf(Side(kind)))
  }

  lemma SamePartsSame(unix: bool, before: Files, between: Files, after: Files, a: Artifact)
    requires SameParts(before, between, a.kind)
    ensures Restorable(unix, between, a) == Restorable(unix, before, a)
    ensures Restored(between, after, a) == Restored(before, after, a)
  {
  }

  predicate OthersSame(before: Files, after: Files, kind: Kind) {
    && SameAt(before, after, Staging) && (forall k :: SameAt(before, after, BackupOf(Side(k))))
    && forall k | k != kind :: SameAt(before, after, Side(k)) && SameAt(before, after, Detached(k))
  }

  method RestoreSidecar(disk: Disk, a: Artifact) returns (outcome: Outcome)
    modifies disk`files, disk`left, disk`nextKey
    ensures KeepsFiles(old(disk.files), disk.files, {}) && OthersSame(old(disk.files), disk.files, a.kind)
    ensures !outcome.Crashed? ==> (outcome.Done? <==> Restorable(disk.unix, old(disk.files), a))
    ensures outcome.Done? ==> Restored(old(disk.files), disk.files, a)
    ensures outcome.Crashed? ==> disk.left == 0
    ensures !outcome.Done? || Side(a.kind) in old(disk.files) ==>
              disk.files == old(disk.files) && disk.left == old(disk.left) && disk.nextKey == old(disk.nextKey)
    ensures outcome.Done? && Side(a.kind) !in old(disk.files) && Detached(a.kind) in old(disk.files) ==>
              var t := disk.files[Side(a.kind)];
              && Matches(disk.unix, t, old(disk.files)[Detached(a.kind)])
              && disk.files == (old(disk.files) - {Detached(a.kind)})[Side(a.kind) := t]
              && disk.left + 1 == old(disk.left) && disk.nextKey == old(disk.nextKey)
  {
    hide KeepsFiles;
    KeepsReflexive(disk.files, {});
    var source, detached, backup := Side(a.kind), Detached(a.kind), BackupOf(Side(a.kind));
    if source in disk.files { return if Matches(disk.unix, disk.files[source], a.identity) then Done else Refused; }
    if detached in disk.files {
      if !Matches(disk.unix, disk.files[detached], a.identity) { return Refused; }
      var alive := disk.Rename(detached, source);
      if !alive { return Crashed; }
      RenameKeeps(old(disk.files), disk.files, detached, source);
      return Done;
    }
    if backup !in disk.files || disk.files[backup] != a.backup { return Refused; }
    var alive := disk.Create(source, disk.files[backup].content);
    if !alive { return Crashed; }
    CreateKeeps(old(disk.files), disk.files, source);
    return Done;
  }

  lemma RestoredStays(before: Files, between: Files, after: Files, a: Artifact, kind: Kind)
    requires Restored(before, between, a) && OthersSame(between, after, kind) && a.kind != kind
    ensures Restored(before, after, a)
  {
    assert SameAt(between, after, Side(a.kind));
  }

  lemma PartsStay(before: Files, between: Files, after: Files, other: Kind, kind: Kind)
    requires SameParts(before, between, other) && OthersSame(between, after, kind) && other != kind
    ensures SameParts(before, after, other)
  {
  }

  /** restore_original_sidecars: put each sidecar back, from where it was set aside or else from its copy. */
  method RestoreOriginalSidecars(disk: Disk, m: Manifest) returns (outcome: Outcome)
    modifies disk`files, disk`left, disk`nextKey
    ensures KeepsFiles(old(disk.files), disk.files, {}) && SameAt(old(disk.files), disk.files, Staging)
    ensures old(BeforePublish(disk.unix, m, disk.files)) ==>
              && !outcome.Refused? && BeforePublish(disk.unix, m, disk.files) && disk.nextKey == old(disk.nextKey)
              && (outcome.Done? ==> forall i | 0 <= i < |m.artifacts| ::
                  AtSource(disk.unix, disk.files, m.artifacts[i]))
              && disk.left + |m.artifacts| >= old(disk.left)
    ensures outcome.Crashed? ==> disk.left == 0
    ensures DistinctKinds(m.artifacts) && !outcome.Crashed? ==>
      (outcome.Done? <==> forall i | 0 <= i < |m.artifacts| :: Restorable(disk.unix, old(disk.files), m.artifacts[i]))
    ensures DistinctKinds(m.artifacts) && outcome.Done? ==>
              forall i | 0 <= i < |m.artifacts| :: Restored(old(disk.files), disk.files, m.artifacts[i])
  {
    hide KeepsFiles, BeforePublish, Restorable, Restored, OthersSame, Matches;
    ghost var switching := BeforePublish(disk.unix, m, disk.files);
    KeepsReflexive(disk.files, {});
    var i := 0;
    while i < |m.artifacts|
      invariant 0 <= i <= |m.artifacts|
      invariant KeepsFiles(old(disk.files), disk.files, {}) && SameAt(old(disk.files), disk.files, Staging)
      invariant DistinctKinds(m.artifacts) ==>
                  RestoredSoFar(disk.unix, m.artifacts, old(disk.files), disk.files, i)
      invariant switching ==>
                  && BeforePublish(disk.unix, m, disk.files) && disk.nextKey == old(disk.nextKey)
                  && (forall j | 0 <= j < i :: AtSource(disk.unix, disk.files, m.artifacts[j]))
                  && disk.left + i >= old(disk.left)
    {
      var a := m.artifacts[i];
      ghost var before := disk.files;
      if switching { Somewhere(disk.unix, m, disk.files, i); }
      outcome := RestoreSidecar(disk, a);
      KeepsCompose(old(disk.files), before, disk.files, {});
      StagingStays(before, disk.files, a.kind);
      if DistinctKinds(m.artifacts) {
        SamePartsSame(disk.unix, old(disk.files), before, disk.files, a);
        if outcome.Done? { OneMoreRestored(disk.unix, m.artifacts, old(disk.files), before, disk.files, i); }
      }
      if !outcome.Done? { return; }
      if switching && Side(a.kind) !in before { RestoredOne(disk.unix, m, before, i, disk.files[Side(a.kind)]); }
      i := i + 1;
    }
    return Done;
  }

  lemma StagingStays(before: Files, after: Files, kind: Kind)
    requires OthersSame(before, after, kind)
    ensures SameAt(before, after, Staging)
  {
  }

  ghost predicate RestoredSoFar(unix: bool, artifacts: seq<Artifact>, before: Files, now: Files, n: nat)
    requires n <= |artifacts|
  {
    && (forall j | 0 <= j < n :: Restorable(unix, before, artifacts[j]) && Restored(before, now, artifacts[j]))
    && forall j | n <= j < |artifacts| :: SameParts(before, now, artifacts[j].kind)
  }

  lemma OneMoreRestored(unix: bool, artifacts: seq<Artifact>, before: Files, between: Files, after: Files, n: nat)
    requires n < |artifacts| && DistinctKinds(artifacts) && RestoredSoFar(unix, artifacts, before, between, n)
    requires Restorable(unix, between, artifacts[n]) && Restored(between, after, artifacts[n])
    requires OthersSame(between, after, artifacts[n].kind)
    ensures RestoredSoFar(unix, artifacts, before, after, n + 1)
  {
    SamePartsSame(unix, before, between, after, artifacts[n]);
    hide Restorable, Restored, OthersSame, SameParts;
    forall j | 0 <= j < |artifacts| && j != n
      ensures j < n ==> Restored(before, after, artifacts[j])
      ensures j > n ==> SameParts(before, after, artifacts[j].kind)
    {
      assert artifacts[j].kind != artifacts[n].kind;
      if j < n { RestoredStays(before, between, after, artifacts[j], artifacts[n].kind); }
      else { PartsStay(before, between, after, artifacts[j].kind, artifacts[n].kind); }
    }
  }

  lemma Somewhere(unix: bool, m: Manifest, f: Files, i: nat)
    requires BeforePublish(unix, m, f) && i < |m.artifacts|
    ensures AtSource(unix, f, m.artifacts[i]) || AtDetached(unix, f, m.artifacts[i])
    ensures Restorable(unix, f, m.artifacts[i])
  {
  }

  // A stray that may be moved away: the very token recorded before the switch, and room for it.
  predicate Tolerated(f: Files, a: Artifact) {
    Side(a.kind) in f ==> f[Side(a.kind)] == a.identity && Recovered(a.kind) !in f
  }

  /** A sidecar that a rename put back beside the published copy is the recorded one for the
      restore, and refused here. */
  lemma RenamedStrayIsRefused(content: nat)
    ensures var a := Artifact(Wal, Token(1, content, 0), Token(2, content, 0));
            var f: Files := map[Side(Wal) := Token(1, content, 1)];
            AtSource(true, f, a) && !Tolerated(f, a)
  {
  }

  /** Among sidecars the restore would accept, those refused are exactly the ones whose status-change time moved and
      the ones whose place is taken. */
  lemma ToleratedIff(unix: bool, f: Files, a: Artifact)
    requires AtSource(unix, f, a)
    ensures Tolerated(f, a) <==> f[Side(a.kind)].changed == a.identity.changed && Recovered(a.kind) !in f
  {
  }

  /** preserve_stray_original_sidecars: beside a published copy only an original sidecar is tolerated, and moved away.
      It compares the whole token, so on Unix a sidecar that a rename touched is refused. */
  method PreserveStraySidecars(disk: Disk, m: Manifest) returns (outcome: Outcome)
    modifies disk`files, disk`left
    ensures KeepsFiles(old(disk.files), disk.files, {}) && SameAt(old(disk.files), disk.files, Main)
    ensures (forall i | 0 <= i < |m.artifacts| :: Side(m.artifacts[i].kind) !in old(disk.files)) ==>
              outcome.Done? && disk.files == old(disk.files) && disk.left == old(disk.left)
    ensures outcome.Done? ==> forall i | 0 <= i < |m.artifacts| ::
              && Side(m.artifacts[i].kind) !in disk.files
              && (Side(m.artifacts[i].kind) in old(disk.files) && DistinctKinds(m.artifacts) ==>
                    old(disk.files)[Side(m.artifacts[i].kind)] == m.artifacts[i].identity)
    ensures DistinctKinds(m.artifacts) && !outcome.Crashed? ==>
              (outcome.Done? <==> forall i | 0 <= i < |m.artifacts| :: Tolerated(old(disk.files), m.artifacts[i]))
    ensures outcome.Crashed? ==> disk.left == 0
  {
    hide KeepsFiles;
    KeepsReflexive(disk.files, {});
    var i := 0;
    while i < |m.artifacts|
      invariant 0 <= i <= |m.artifacts|
      invariant KeepsFiles(old(disk.files), disk.files, {}) && SameAt(old(disk.files), disk.files, Main)
      invariant forall j | 0 <= j < i ::
                  && Side(m.artifacts[j].kind) !in disk.files
                  && (DistinctKinds(m.artifacts) ==> Tolerated(old(disk.files), m.artifacts[j]))
      invariant DistinctKinds(m.artifacts) ==>
                  forall j | i <= j < |m.artifacts| ::
                    && SameAt(old(disk.files), disk.files, Side(m.artifacts[j].kind))
                    && SameAt(old(disk.files), disk.files, Recovered(m.artifacts[j].kind))
      invariant (forall j | 0 <= j < |m.artifacts| :: Side(m.artifacts[j].kind) !in old(disk.files)) ==>
                  disk.files == old(disk.files) && disk.left == old(disk.left)
    {
      var a := m.artifacts[i];
      var source, recovered := Side(a.kind), Recovered(a.kind);
      if source in disk.files {
        if disk.files[source] != a.identity || recovered in disk.files { return Refused; }
        ghost var before := disk.files;
        var alive := disk.Rename(source, recovered);
        if !alive { return Crashed; }
        RenameKeeps(before, disk.files, source, recovered);
        KeepsCompose(old(disk.files), before, disk.files, {});
      }
      i := i + 1;
    }
    return Done;
  }

  /** recover_interrupted_switch. On any disk at all it loses no file but the staging copy. From a crash of the
      switch, or of an earlier recovery, it never refuses, and it ends all-or-nothing or crashes recoverably. */
  method RecoverInterruptedSwitch(disk: Disk) returns (outcome: Outcome)
    modifies disk
    ensures disk.manifest == if outcome.Done? then None else old(disk.manifest)
    ensures KeepsFiles(old(disk.files), disk.files,
              if old(disk.manifest).Some? then {old(disk.manifest).value.migratedMain.key} else {})
    ensures old(disk.manifest).Some? && old(BeforePublish(disk.unix, disk.manifest.value, disk.files)) ==>
              var m := old(disk.manifest).value;
              && !outcome.Refused? && BeforePublish(disk.unix, m, disk.files)
              && (outcome.Done? ==> OriginalAgain(disk.unix, m, disk.files))
              && (old(disk.left) >= |m.artifacts| + 2 ==> outcome.Done?)
    ensures old(disk.manifest).Some? && old(AfterPublish(disk.unix, disk.manifest.value, disk.files)) ==>
              !outcome.Refused? && disk.files == old(disk.files) && (old(disk.left) >= 1 ==> outcome.Done?)
    ensures old(disk.manifest).Some? && Main in old(disk.files) ==>
              var m, main := old(disk.manifest).value, old(disk.files)[Main];
              main != m.sourceMain && !Matches(disk.unix, main, m.migratedMain) ==>
                outcome.Refused? && disk.files == old(disk.files)
    ensures outcome.Done? ==> old(disk.manifest).Some? && Main in old(disk.files)
    ensures outcome.Done? && old(disk.files)[Main] == old(disk.manifest).value.sourceMain ==> Staging !in disk.files
  {
    hide KeepsFiles;
    KeepsReflexive(disk.files, {});
    if disk.manifest.None? || Main !in disk.files {
      Widen(old(disk.files), disk.files, old(disk.manifest));
      return Refused;
    }
    var m := disk.manifest.value;
    if disk.files[Main] == m.sourceMain {
      outcome := RestoreOriginalSidecars(disk, m);
      Widen(old(disk.files), disk.files, old(disk.manifest));
      if !outcome.Done? { return; }
      if Staging in disk.files {
        if disk.files[Staging] != m.migratedMain { return Refused; }
        ghost var before := disk.files;
        var alive := disk.Remove(Staging);
        if !alive { return Crashed; }
        RemoveKeeps(before, Staging);
        KeepsCompose(old(disk.files), before, disk.files, {m.migratedMain.key});
      }
    } else if Matches(disk.unix, disk.files[Main], m.migratedMain) {
      outcome := PreserveStraySidecars(disk, m);
      Widen(old(disk.files), disk.files, old(disk.manifest));
      if !outcome.Done? { return; }
    } else {
      Widen(old(disk.files), disk.files, old(disk.manifest));
      return Refused;
    }
    var alive := disk.WriteManifest(None);
    return if alive then Done else Crashed;
  }

  lemma Widen(before: Files, after: Files, m: Option<Manifest>)
    requires KeepsFiles(before, after, {})
    ensures KeepsFiles(before, after, if m.Some? then {m.value.migratedMain.key} else {})
  {
  }

  // The switch -------------------------------------------------------------------------------------

  /** A database at rest: nothing of an earlier switch is in the way, and new files get keys of their own. */
  ghost predicate AtRest(f: Files, nextKey: nat) {
    && Main in f && (forall p | p in f :: (p == Main || p.Side?) && f[p].key < nextKey)
  }

  ghost predicate SameAuthority(before: Files, after: Files) {
    SameAt(before, after, Main) && forall k :: SameAt(before, after, Side(k))
  }

  /** The manifest names the original main file and exactly the original sidecars. */
  ghost predicate Describes(m: Manifest, original: Files, nextKey: nat) {
    && Main in original && m.sourceMain == original[Main] && m.migratedMain.key >= nextKey && DistinctKinds(m.artifacts)
    && (forall i | 0 <= i < |m.artifacts| ::
          Side(m.artifacts[i].kind) in original && m.artifacts[i].identity == original[Side(m.artifacts[i].kind)])
    && (forall k | Side(k) in original :: Listed(m.artifacts, k))
  }

  /** The copy that was migrated, a new object with the migrated content, and no sidecar. */
  ghost predicate MigratedAlone(f: Files, nextKey: nat, migrated: nat) {
    Main in f && f[Main].key >= nextKey && f[Main].content == migrated && forall k :: Side(k) !in f
  }

  predicate Copied(original: Files, f: Files, p: Path) {
    p in original ==> BackupOf(p) in f && f[BackupOf(p)].content == original[p].content
  }

  /** The content of every original file is kept in a copy set aside. */
  ghost predicate AllCopied(original: Files, f: Files) {
    Copied(original, f, Main) && forall k :: Copied(original, f, Side(k))
  }

  ghost predicate OriginalPreserved(unix: bool, original: Files, f: Files) {
    && SameAt(original, f, Main)
    && forall k ::
        (Side(k) in f <==> Side(k) in original) && (Side(k) in f ==> Matches(unix, f[Side(k)], original[Side(k)]))
  }

  /** The sidecars there are of these kinds. */
  function Sidecars(f: Files, kinds: seq<Kind>): nat {
    if kinds == [] then 0
    else Sidecars(f, kinds[..|kinds| - 1]) + (if Side(kinds[|kinds| - 1]) in f then 1 else 0)
  }

  lemma OneMoreKind(f: Files, i: nat)
    requires i < 3
    ensures Sidecars(f, KINDS[..i + 1]) == Sidecars(f, KINDS[..i]) + (if Side(KINDS[i]) in f then 1 else 0)
    ensures Sidecars(f, KINDS[..i + 1]) <= Sidecars(f, KINDS)
  {
    assert KINDS[..i + 1][..i] == KINDS[..i];
    assert KINDS[..3] == KINDS && KINDS[..3][..2] == KINDS[..2] && KINDS[..2][..1] == KINDS[..1];
  }

  /** The artifacts describe the sidecars of these kinds, and their copies and that of the main file are there. */
  ghost predicate Described(original: Files, f: Files, artifacts: seq<Artifact>, kinds: seq<Kind>) {
    && DistinctKinds(artifacts) && Copied(original, f, Main)
    && (forall j | 0 <= j < |artifacts| ::
          && artifacts[j].kind in kinds && Side(artifacts[j].kind) in original
          && artifacts[j].identity == original[Side(artifacts[j].kind)]
          && BackupOf(Side(artifacts[j].kind)) in f && f[BackupOf(Side(artifacts[j].kind))] == artifacts[j].backup)
    && forall k | k in kinds :: Copied(original, f, Side(k)) && (Side(k) in original ==> Listed(artifacts, k))
  }

  lemma DescribedOne(original: Files, f: Files, artifacts: seq<Artifact>, kinds: seq<Kind>, kind: Kind, t: Token)
    requires Described(original, f, artifacts, kinds) && kind !in kinds
    requires Side(kind) in original && t.content == original[Side(kind)].content
    ensures Described(original, f[BackupOf(Side(kind)) := t], artifacts + [Artifact(kind, original[Side(kind)], t)],
                      kinds + [kind])
  {
    ListedGrows(artifacts, Artifact(kind, original[Side(kind)], t));
    hide Listed;
  }

  lemma DescribedNone(original: Files, f: Files, artifacts: seq<Artifact>, kinds: seq<Kind>, kind: Kind)
    requires Described(original, f, artifacts, kinds) && Side(kind) !in original
    ensures Described(original, f, artifacts, kinds + [kind])
  {
  }

  // Copies stand beside the original.
  lemma CopyBeside(original: Files, f: Files, p: Path, t: Token)
    requires SameAuthority(original, f) && forall k :: Detached(k) !in f
    ensures var g := f[BackupOf(p) := t];
      SameAuthority(original, g) && SameAt(f, g, Staging) && forall k :: Detached(k) !in g
  {
    forall k ensures SameAt(original, f[BackupOf(p) := t], Side(k)) { assert SameAt(original, f, Side(k)); }
  }

  lemma SideStands(original: Files, f: Files, kind: Kind)
    requires SameAuthority(original, f)
    ensures SameAt(original, f, Side(kind))
  {
  }

  /** The writer's first half: copy every original artifact aside and describe them. */
  method PreserveOriginal(disk: Disk, original: Files) returns (outcome: Outcome, artifacts: seq<Artifact>)
    requires SameAuthority(original, disk.files) && Main in original
    requires forall k :: Detached(k) !in disk.files
    modifies disk`files, disk`left, disk`nextKey
    ensures SameAuthority(original, disk.files) && SameAt(old(disk.files), disk.files, Staging)
    ensures forall k :: Detached(k) !in disk.files
    ensures !outcome.Refused? && (outcome.Crashed? ==> disk.left == 0)
    ensures outcome.Done? <==> old(disk.left) >= 1 + Sidecars(original, KINDS)
    ensures outcome.Done? ==>
              |artifacts| == Sidecars(original, KINDS) && disk.left + 1 + |artifacts| == old(disk.left)
    ensures outcome.Done? ==> Described(original, disk.files, artifacts, KINDS)
  {
    artifacts := [];
    CopyBeside(original, disk.files, Main, Token(disk.nextKey, disk.files[Main].content, disk.nextKey));
    assert disk.files[Main].content == original[Main].content;
    var alive := disk.Create(BackupOf(Main), disk.files[Main].content);
    if !alive { return Crashed, []; }
    assert Described(original, disk.files, [], KINDS[..0]);
    hide Described, SameAuthority, Sidecars, DistinctKinds, Listed, Copied;
    var i := 0;
    assert Sidecars(original, KINDS[..i]) == 0 by { NoKinds(original); }
    while i < |KINDS|
      invariant 0 <= i <= |KINDS|
      invariant SameAuthority(original, disk.files) && SameAt(old(disk.files), disk.files, Staging)
      invariant forall k :: Detached(k) !in disk.files
      invariant |artifacts| == Sidecars(original, KINDS[..i]) && disk.left + 1 + |artifacts| == old(disk.left)
      invariant Described(original, disk.files, artifacts, KINDS[..i])
    {
      var kind := KINDS[i];
      assert kind !in KINDS[..i] && KINDS[..i + 1] == KINDS[..i] + [kind];
      SideStands(original, disk.files, kind);
      OneMoreKind(original, i);
      if Side(kind) in disk.files {
        ghost var before, t := disk.files, Token(disk.nextKey, disk.files[Side(kind)].content, disk.nextKey);
        CopyBeside(original, before, Side(kind), t);
        DescribedOne(original, before, artifacts, KINDS[..i], kind, t);
        alive := disk.Create(BackupOf(Side(kind)), disk.files[Side(kind)].content);
        if !alive { return Crashed, []; }
        artifacts := artifacts + [Artifact(kind, disk.files[Side(kind)], disk.files[BackupOf(Side(kind))])];
      } else {
        DescribedNone(original, disk.files, artifacts, KINDS[..i], kind);
      }
      i := i + 1;
    }
    assert KINDS[..i] == KINDS;
    return Done, artifacts;
  }

  lemma NoKinds(f: Files)
    ensures Sidecars(f, KINDS[..0]) == 0
  {
  }

  lemma DescribedCopies(original: Files, f: Files, artifacts: seq<Artifact>)
    requires Described(original, f, artifacts, KINDS)
    ensures AllCopied(original, f) && DistinctKinds(artifacts)
    ensures forall i | 0 <= i < |artifacts| ::
              Side(artifacts[i].kind) in original && artifacts[i].identity == original[Side(artifacts[i].kind)]
    ensures forall k | Side(k) in original :: Listed(artifacts, k)
  {
    forall k ensures k in KINDS { AllKinds(k); }
  }

  lemma AllKinds(k: Kind)
    ensures k in KINDS
  {
    assert KINDS[0] == Wal && KINDS[1] == Shm && KINDS[2] == Journal;
  }

  lemma ListedGrows(artifacts: seq<Artifact>, a: Artifact)
    ensures Listed(artifacts + [a], a.kind)
    ensures forall k | Listed(artifacts, k) :: Listed(artifacts + [a], k)
  {
    var all := artifacts + [a];
    assert all[|artifacts|] == a;
    forall k | Listed(artifacts, k) ensures Listed(all, k) {
      var i :| 0 <= i < |artifacts| && artifacts[i].kind == k;
      assert all[i] == artifacts[i];
    }
  }

  // Setting one sidecar aside keeps the state before publication.
  lemma DetachedOne(unix: bool, m: Manifest, f: Files, i: nat, t: Token)
    requires BeforePublish(unix, m, f) && i < |m.artifacts| && AtSource(unix, f, m.artifacts[i])
    requires Matches(unix, t, f[Side(m.artifacts[i].kind)])
    ensures var g := (f - {Side(m.artifacts[i].kind)})[Detached(m.artifacts[i].kind) := t];
            && BeforePublish(unix, m, g) && AtDetached(unix, g, m.artifacts[i])
            && forall j | 0 <= j < |m.artifacts| && AtDetached(unix, f, m.artifacts[j]) ::
                AtDetached(unix, g, m.artifacts[j])
  {
    var g := (f - {Side(m.artifacts[i].kind)})[Detached(m.artifacts[i].kind) := t];
    forall j | 0 <= j < |m.artifacts|
      ensures AtSource(unix, g, m.artifacts[j]) || AtDetached(unix, g, m.artifacts[j])
      ensures AtDetached(unix, f, m.artifacts[j]) ==> AtDetached(unix, g, m.artifacts[j])
    {
      if j != i { assert m.artifacts[j].kind != m.artifacts[i].kind; }
    }
  }

  /** detach_source_sidecars, refusing a sidecar that changed since it was observed. */
  method DetachSourceSidecars(disk: Disk, m: Manifest) returns (outcome: Outcome)
    requires BeforePublish(disk.unix, m, disk.files)
    requires forall i | 0 <= i < |m.artifacts| ::
               Side(m.artifacts[i].kind) in disk.files
               && disk.files[Side(m.artifacts[i].kind)] == m.artifacts[i].identity
    modifies disk`files, disk`left
    ensures !outcome.Refused? && BeforePublish(disk.unix, m, disk.files) && SameAt(old(disk.files), disk.files, Staging)
    ensures forall p :: SameAt(old(disk.files), disk.files, BackupOf(p))
    ensures outcome.Done? ==> forall i | 0 <= i < |m.artifacts| :: AtDetached(disk.unix, disk.files, m.artifacts[i])
    ensures outcome.Done? <==> old(disk.left) >= |m.artifacts|
    ensures if outcome.Done? then disk.left + |m.artifacts| == old(disk.left) else disk.left == 0
  {
    var i := 0;
    ghost var original := disk.files;
    while i < |m.artifacts|
      invariant 0 <= i <= |m.artifacts| && disk.left + i == old(disk.left)
      invariant BeforePublish(disk.unix, m, disk.files) && SameAt(original, disk.files, Staging)
      invariant forall p :: SameAt(original, disk.files, BackupOf(p))
      invariant forall j | 0 <= j < i :: AtDetached(disk.unix, disk.files, m.artifacts[j])
      invariant forall j | i <= j < |m.artifacts| ::
                  Side(m.artifacts[j].kind) in disk.files
                  && disk.files[Side(m.artifacts[j].kind)] == m.artifacts[j].identity
    {
      var a := m.artifacts[i];
      if Side(a.kind) !in disk.files || disk.files[Side(a.kind)] != a.identity { return Refused; }
      ghost var before := disk.files;
      assert AtSource(disk.unix, before, a);
      var alive := disk.Rename(Side(a.kind), Detached(a.kind));
      if !alive { return Crashed; }
      DetachedOne(disk.unix, m, before, i, disk.files[Detached(a.kind)]);
      i := i + 1;
    }
    return Done;
  }

  lemma PublishedAfter(unix: bool, m: Manifest, f: Files, t: Token)
    requires BeforePublish(unix, m, f) && Matches(unix, t, m.migratedMain)
    requires forall i | 0 <= i < |m.artifacts| :: AtDetached(unix, f, m.artifacts[i])
    ensures AfterPublish(unix, m, (f - {Staging})[Main := t])
  {
    var g := (f - {Staging})[Main := t];
    forall k ensures Side(k) !in g {
      if Listed(m.artifacts, k) {
        var i :| 0 <= i < |m.artifacts| && m.artifacts[i].kind == k;
        assert AtDetached(unix, f, m.artifacts[i]);
      }
    }
    forall i | 0 <= i < |m.artifacts| ensures AtDetached(unix, g, m.artifacts[i]) {
      assert AtDetached(unix, f, m.artifacts[i]);
    }
  }

  lemma SameSidecars(f: Files, g: Files)
    requires SameAuthority(f, g)
    ensures Sidecars(g, KINDS) == Sidecars(f, KINDS)
  {
    forall i: nat | i <= 3 ensures Sidecars(g, KINDS[..i]) == Sidecars(f, KINDS[..i]) { SameAmong(f, g, KINDS[..i]); }
    assert KINDS[..3] == KINDS;
  }

  lemma {:induction false} SameAmong(f: Files, g: Files, kinds: seq<Kind>)
    requires SameAuthority(f, g)
    ensures Sidecars(g, kinds) == Sidecars(f, kinds)
  {
    if kinds != [] {
      SameAmong(f, g, kinds[..|kinds| - 1]);
      assert SameAt(f, g, Side(kinds[|kinds| - 1]));
    }
  }

  /** Up to the manifest: the original stays where it is, and the manifest describes it. */
  method StageCopy(disk: Disk, migrated: nat) returns (outcome: Outcome, m: Manifest)
    requires AtRest(disk.files, disk.nextKey)
    modifies disk`files, disk`left, disk`nextKey
    ensures !outcome.Refused? && SameAuthority(old(disk.files), disk.files)
    ensures outcome.Done? <==> old(disk.left) >= 3 + Sidecars(old(disk.files), KINDS)
    ensures outcome.Done? ==>
              |m.artifacts| == Sidecars(old(disk.files), KINDS) && disk.left + 3 + |m.artifacts| == old(disk.left)
    ensures outcome.Done? ==>
              && Describes(m, old(disk.files), old(disk.nextKey)) && BeforePublish(disk.unix, m, disk.files)
              && Staging in disk.files && m.migratedMain.content == migrated && AllCopied(old(disk.files), disk.files)
              && m.stage.Prepared?
              && (forall i | 0 <= i < |m.artifacts| ::
                    Side(m.artifacts[i].kind) in disk.files
                    && disk.files[Side(m.artifacts[i].kind)] == m.artifacts[i].identity)
  {
    ghost var original := disk.files;
    m := Manifest(disk.files[Main], disk.files[Main], [], Prepared);
    var alive := disk.Create(Staging, 0);
    if !alive { return Crashed, m; }
    alive := disk.Write(Staging, migrated);
    if !alive { return Crashed, m; }
    var staged := disk.files[Staging];
    var source := disk.files[Main];
    var artifacts;
    SameSidecars(original, disk.files);
    outcome, artifacts := PreserveOriginal(disk, disk.files);
    m := Manifest(source, staged, artifacts, Prepared);
    if !outcome.Done? { return; }
    DescribedCopies(original, disk.files, artifacts);
    Ready(disk.unix, m, original, disk.files);
    forall i | 0 <= i < |m.artifacts| ensures Side(m.artifacts[i].kind) in disk.files {
      assert SameAt(original, disk.files, Side(m.artifacts[i].kind));
    }
  }

  /** The stage that a manifest records has been reached, and the copy is not published before the second one is. */
  ghost predicate StageFits(unix: bool, m: Manifest, f: Files) {
    match m.stage
    case Prepared => BeforePublish(unix, m, f)
    case SidecarsDetached =>
      BeforePublish(unix, m, f) ==> forall i | 0 <= i < |m.artifacts| :: AtDetached(unix, f, m.artifacts[i])
    case Published => AfterPublish(unix, m, f)
  }

  lemma StagesFit(unix: bool, m: Manifest)
    ensures forall f | BeforePublish(unix, m, f) ::
              !AfterPublish(unix, m, f) && StageFits(unix, m.(stage := Prepared), f)
    ensures forall f | BeforePublish(unix, m, f)
              && (forall i | 0 <= i < |m.artifacts| :: AtDetached(unix, f, m.artifacts[i])) ::
              StageFits(unix, m.(stage := SidecarsDetached), f)
    ensures forall f | AfterPublish(unix, m, f) ::
              StageFits(unix, m.(stage := SidecarsDetached), f) && StageFits(unix, m.(stage := Published), f)
  {
    StageIgnored(unix, m);
    forall f | BeforePublish(unix, m, f) ensures !AfterPublish(unix, m, f) {}
  }

  /** The historical switch, one operation after the other: it needs eight and two for each sidecar. It crashes with
      the original untouched and no manifest, or behind a manifest that describes the original and fits the disk; it
      ends with the migrated main file alone. */
  method SwitchAuthority(disk: Disk, migrated: nat) returns (outcome: Outcome)
    requires AtRest(disk.files, disk.nextKey) && disk.manifest == None
    modifies disk
    ensures !outcome.Refused?
    ensures outcome.Done? ==> disk.manifest == None && MigratedAlone(disk.files, old(disk.nextKey), migrated)
    ensures outcome.Done? || disk.manifest.Some? ==> AllCopied(old(disk.files), disk.files)
    ensures outcome.Crashed? && disk.manifest == None ==> SameAuthority(old(disk.files), disk.files)
    ensures outcome.Crashed? && disk.manifest.Some? ==>
              && Describes(disk.manifest.value, old(disk.files), old(disk.nextKey))
              && disk.manifest.value.migratedMain.content == migrated
              && |disk.manifest.value.artifacts| == Sidecars(old(disk.files), KINDS)
              && StageFits(disk.unix, disk.manifest.value, disk.files)
              && (BeforePublish(disk.unix, disk.manifest.value, disk.files)
                  || AfterPublish(disk.unix, disk.manifest.value, disk.files))
    ensures var n, left := Sidecars(old(disk.files), KINDS), old(disk.left);
      && (outcome.Done? <==> left >= 8 + 2 * n)
      && (outcome.Crashed? ==> (disk.manifest.Some? <==> left >= 4 + n))
      && (outcome.Crashed? && disk.manifest.Some? ==>
            (AfterPublish(disk.unix, disk.manifest.value, disk.files) <==> left >= 6 + 2 * n))
  {
    var m;
    outcome, m := StageCopy(disk, migrated);
    if !outcome.Done? { return; }
    StageIgnored(disk.unix, m);
    hide BeforePublish, AfterPublish, Describes, SameAuthority, AtRest, AllCopied, AtDetached, Sidecars, StageFits;
    var alive := disk.WriteManifest(Some(m));
    if !alive { return Crashed; }
    ghost var staged := disk.files;
    StagesFit(disk.unix, m);
    outcome := DetachSourceSidecars(disk, m);
    CopiesStay(old(disk.files), staged, disk.files);
    if !outcome.Done? { return; }
    alive := disk.WriteManifest(Some(m.(stage := SidecarsDetached)));
    if !alive { return Crashed; }
    ghost var before := disk.files;
    StagedIsMigrated(disk.unix, m, before);
    alive := disk.Rename(Staging, Main);
    if !alive { return Crashed; }
    PublishedAfter(disk.unix, m, before, disk.files[Main]);
    CopiesStay(old(disk.files), before, disk.files);
    alive := disk.WriteManifest(Some(m.(stage := Published)));
    if !alive { return Crashed; }
    alive := disk.WriteManifest(None);
    if !alive { return Crashed; }
    PublishedAlone(disk.unix, m, old(disk.files), old(disk.nextKey), disk.files);
    return Done;
  }

  lemma CopiesStay(original: Files, f: Files, g: Files)
    requires AllCopied(original, f) && forall p :: SameAt(f, g, BackupOf(p))
    ensures AllCopied(original, g)
  {
    assert SameAt(f, g, BackupOf(Main)) && forall k :: SameAt(f, g, BackupOf(Side(k)));
  }

  lemma StagedIsMigrated(unix: bool, m: Manifest, f: Files)
    requires BeforePublish(unix, m, f) && Staging in f
    ensures f[Staging] == m.migratedMain
  {
  }

  // The recorded stage is never read back.
  lemma StageIgnored(unix: bool, m: Manifest)
    ensures forall f, s :: BeforePublish(unix, m.(stage := s), f) == BeforePublish(unix, m, f)
    ensures forall f, s :: AfterPublish(unix, m.(stage := s), f) == AfterPublish(unix, m, f)
    ensures forall f, k, s :: Describes(m.(stage := s), f, k) == Describes(m, f, k)
  {
  }

  lemma PublishedAlone(unix: bool, m: Manifest, original: Files, nextKey: nat, f: Files)
    requires Describes(m, original, nextKey) && AfterPublish(unix, m, f)
    ensures MigratedAlone(f, nextKey, m.migratedMain.content)
  {
  }

  lemma Ready(unix: bool, m: Manifest, original: Files, f: Files)
    requires Main in original && Main in f && f[Main] == m.sourceMain && SameAuthority(original, f)
    requires Staging in f && f[Staging] == m.migratedMain && m.migratedMain.key != m.sourceMain.key
    requires DistinctKinds(m.artifacts) && forall k :: Detached(k) !in f
    requires forall i | 0 <= i < |m.artifacts| ::
               Side(m.artifacts[i].kind) in original && m.artifacts[i].identity == original[Side(m.artifacts[i].kind)]
    requires forall k | Side(k) in original :: Listed(m.artifacts, k)
    ensures BeforePublish(unix, m, f)
  {
    forall i | 0 <= i < |m.artifacts| ensures AtSource(unix, f, m.artifacts[i]) {
      assert SameAt(original, f, Side(m.artifacts[i].kind));
    }
    forall k | Side(k) in f ensures Listed(m.artifacts, k) { assert SameAt(original, f, Side(k)); }
  }

  /** Whatever operation the switch crashes at, and however often recovery crashes before it is left to finish, the
      database ends all or nothing: the original main file with exactly its original sidecars, never their copies,
      or the migrated main file, holding the migrated content, with no sidecar; then every original is kept in a copy.
      Which one depends only on where the switch crashed: the last operation before the copy is published is the fifth
      and two for each sidecar. */
  method SwitchAndRecover(disk: Disk, migrated: nat, crashAt: nat, recoveries: seq<nat>) returns (published: bool)
    requires AtRest(disk.files, disk.nextKey) && disk.manifest == None
    modifies disk
    ensures disk.manifest == None
    ensures if published
            then MigratedAlone(disk.files, old(disk.nextKey), migrated) && AllCopied(old(disk.files), disk.files)
            else OriginalPreserved(disk.unix, old(disk.files), disk.files)
    ensures published <==> crashAt >= 6 + 2 * Sidecars(old(disk.files), KINDS)
  {
    ghost var original, key := disk.files, disk.nextKey;
    disk.left := crashAt;
    var outcome := SwitchAuthority(disk, migrated);
    if disk.manifest.None? {
      if outcome.Crashed? { Untouched(disk.unix, original, disk.files); }
      return outcome.Done?;
    }
    var m := disk.manifest.value;
    published := disk.files[Main] != m.sourceMain;
    var i := 0;
    while i <= |recoveries| && disk.manifest.Some?
      invariant i <= |recoveries| + 1 && (disk.manifest == None || disk.manifest == Some(m))
      invariant i == |recoveries| + 1 ==> disk.manifest == None
      invariant published ==> AfterPublish(disk.unix, m, disk.files) && AllCopied(original, disk.files)
      invariant !published ==> BeforePublish(disk.unix, m, disk.files)
      invariant !published && disk.manifest == None ==> OriginalAgain(disk.unix, m, disk.files)
    {
      disk.left := if i < |recoveries| then recoveries[i] else |m.artifacts| + 2;
      outcome := RecoverInterruptedSwitch(disk);
      i := i + 1;
    }
    if !published { AgainPreserved(disk.unix, m, original, key, disk.files); }
  }

  lemma Untouched(unix: bool, original: Files, f: Files)
    requires SameAuthority(original, f)
    ensures OriginalPreserved(unix, original, f)
  {
    forall k
      ensures (Side(k) in f <==> Side(k) in original) && (Side(k) in f ==> Matches(unix, f[Side(k)], original[Side(k)]))
    {
      assert SameAt(original, f, Side(k));
    }
  }

  lemma AgainPreserved(unix: bool, m: Manifest, original: Files, nextKey: nat, f: Files)
    requires Describes(m, original, nextKey) && OriginalAgain(unix, m, f)
    ensures OriginalPreserved(unix, original, f)
  {
    forall k
      ensures (Side(k) in f <==> Side(k) in original) && (Side(k) in f ==> Matches(unix, f[Side(k)], original[Side(k)]))
    {
      if Side(k) in f || Side(k) in original {
        assert Listed(m.artifacts, k);
        var i :| 0 <= i < |m.artifacts| && m.artifacts[i].kind == k;
        assert AtSource(unix, f, m.artifacts[i]);
      }
    }
  }
}
