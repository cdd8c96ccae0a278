/**
  Properties of the snapshotter's operations, stated over the functions that
  specify them: where createSnapshot can stop and what each stop leaves in
  the store and under `<root>/snapshots`, what Commit and Usage promise, and
  how Mounts, View and Prepare choose the directories a mount stacks.
 */
module SnapshotProperties {
  import opened Wrappers
  import opened Strings
  import opened Errors
  import opened Storage
  import opened Snapshotter
  import Mounts

  // ------------------------------------------------------ createSnapshot

  /** `<root>/snapshots/<id>` is never the empty path. */
  lemma SnapshotDirNonEmpty(root: string, id: string)
    ensures SnapshotDir(root, id) != ""
  {
    TempDirNonEmpty(root, World(map[], "", "", Usage(0, 0)));
    JoinedNonEmpty(Mounts.SnapshotsDir(root), id);
  }

  /**
    After the temporary directory exists, the body stops at the store, the
    setup or the rename, or reaches the end; `path` is set from the rename
    on, and the outer `err` is set by the store and the rename only.
   */
  lemma PlacedStages(root: string, owner: Owner, view: MetaState, disk: Disk, td: string,
                     kind: Mounts.Kind, key: string, parent: string, opts: seq<Opt>, w: World)
    ensures var p := Placed(root, owner, view, disk, td, kind, key, parent, opts, w);
      p.stage in {CreateFailed, SetupFailed, RenameFailed, Created} &&
      (p.err.None? <==> p.stage == Created) && (p.err.Some? ==> p.err.value.Wrapped?) &&
      (p.outer.Some? <==> p.stage == CreateFailed || p.stage == RenameFailed) &&
      (p.td == "" <==> p.stage == Created || td == "") &&
      (p.path != "" <==> p.stage == RenameFailed || p.stage == Created) &&
      (p.path != "" ==> p.path == SnapshotDir(root, w.newID)) &&
      (p.stage == CreateFailed ==> p.snap == NoSnapshot) &&
      (p.snap == NoSnapshot || (p.snap.kind == kind && p.snap.id == w.newID)) &&
      (p.stage != CreateFailed ==> Storage.CreateSnapshot(view, kind, key, parent, opts, w.newID) == Success((p.view, p.snap)))
  {
    match Storage.CreateSnapshot(view, kind, key, parent, opts, w.newID)
    case Failure(_) =>
    case Success(created) =>
      Storage.CreateSnapshotEffect(view, kind, key, parent, opts, w.newID);
      SnapshotDirNonEmpty(root, created.1.id);
  }

  /**
    Inside the transaction, the body stops at one of five stages; it reports
    no error only when it reaches the end, and it has set `path` exactly when
    it got as far as the rename.
   */
  lemma BodyStages(root: string, owner: Owner, view: MetaState, disk: Disk,
                   kind: Mounts.Kind, key: string, parent: string, opts: seq<Opt>, w: World)
    ensures var b := StagedBody(root, owner, view, disk, kind, key, parent, opts, w);
      b.stage in {PrepareFailed, CreateFailed, SetupFailed, RenameFailed, Created} &&
      (b.err.None? <==> b.stage == Created) && (b.err.Some? ==> b.err.value.Wrapped?) &&
      (b.path != "" <==> b.stage == RenameFailed || b.stage == Created) &&
      (b.path != "" ==> b.path == SnapshotDir(root, w.newID)) &&
      (b.stage == PrepareFailed || b.stage == CreateFailed ==> b.snap == NoSnapshot) &&
      (b.snap == NoSnapshot || (b.snap.kind == kind && b.snap.id == w.newID)) &&
      (b.stage == SetupFailed || b.stage == Created ==>
        Storage.CreateSnapshot(view, kind, key, parent, opts, w.newID) == Success((b.view, b.snap)))
  {
    var prep := PrepareDirectory(disk, Mounts.SnapshotsDir(root), kind, w, owner);
    if prep.err.None? {
      PlacedStages(root, owner, view, prep.disk, prep.td, kind, key, parent, opts, w);
    }
  }

  /**
    The writable transaction of createSnapshot: it commits exactly when the
    body reaches the end, and otherwise leaves the store as it was and rolls
    back once (or not at all when it never started).
   */
  lemma TransactionStages(root: string, owner: Owner, store: MetaState, disk: Disk,
                          kind: Mounts.Kind, key: string, parent: string, opts: seq<Opt>, w: World)
    ensures var t := CreateTransaction(root, owner, store, disk, kind, key, parent, opts, w);
      t.stage != OptsFailed &&
      (t.stage == BeginFailed <==> Fault(w, BeginTx).Some?) &&
      (t.err.None? <==> t.stage == Created) && (t.err.Some? ==> t.err.value.Wrapped?) &&
      (t.path != "" <==> t.stage == RenameFailed || t.stage == CommitFailed || t.stage == Created) &&
      (t.path != "" ==> t.path == SnapshotDir(root, w.newID)) &&
      (t.stage != Created ==> t.store == store) &&
      (t.stage == Created ==> t.commitCalls == 1 && t.rollbackCalls == 0) &&
      (t.stage == CommitFailed ==> t.commitCalls == 1 && t.rollbackCalls == 1) &&
      (t.stage in {PrepareFailed, CreateFailed, SetupFailed, RenameFailed} ==> t.commitCalls == 0 && t.rollbackCalls == 1) &&
      (t.stage == BeginFailed ==> t.commitCalls == 0 && t.rollbackCalls == 0) &&
      (t.snap == NoSnapshot || (t.snap.kind == kind && t.snap.id == w.newID)) &&
      (t.stage == Created ==> Storage.CreateSnapshot(store, kind, key, parent, opts, w.newID) == Success((t.store, t.snap)))
  {
    if Fault(w, BeginTx).None? {
      BodyStages(root, owner, store, disk, kind, key, parent, opts, w);
    }
  }

  /**
    createSnapshot returns an error only after a failed option, a failed
    rename or a failed commit; a failure earlier in the transaction (the
    begin, the temporary directory, the store's own checks, the directory
    setup) is reported as success, after a rollback once the transaction
    has started.
   */
  lemma CreateErrors(root: string, owner: Owner, store: MetaState, disk: Disk,
                     kind: Mounts.Kind, key: string, parent: string, opts: seq<Opt>, w: World)
    ensures var c := CreateSpec(root, owner, store, disk, kind, key, parent, opts, w);
      (c.stage == OptsFailed <==> ApplyOpts(opts).err.Some?) &&
      (c.stage == BeginFailed <==> ApplyOpts(opts).err.None? && Fault(w, BeginTx).Some?) &&
      (c.err.Some? <==> c.stage == OptsFailed || c.stage == RenameFailed || c.stage == CommitFailed) &&
      (c.err.Some? ==> c.snap == NoSnapshot)
  {
    var c := CreateSpec(root, owner, store, disk, kind, key, parent, opts, w);
    if ApplyOpts(opts).err.None? {
      var t := CreateTransaction(root, owner, store, disk, kind, key, parent, opts, w);
      TransactionStages(root, owner, store, disk, kind, key, parent, opts, w);
      assert c.stage == t.stage;
      assert c.err.Some? <==> t.err.Some? && t.path != "";
    }
  }

  /**
    What createSnapshot hands back when it swallows a failure: the zero
    snapshot when the transaction never started, the temporary directory
    could not be made or the store refused the create; the snapshot the
    store created when the directory setup failed, although that create was
    rolled back. Either way the store is as it was.
   */
  lemma CreateSwallowedSnapshot(root: string, owner: Owner, store: MetaState, disk: Disk,
                                kind: Mounts.Kind, key: string, parent: string, opts: seq<Opt>, w: World)
    ensures var c := CreateSpec(root, owner, store, disk, kind, key, parent, opts, w);
      (c.stage in {BeginFailed, PrepareFailed, CreateFailed} ==> c.err.None? && c.snap == NoSnapshot && c.store == store) &&
      (c.stage == SetupFailed ==>
        c.err.None? && c.store == store &&
        Storage.CreateSnapshot(store, kind, key, parent, opts, w.newID).Success? &&
        c.snap == Storage.CreateSnapshot(store, kind, key, parent, opts, w.newID).value.1)
  {
    var c := CreateSpec(root, owner, store, disk, kind, key, parent, opts, w);
    if ApplyOpts(opts).err.None? {
      var t := CreateTransaction(root, owner, store, disk, kind, key, parent, opts, w);
      TransactionStages(root, owner, store, disk, kind, key, parent, opts, w);
      assert c == Concluded(ApplyOpts(opts).labels, t, w);
      assert c.stage == t.stage && c.store == t.store && (t.path == "" ==> c.snap == t.snap && c.err.None?);
      if Fault(w, BeginTx).None? {
        BodyStages(root, owner, store, disk, kind, key, parent, opts, w);
        TransactionBody(root, owner, store, disk, kind, key, parent, opts, w);
      }
    }
  }

  /**
    The store changes only when every step of createSnapshot succeeds, and
    then exactly as storage.CreateSnapshot says, in one committed
    transaction; the snapshot returned is the zero one or one of the
    requested kind with the id the store issued.
   */
  lemma CreateStore(root: string, owner: Owner, store: MetaState, disk: Disk,
                    kind: Mounts.Kind, key: string, parent: string, opts: seq<Opt>, w: World)
    ensures var c := CreateSpec(root, owner, store, disk, kind, key, parent, opts, w);
      (c.stage != Created ==> c.store == store) &&
      (c.stage == Created ==>
        Storage.CreateSnapshot(store, kind, key, parent, opts, w.newID) == Success((c.store, c.snap)) &&
        c.err.None? && c.commitCalls == 1 && c.rollbackCalls == 0) &&
      (c.snap == NoSnapshot || (c.snap.kind == kind && c.snap.id == w.newID)) &&
      c.labels == ApplyOpts(opts).labels
  {
    var c := CreateSpec(root, owner, store, disk, kind, key, parent, opts, w);
    if ApplyOpts(opts).err.None? {
      var t := CreateTransaction(root, owner, store, disk, kind, key, parent, opts, w);
      TransactionStages(root, owner, store, disk, kind, key, parent, opts, w);
      assert c.stage == t.stage && c.store == t.store;
      assert c.err.None? ==> c.snap == t.snap;
    }
  }

  // ------------------------------------------------ the directory tree

  /**
    What the body leaves on disk when it stops after the temporary directory
    exists: the store's failure and a failed setup leave the tree as it was,
    a failed rename leaves the temporary directory in place.
   */
  lemma PlacedDisk(root: string, owner: Owner, view: MetaState, disk: Disk, td: string,
                   kind: Mounts.Kind, key: string, parent: string, opts: seq<Opt>, w: World)
    requires td in disk
    ensures var p := Placed(root, owner, view, disk, td, kind, key, parent, opts, w);
      (p.stage != Created ==> p.td == td) &&
      (p.stage == CreateFailed || p.stage == SetupFailed ==> p.disk == disk) &&
      (p.stage == RenameFailed ==> td in p.disk)
  {
    match Storage.CreateSnapshot(view, kind, key, parent, opts, w.newID)
    case Failure(_) =>
    case Success(created) =>
      var setup := SetupSnapshotDirectory(disk, root, td, created.1, w, owner);
      SetupKeeps(disk, root, td, created.1, w, owner);
      if setup.err.None? {
        var moved := RenameDir(setup.disk, td, PathJoin([Mounts.SnapshotsDir(root), created.1.id]), Fault(w, Rename));
        assert moved.err.Some? ==> moved.disk == setup.disk;
      }
  }

  /**
    setupSnapshotDirectory only adds or updates directories: a path present
    before is present after, and a failed setup changes nothing.
   */
  lemma SetupKeeps(disk: Disk, root: string, td: string, s: Mounts.Snapshot, w: World, owner: Owner)
    ensures var r := SetupSnapshotDirectory(disk, root, td, s, w, owner);
      (r.err.Some? ==> r.disk == disk) && disk.Keys <= r.disk.Keys
  {
  }

  /**
    The temporary directory after a failed body: a failure right after
    os.MkdirTemp leaves it behind (the deferred cleanup is not registered
    yet), a failed setup leaves it behind (its error never reaches the outer
    `err`), and a failed store create or rename removes it unless the
    removal fails.
   */
  lemma BodyDisk(root: string, owner: Owner, view: MetaState, disk: Disk,
                 kind: Mounts.Kind, key: string, parent: string, opts: seq<Opt>, w: World)
    ensures var b := StagedBody(root, owner, view, disk, kind, key, parent, opts, w);
      var td := TempDir(root, w);
      (b.stage == PrepareFailed && Fault(w, MkdirTemp).Some? ==> b.disk == disk) &&
      (b.stage == PrepareFailed && Fault(w, MkdirTemp).None? ==> td in b.disk) &&
      (b.stage == SetupFailed ==> td in b.disk) &&
      (b.stage == CreateFailed || b.stage == RenameFailed ==> (td !in b.disk <==> Fault(w, RemoveTemp).None?))
  {
    var prep := PrepareDirectory(disk, Mounts.SnapshotsDir(root), kind, w, owner);
    if prep.err.None? {
      TempDirNonEmpty(root, w);
      PlacedStages(root, owner, view, prep.disk, prep.td, kind, key, parent, opts, w);
      PlacedDisk(root, owner, view, prep.disk, prep.td, kind, key, parent, opts, w);
      var p := Placed(root, owner, view, prep.disk, prep.td, kind, key, parent, opts, w);
      var b := StagedBody(root, owner, view, disk, kind, key, parent, opts, w);
      assert b.stage == p.stage;
    }
  }

  /** The transaction of createSnapshot leaves the tree its body leaves (see BodyDisk). */
  lemma TransactionDisk(root: string, owner: Owner, store: MetaState, disk: Disk,
                        kind: Mounts.Kind, key: string, parent: string, opts: seq<Opt>, w: World)
    ensures var t := CreateTransaction(root, owner, store, disk, kind, key, parent, opts, w);
      var td := TempDir(root, w);
      (t.stage == BeginFailed ==> t.disk == disk) &&
      (t.stage == PrepareFailed && Fault(w, MkdirTemp).Some? ==> t.disk == disk) &&
      (t.stage == PrepareFailed && Fault(w, MkdirTemp).None? ==> td in t.disk) &&
      (t.stage == SetupFailed ==> td in t.disk) &&
      (t.stage == CreateFailed || t.stage == RenameFailed ==> (td !in t.disk <==> Fault(w, RemoveTemp).None?))
  {
    if Fault(w, BeginTx).None? {
      BodyStages(root, owner, store, disk, kind, key, parent, opts, w);
      BodyDisk(root, owner, store, disk, kind, key, parent, opts, w);
    }
  }

  /**
    Before os.MkdirTemp succeeds, createSnapshot leaves the tree alone: when
    the options or the transaction fail, or os.MkdirTemp itself does.
   */
  lemma CreateKeepsTree(root: string, owner: Owner, store: MetaState, disk: Disk,
                        kind: Mounts.Kind, key: string, parent: string, opts: seq<Opt>, w: World)
    ensures var c := CreateSpec(root, owner, store, disk, kind, key, parent, opts, w);
      (c.stage == OptsFailed || c.stage == BeginFailed ==> c.disk == disk) &&
      (c.stage == PrepareFailed && Fault(w, MkdirTemp).Some? ==> c.disk == disk)
  {
    if ApplyOpts(opts).err.None? {
      TransactionStages(root, owner, store, disk, kind, key, parent, opts, w);
      TransactionDisk(root, owner, store, disk, kind, key, parent, opts, w);
      var t := CreateTransaction(root, owner, store, disk, kind, key, parent, opts, w);
      var c := Concluded(ApplyOpts(opts).labels, t, w);
      assert CreateSpec(root, owner, store, disk, kind, key, parent, opts, w) == c;
      assert c.stage == t.stage && (t.path == "" ==> c.disk == t.disk);
    }
  }

  /**
    What createSnapshot leaves under `<root>/snapshots` when it stops after
    os.MkdirTemp and before the rename: the temporary directory stays after a
    failure right after os.MkdirTemp and after a failed setup, and is removed
    after a failed store create unless the removal fails.
   */
  lemma CreateLeavesTemp(root: string, owner: Owner, store: MetaState, disk: Disk,
                         kind: Mounts.Kind, key: string, parent: string, opts: seq<Opt>, w: World)
    ensures var c := CreateSpec(root, owner, store, disk, kind, key, parent, opts, w);
      var td := TempDir(root, w);
      (c.stage == PrepareFailed && Fault(w, MkdirTemp).None? ==> td in c.disk) &&
      (c.stage == SetupFailed ==> td in c.disk) &&
      (c.stage == CreateFailed ==> (td !in c.disk <==> Fault(w, RemoveTemp).None?))
  {
    if ApplyOpts(opts).err.None? {
      TransactionStages(root, owner, store, disk, kind, key, parent, opts, w);
      TransactionDisk(root, owner, store, disk, kind, key, parent, opts, w);
      var t := CreateTransaction(root, owner, store, disk, kind, key, parent, opts, w);
      var c := Concluded(ApplyOpts(opts).labels, t, w);
      assert CreateSpec(root, owner, store, disk, kind, key, parent, opts, w) == c;
      assert c.stage == t.stage && (t.path == "" ==> c.disk == t.disk);
    }
  }

  /**
    After a failed rename or a failed commit, createSnapshot reclaims the
    final path `<root>/snapshots/<id>` unless that removal fails; after a
    failed rename the temporary directory is gone too unless its own removal
    failed.
   */
  lemma CreateReclaims(root: string, owner: Owner, store: MetaState, disk: Disk,
                       kind: Mounts.Kind, key: string, parent: string, opts: seq<Opt>, w: World)
    ensures var c := CreateSpec(root, owner, store, disk, kind, key, parent, opts, w);
      (c.stage == RenameFailed && Fault(w, RemoveTemp).None? ==> TempDir(root, w) !in c.disk) &&
      (c.stage == RenameFailed || c.stage == CommitFailed ==>
        c.err.Some? && (Fault(w, RemovePath).None? ==> SnapshotDir(root, w.newID) !in c.disk))
  {
    if ApplyOpts(opts).err.None? {
      TransactionStages(root, owner, store, disk, kind, key, parent, opts, w);
      TransactionDisk(root, owner, store, disk, kind, key, parent, opts, w);
      var t := CreateTransaction(root, owner, store, disk, kind, key, parent, opts, w);
      assert CreateSpec(root, owner, store, disk, kind, key, parent, opts, w) == Concluded(ApplyOpts(opts).labels, t, w);
    }
  }

  /**
    The error of a reclaimed createSnapshot: the transaction's error, with
    the reclaim's own failure chained in front exactly when that removal
    failed.
   */
  lemma CreateReclaimError(root: string, owner: Owner, store: MetaState, disk: Disk,
                           kind: Mounts.Kind, key: string, parent: string, opts: seq<Opt>, w: World)
    ensures var c := CreateSpec(root, owner, store, disk, kind, key, parent, opts, w);
      c.stage == RenameFailed || c.stage == CommitFailed ==>
        c.err.Some? && (c.err.value.Chained? <==> Fault(w, RemovePath).Some?) &&
        ClassOf(c.err.value) == ClassOf(CreateTransaction(root, owner, store, disk, kind, key, parent, opts, w).err.value)
  {
    if ApplyOpts(opts).err.None? {
      TransactionStages(root, owner, store, disk, kind, key, parent, opts, w);
      var t := CreateTransaction(root, owner, store, disk, kind, key, parent, opts, w);
      assert CreateSpec(root, owner, store, disk, kind, key, parent, opts, w) == Concluded(ApplyOpts(opts).labels, t, w);
      ConcludedReclaim(ApplyOpts(opts).labels, t, w);
    }
  }

  /**
    Reclaiming keeps the stage and the class of the transaction's error, and
    chains the removal's error in front exactly when the removal fails.
   */
  lemma ConcludedReclaim(labels: map<string, string>, t: StagedTx, w: World)
    ensures var c := Concluded(labels, t, w);
      c.stage == t.stage &&
      (t.err.Some? && t.path != "" && !t.err.value.Chained? ==>
        c.err.Some? && (c.err.value.Chained? <==> Fault(w, RemovePath).Some?) &&
        ClassOf(c.err.value) == ClassOf(t.err.value))
  {
  }

  /**
    A placed snapshot ends up at `<root>/snapshots/<id>` with the staged
    directory's contents; its `fs` takes the owner of the first parent's
    `fs` when that exists, and keeps its own owner otherwise.
   */
  lemma PlacedLayout(root: string, owner: Owner, view: MetaState, disk: Disk, td: string,
                     kind: Mounts.Kind, key: string, parent: string, opts: seq<Opt>, w: World)
    requires td in disk && disk[td].fs.Some?
    ensures var p := Placed(root, owner, view, disk, td, kind, key, parent, opts, w);
      var dir := SnapshotDir(root, w.newID);
      p.stage == Created ==>
        dir in p.disk && p.disk[dir].work == disk[td].work && p.disk[dir].fs.Some? &&
        (td != dir ==> td !in p.disk) &&
        (p.snap.parentIDs == [] ==> p.disk[dir] == disk[td]) &&
        (p.snap.parentIDs != [] ==>
          var pd := SnapshotDir(root, p.snap.parentIDs[0]);
          var present := pd in disk && disk[pd].fs.Some?;
          (present && Fault(w, StatParent).None? ==> p.disk[dir].fs == disk[pd].fs) &&
          (!present ==> p.disk[dir] == disk[td]))
  {
    match Storage.CreateSnapshot(view, kind, key, parent, opts, w.newID)
    case Failure(_) =>
    case Success(created) =>
      Storage.CreateSnapshotEffect(view, kind, key, parent, opts, w.newID);
      var s := created.1;
      var setup := SetupSnapshotDirectory(disk, root, td, s, w, owner);
      if setup.err.None? {
        SetupOwnership(disk, root, td, s, w, owner);
      }
  }

  /**
    setupSnapshotDirectory on success: without parents nothing changes; with
    a parent whose `fs` exists, the staged `fs` takes its owner; with one
    whose `fs` is missing (or whose stat reports it missing), that `fs` is
    created with the snapshotter's owner and the staged directory keeps its
    own.
   */
  lemma SetupOwnership(disk: Disk, root: string, td: string, s: Mounts.Snapshot, w: World, owner: Owner)
    requires td in disk && disk[td].fs.Some?
    ensures var r := SetupSnapshotDirectory(disk, root, td, s, w, owner);
      r.err.None? ==>
        td in r.disk && r.disk[td].work == disk[td].work && r.disk[td].fs.Some? &&
        (s.parentIDs == [] ==> r.disk == disk) &&
        (s.parentIDs != [] ==>
          var pd := SnapshotDir(root, s.parentIDs[0]);
          var present := pd in disk && disk[pd].fs.Some?;
          (present && Fault(w, StatParent).None? ==> r.disk == disk[td := disk[td].(fs := disk[pd].fs)]) &&
          (!present || Fault(w, StatParent).Some? ==>
            r.disk == disk[pd := Dir(Some(owner), pd in disk && disk[pd].work)] && (pd != td ==> r.disk[td] == disk[td])))
  {
  }

  /**
    A body that reaches the end leaves the snapshot at `<root>/snapshots/<id>`
    with `fs`, and `work` exactly for an Active snapshot, and no temporary
    directory; `fs` belongs to the snapshotter's owner unless the first
    parent's `fs` exists, whose owner it then takes.
   */
  lemma BodyLayout(root: string, owner: Owner, view: MetaState, disk: Disk,
                   kind: Mounts.Kind, key: string, parent: string, opts: seq<Opt>, w: World)
    ensures var b := StagedBody(root, owner, view, disk, kind, key, parent, opts, w);
      var dir := SnapshotDir(root, w.newID);
      var td := TempDir(root, w);
      b.stage == Created ==>
        dir in b.disk && b.disk[dir].fs.Some? && (b.disk[dir].work <==> kind == Mounts.Active) &&
        (td != dir ==> td !in b.disk) &&
        (b.snap.parentIDs == [] ==> b.disk[dir].fs == Some(owner)) &&
        (b.snap.parentIDs != [] && SnapshotDir(root, b.snap.parentIDs[0]) != td ==>
          var pd := SnapshotDir(root, b.snap.parentIDs[0]);
          var present := pd in disk && disk[pd].fs.Some?;
          (present && Fault(w, StatParent).None? ==> b.disk[dir].fs == disk[pd].fs) &&
          (!present ==> b.disk[dir].fs == Some(owner)))
  {
    var prep := PrepareDirectory(disk, Mounts.SnapshotsDir(root), kind, w, owner);
    if prep.err.None? {
      PlacedStages(root, owner, view, prep.disk, prep.td, kind, key, parent, opts, w);
      PlacedLayout(root, owner, view, prep.disk, prep.td, kind, key, parent, opts, w);
    }
  }

  /** A started transaction leaves the tree, the snapshot and `path` its body leaves. */
  lemma TransactionBody(root: string, owner: Owner, store: MetaState, disk: Disk,
                        kind: Mounts.Kind, key: string, parent: string, opts: seq<Opt>, w: World)
    requires Fault(w, BeginTx).None?
    ensures var t := CreateTransaction(root, owner, store, disk, kind, key, parent, opts, w);
      var b := StagedBody(root, owner, store, disk, kind, key, parent, opts, w);
      t.disk == b.disk && t.snap == b.snap && t.path == b.path &&
      (t.stage == Created <==> b.stage == Created && Fault(w, CommitTx).None?) &&
      (b.stage != Created ==> t.stage == b.stage)
  {
    BodyStages(root, owner, store, disk, kind, key, parent, opts, w);
  }

  /** createSnapshot that succeeds in full leaves the layout BodyLayout describes. */
  lemma CreateLayout(root: string, owner: Owner, store: MetaState, disk: Disk,
                     kind: Mounts.Kind, key: string, parent: string, opts: seq<Opt>, w: World)
    ensures var c := CreateSpec(root, owner, store, disk, kind, key, parent, opts, w);
      var dir := SnapshotDir(root, w.newID);
      var td := TempDir(root, w);
      c.stage == Created ==>
        dir in c.disk && c.disk[dir].fs.Some? && (c.disk[dir].work <==> kind == Mounts.Active) &&
        (td != dir ==> td !in c.disk) &&
        (c.snap.parentIDs == [] ==> c.disk[dir].fs == Some(owner)) &&
        (c.snap.parentIDs != [] && SnapshotDir(root, c.snap.parentIDs[0]) != td ==>
          var pd := SnapshotDir(root, c.snap.parentIDs[0]);
          var present := pd in disk && disk[pd].fs.Some?;
          (present && Fault(w, StatParent).None? ==> c.disk[dir].fs == disk[pd].fs) &&
          (!present ==> c.disk[dir].fs == Some(owner)))
  {
    if ApplyOpts(opts).err.None? && Fault(w, BeginTx).None? {
      TransactionStages(root, owner, store, disk, kind, key, parent, opts, w);
      TransactionBody(root, owner, store, disk, kind, key, parent, opts, w);
      BodyLayout(root, owner, store, disk, kind, key, parent, opts, w);
    }
  }

  /**
    Preparing a key the store already holds fails inside storage.CreateSnapshot,
    and createSnapshot then reports success with the zero snapshot: nothing
    is created, nothing is committed, and the caller gets no error.
   */
  lemma CreateSwallowsDuplicateKey(root: string, owner: Owner, store: MetaState, disk: Disk,
                                   kind: Mounts.Kind, key: string, parent: string, opts: seq<Opt>, w: World)
    requires key in store && ApplyOpts(opts).err.None?
    requires Fault(w, BeginTx).None? && Fault(w, MkdirTemp).None? && Fault(w, MkdirFs).None?
    requires kind == Mounts.Active ==> Fault(w, MkdirWork).None?
    ensures var c := CreateSpec(root, owner, store, disk, kind, key, parent, opts, w);
      c.stage == CreateFailed && c.err.None? && c.snap == NoSnapshot && c.store == store &&
      c.labels == ApplyOpts(opts).labels && c.commitCalls == 0 && c.rollbackCalls == 1
  {
    Storage.CreateSnapshotEffect(store, kind, key, parent, opts, w.newID);
    TransactionStages(root, owner, store, disk, kind, key, parent, opts, w);
    BodyStages(root, owner, store, disk, kind, key, parent, opts, w);
    TransactionBody(root, owner, store, disk, kind, key, parent, opts, w);
  }

  /**
    The empty key fares the same way: once the parent checks pass, the store
    cannot create a bucket without a name, and createSnapshot swallows that
    failure too, so the caller gets the zero snapshot and no error, and the
    store keeps no record under "".
   */
  lemma CreateSwallowsEmptyKey(root: string, owner: Owner, store: MetaState, disk: Disk,
                               kind: Mounts.Kind, parent: string, opts: seq<Opt>, w: World)
    requires parent != "" ==> parent in store && store[parent].kind == Mounts.Committed
    requires ApplyOpts(opts).err.None?
    requires Fault(w, BeginTx).None? && Fault(w, MkdirTemp).None? && Fault(w, MkdirFs).None?
    requires kind == Mounts.Active ==> Fault(w, MkdirWork).None?
    ensures var c := CreateSpec(root, owner, store, disk, kind, "", parent, opts, w);
      c.stage == CreateFailed && c.err.None? && c.snap == NoSnapshot && c.store == store &&
      c.commitCalls == 0 && c.rollbackCalls == 1
  {
    Storage.CreateSnapshotEffect(store, kind, "", parent, opts, w.newID);
    TransactionStages(root, owner, store, disk, kind, "", parent, opts, w);
    BodyStages(root, owner, store, disk, kind, "", parent, opts, w);
    TransactionBody(root, owner, store, disk, kind, "", parent, opts, w);
  }

  // ------------------------------------------------------ Commit and Usage

  /**
    Commit succeeds exactly when its transaction starts and commits, the key
    names an Active snapshot, its usage can be measured, the options apply
    and the new name is non-empty and free; it then moves the record to the
    new name as a Committed snapshot with the measured usage and the options'
    labels, and otherwise leaves the store as it was.
   */
  lemma CommitEffect(store: MetaState, name: string, key: string, opts: seq<Opt>, w: World)
    ensures var t := CommitRun(store, name, key, opts, w);
      (t.err.None? <==>
        Fault(w, BeginTx).None? && key in store && Fault(w, DiskUsage).None? && ApplyOpts(opts).err.None? &&
        store[key].kind == Mounts.Active && name != "" && name !in store && Fault(w, CommitTx).None?) &&
      (t.err.None? ==>
        t.store == (store - {key})[name := store[key].(kind := Mounts.Committed, usage := w.usage, labels := ApplyOpts(opts).labels)] &&
        t.commitCalls == 1 && t.rollbackCalls == 0) &&
      (t.err.Some? ==> t.store == store)
  {
    Storage.CommitActiveEffect(store, key, name, w.usage, opts);
    RunEffect(store, true, CommitBody(store, name, key, opts, w), w);
  }

  /**
    Commit's errors keep the class the store gives them: a missing key, then
    (once the usage is measured) an empty name, which is no AlreadyExists, or
    an existing name, whatever the key holds, and only then a snapshot that
    is not Active.
   */
  lemma CommitErrors(store: MetaState, name: string, key: string, opts: seq<Opt>, w: World)
    ensures var t := CommitRun(store, name, key, opts, w);
      (Fault(w, BeginTx).None? && key !in store ==> t.err.Some? && ClassOf(t.err.value) == NotFound) &&
      (Fault(w, BeginTx).None? && key in store && Fault(w, DiskUsage).None? && ApplyOpts(opts).err.None? ==>
        (name == "" ==> t.err.Some? && ClassOf(t.err.value) == Plain) &&
        (name != "" && name in store ==> t.err.Some? && IsAlreadyExists(t.err.value)) &&
        (name != "" && name !in store && store[key].kind != Mounts.Active ==> t.err.Some? && ClassOf(t.err.value) == FailedPrecondition))
  {
  }

  /**
    Usage answers from the store for a committed or view snapshot and
    measures the upper directory of an Active one; it fails only when the
    lookup or the measurement fails.
   */
  lemma UsageSource(store: MetaState, key: string, fInfo: Option<Error>, w: World)
    ensures var r := UsageSpec(store, key, fInfo, w);
      (r.Success? <==> fInfo.None? && key in store && (store[key].kind == Mounts.Active ==> Fault(w, DiskUsage).None?)) &&
      (r.Success? && store[key].kind == Mounts.Active ==> r.value == w.usage) &&
      (r.Success? && store[key].kind != Mounts.Active ==> r.value == store[key].usage) &&
      (fInfo.None? && key !in store ==> ClassOf(r.error) == NotFound)
  {
  }

  /**
    After a successful Commit the new name reports, from the store, the
    usage measured at commit time, and the old key is gone.
   */
  lemma CommitThenUsage(store: MetaState, name: string, key: string, opts: seq<Opt>, w: World, later: World)
    ensures var t := CommitRun(store, name, key, opts, w);
      t.err.None? ==>
        UsageSpec(t.store, name, None, later) == Success(w.usage) &&
        (key != name ==> LookupInfo(t.store, key, None).err.Some?)
  {
    CommitEffect(store, name, key, opts, w);
  }

  // ---------------------------------------------------------------- Mounts

  /**
    Mounts fails exactly when one of its lookups fails: the key's info, its
    snapshot (which only an Active or a View snapshot has), or, for an Active
    snapshot with a parent in guest-pull mode, the parent's info. A Committed
    snapshot is refused with FailedPrecondition.
   */
  lemma MountsErrors(root: string, store: MetaState, key: string, f1: Option<Error>, f2: Option<Error>, f3: Option<Error>)
    ensures var a := MountsSpec(root, store, key, f1, f2, f3);
      a.result.Success? <==>
        f1.None? && f2.None? && key in store && store[key].kind in {Mounts.Active, Mounts.View} &&
        (Mounts.IsGuestPullMode(store[key].labels) && store[key].kind == Mounts.Active && store[key].parent != "" ==>
          f3.None? && store[key].parent in store)
    ensures var a := MountsSpec(root, store, key, f1, f2, f3);
      f1.None? && f2.None? && key in store && store[key].kind !in {Mounts.Active, Mounts.View} ==>
        a.result.Failure? && ClassOf(a.result.error) == FailedPrecondition
  {
    var a := MountsSpec(root, store, key, f1, f2, f3);
    if f1.None? && f2.None? && key in store && store[key].kind in {Mounts.Active, Mounts.View} {
      var at := MountsAnchor(store, store[key], f3);
      assert a.result.Success? <==> at.result.Success?;
    }
  }

  /**
    Mounts answers only for an Active or a View snapshot, and guest-pull mode
    changes the mount of a View only: an Active snapshot gets the plain
    overlay mount over its parent chain, and a View in guest-pull mode stacks
    its own `fs` directory as its single lower directory.
   */
  lemma MountsGuestModeOnlyViews(root: string, store: MetaState, key: string, f1: Option<Error>, f2: Option<Error>, f3: Option<Error>)
    ensures var a := MountsSpec(root, store, key, f1, f2, f3);
      a.result.Success? ==>
        key in store && store[key].kind in {Mounts.Active, Mounts.View} &&
        var snap := SnapshotOf(store[key]);
        (store[key].kind == Mounts.Active || !Mounts.IsGuestPullMode(store[key].labels) ==>
          a.result.value == Mounts.ComposedMount(root, snap, "", false)) &&
        (store[key].kind == Mounts.View && Mounts.IsGuestPullMode(store[key].labels) ==>
          a.result.value == Mounts.ComposedMount(root, snap, store[key].id, true) &&
          a.result.value[0].options[0] == "lowerdir=" + Mounts.UpperPath(root, store[key].id))
  {
    var a := MountsSpec(root, store, key, f1, f2, f3);
    if a.result.Success? {
      var rec := store[key];
      var snap := SnapshotOf(rec);
      var at := MountsAnchor(store, rec, f3);
      assert a.result.value == Mounts.ComposedMount(root, snap, at.result.value.id, at.result.value.flag);
      if rec.kind != Mounts.View {
        Mounts.AnchorIrrelevant(root, snap, at.result.value.id, at.result.value.flag, "", false);
      } else if Mounts.IsGuestPullMode(rec.labels) {
        Mounts.LowerChain(root, snap, rec.id, true);
        Mounts.LowerOption(root, snap, rec.id, true);
      }
    }
  }

  // ------------------------------------------------------------------ View

  /** View looks the parent up first: without it nothing is created and the error is NotFound. */
  lemma ViewNeedsParent(root: string, owner: Owner, store: MetaState, disk: Disk,
                        key: string, parent: string, opts: seq<Opt>, fInfo: Option<Error>, w: World)
    ensures var o := ViewSpec(root, owner, store, disk, key, parent, opts, fInfo, w);
      (fInfo.Some? || parent !in store ==>
        o.result.Failure? && o.store == store && o.disk == disk && o.commitCalls == 0) &&
      (fInfo.None? && parent !in store ==> ClassOf(o.result.error) == NotFound)
  {
  }

  /** A View answers with the mount composed over its parent exactly when the lookup and the creation succeed. */
  lemma ViewResult(root: string, owner: Owner, store: MetaState, disk: Disk,
                   key: string, parent: string, opts: seq<Opt>, fInfo: Option<Error>, w: World)
    ensures var o := ViewSpec(root, owner, store, disk, key, parent, opts, fInfo, w);
      var c := CreateSpec(root, owner, store, disk, Mounts.View, key, parent, opts, w);
      var p := LookupInfo(store, parent, fInfo);
      (o.result.Success? <==> p.err.None? && c.err.None?) &&
      (o.result.Success? ==> o.result.value == Mounts.ComposedMount(root, c.snap, p.rec.id, true) && o.store == c.store)
  {
  }

  /**
    View of a key the store already holds (the parent stored, options that
    apply, no fault before the store create) succeeds without creating
    anything: the swallowed AlreadyExists leaves the zero snapshot, which is
    mounted over `<root>/snapshots` instead of the parent's `fs`.
   */
  lemma ViewDuplicateKey(root: string, owner: Owner, store: MetaState, disk: Disk,
                         key: string, parent: string, opts: seq<Opt>, w: World)
    requires key in store && parent in store && ApplyOpts(opts).err.None?
    requires Fault(w, BeginTx).None? && Fault(w, MkdirTemp).None? && Fault(w, MkdirFs).None?
    ensures var o := ViewSpec(root, owner, store, disk, key, parent, opts, None, w);
      o.result == Success(Mounts.ComposedMount(root, NoSnapshot, store[parent].id, true)) && o.store == store &&
      Mounts.LowerDirs(root, NoSnapshot, store[parent].id, true) == [Mounts.SnapshotsDir(root)]
  {
    CreateSwallowsDuplicateKey(root, owner, store, disk, Mounts.View, key, parent, opts, w);
    ViewResult(root, owner, store, disk, key, parent, opts, None, w);
  }

  /**
    A View that is created is stored as a View under its key and mounted over
    its parent's `fs` alone, whatever the parent's own chain.
   */
  lemma ViewAnchor(root: string, owner: Owner, store: MetaState, disk: Disk,
                   key: string, parent: string, opts: seq<Opt>, fInfo: Option<Error>, w: World)
    ensures var o := ViewSpec(root, owner, store, disk, key, parent, opts, fInfo, w);
      var c := CreateSpec(root, owner, store, disk, Mounts.View, key, parent, opts, w);
      o.result.Success? && c.stage == Created ==>
        parent in store && key in o.store && o.store[key].kind == Mounts.View &&
        o.result.value[0].options[0] == "lowerdir=" + Mounts.UpperPath(root, store[parent].id)
  {
    var o := ViewSpec(root, owner, store, disk, key, parent, opts, fInfo, w);
    var c := CreateSpec(root, owner, store, disk, Mounts.View, key, parent, opts, w);
    CreateStore(root, owner, store, disk, Mounts.View, key, parent, opts, w);
    ViewResult(root, owner, store, disk, key, parent, opts, fInfo, w);
    if o.result.Success? && c.stage == Created {
      Storage.CreateSnapshotEffect(store, Mounts.View, key, parent, opts, w.newID);
      var id := LookupInfo(store, parent, fInfo).rec.id;
      Mounts.LowerChain(root, c.snap, id, true);
      Mounts.LowerOption(root, c.snap, id, true);
    }
  }

  // --------------------------------------------------------------- Prepare

  /**
    The remote-snapshot check of Prepare: it answers AlreadyExists exactly
    when committing to the target succeeds or finds the target taken, and
    returns no mounts and no error otherwise; a successful commit leaves the
    target Committed with the options' labels and the guest-pull label.
   */
  lemma PrepareRefCommit(store: MetaState, key: string, opts: seq<Opt>, labels: map<string, string>, commit: World)
    requires TargetSnapshotLabel in labels
    ensures var target := labels[TargetSnapshotLabel];
      var labels' := labels[Mounts.GuestPullLabel := "true"];
      var t := CommitRun(store, target, key, opts + [WithLabels(labels')], commit);
      var n := TargetCommit(store, key, opts, labels, commit);
      (n.result.Failure? <==> t.err.None? || IsAlreadyExists(t.err.value)) &&
      (n.result.Failure? ==> IsAlreadyExists(n.result.error)) &&
      (n.result.Success? ==> n.result.value == []) &&
      n.store == t.store &&
      (t.err.None? ==>
        key in store && key !in n.store && target in n.store && n.store[target].kind == Mounts.Committed &&
        n.store[target].labels == ApplyOpts(opts).labels + labels' &&
        Mounts.IsGuestPullMode(n.store[target].labels))
  {
    var target := labels[TargetSnapshotLabel];
    var labels' := labels[Mounts.GuestPullLabel := "true"];
    CommitEffect(store, target, key, opts + [WithLabels(labels')], commit);
    ApplyOptsAppend(opts, labels');
  }

  /**
    An empty ref label names no target the store can create: the commit fails
    with its own error, which is no AlreadyExists, so Prepare returns no
    mounts and no error and the key stays as it was.
   */
  lemma PrepareRefEmptyTarget(store: MetaState, key: string, opts: seq<Opt>, labels: map<string, string>, commit: World)
    requires TargetSnapshotLabel in labels && labels[TargetSnapshotLabel] == ""
    requires key in store && ApplyOpts(opts).err.None?
    requires Fault(commit, BeginTx).None? && Fault(commit, DiskUsage).None?
    ensures var n := TargetCommit(store, key, opts, labels, commit);
      n.result == Success([]) && n.store == store
  {
    var labels' := labels[Mounts.GuestPullLabel := "true"];
    ApplyOptsAppend(opts, labels');
    CommitErrors(store, "", key, opts + [WithLabels(labels')], commit);
    PrepareRefCommit(store, key, opts, labels, commit);
    CommitEffect(store, "", key, opts + [WithLabels(labels')], commit);
  }

  /**
    The anchor Prepare looks up: outside guest-pull mode none; in it, the id
    of the key just created, so the lookup fails only when its transaction
    does not start or the key is missing.
   */
  lemma PrepareAnchorChoice(store: MetaState, key: string, parent: string, labels: map<string, string>, fInfo: Option<Error>)
    ensures var a := PrepareAnchor(store, key, parent, labels, fInfo);
      (a.result.Failure? <==> Mounts.IsGuestPullMode(labels) && (fInfo.Some? || key !in store)) &&
      (a.result.Success? && !Mounts.IsGuestPullMode(labels) ==> a.result.value == Anchor("", false) && a.readCalls == 0) &&
      (a.result.Success? && Mounts.IsGuestPullMode(labels) ==> a.result.value == Anchor(store[key].id, true) && a.readCalls == 1)
  {
  }

  /**
    Whatever anchor Prepare chooses, the mount of a snapshot that is not a
    View is the plain overlay mount: the guest-pull lookup of Prepare never
    changes what an Active snapshot mounts.
   */
  lemma PrepareMountIgnoresAnchor(root: string, store: MetaState, key: string, parent: string,
                                  labels: map<string, string>, snap: Mounts.Snapshot, fInfo: Option<Error>)
    requires snap.kind != Mounts.View
    ensures var m := MountAt(root, snap, PrepareAnchor(store, key, parent, labels, fInfo));
      m.result.Success? ==> m.result.value == Mounts.ComposedMount(root, snap, "", false)
  {
    var a := PrepareAnchor(store, key, parent, labels, fInfo);
    if a.result.Success? {
      Mounts.AnchorIrrelevant(root, snap, a.result.value.id, a.result.value.flag, "", false);
    }
  }

  /**
    Prepare without a ref label, once createSnapshot has returned a snapshot
    that is not a View (CreateStore: the zero snapshot or an Active one),
    returns the plain overlay mount of that snapshot and leaves the store
    alone.
   */
  lemma PreparePlainMount(root: string, store: MetaState, key: string, parent: string, opts: seq<Opt>,
                          labels: map<string, string>, snap: Mounts.Snapshot, commit: World, fInfo: Option<Error>)
    requires snap.kind != Mounts.View
    ensures var n := PrepareCreated(root, store, key, parent, opts, labels, snap, commit, fInfo);
      TargetSnapshotLabel !in labels && n.result.Success? ==>
        n.result.value == Mounts.ComposedMount(root, snap, "", false) && n.store == store && n.commitCalls == 0
  {
    if TargetSnapshotLabel !in labels {
      PrepareMountIgnoresAnchor(root, store, key, parent, labels, snap, fInfo);
    }
  }

  /**
    Prepare for a key the store already holds (options that apply and carry
    no ref label, no fault before the store create, and a lookup that
    starts) returns, with no error, a mount of the zero snapshot: its single
    lower directory is `<root>/snapshots` itself.
   */
  lemma PrepareDuplicateKey(root: string, owner: Owner, store: MetaState, disk: Disk,
                            key: string, parent: string, opts: seq<Opt>, create: World, commit: World)
    requires key in store && ApplyOpts(opts).err.None? && TargetSnapshotLabel !in ApplyOpts(opts).labels
    requires Fault(create, BeginTx).None? && Fault(create, MkdirTemp).None? && Fault(create, MkdirFs).None? &&
             Fault(create, MkdirWork).None?
    ensures var c := CreateSpec(root, owner, store, disk, Mounts.Active, key, parent, opts, create);
      var n := PrepareCreated(root, c.store, key, parent, opts, c.labels, c.snap, commit, None);
      c.err.None? && n.result == Success(Mounts.ComposedMount(root, NoSnapshot, "", false)) && n.store == store &&
      Mounts.LowerDirs(root, NoSnapshot, "", false) == [Mounts.SnapshotsDir(root)]
  {
    CreateSwallowsDuplicateKey(root, owner, store, disk, Mounts.Active, key, parent, opts, create);
    var c := CreateSpec(root, owner, store, disk, Mounts.Active, key, parent, opts, create);
    PrepareAnchorChoice(store, key, parent, c.labels, None);
    assert TargetSnapshotLabel !in c.labels;
    PreparePlainMount(root, store, key, parent, opts, c.labels, NoSnapshot, commit, None);
  }
}
