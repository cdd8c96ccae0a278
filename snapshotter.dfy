/**
  The snapshotter's lifecycle: its transactions over the metadata store, the
  snapshot directories it stages and renames under `<root>/snapshots`, and
  the operations containerd calls (Prepare, View, Mounts, Commit, Usage).

  What the operating system and the store decide is given to each operation
  as a `World`: which external calls fail and with what error, the name
  os.MkdirTemp picks, the id the store issues, and the usage fs.DiskUsage
  measures.
 */
module Snapshotter {
  import opened Wrappers
  import opened Strings
  import opened Errors
  import opened Storage
  import Mounts

  const TargetSnapshotLabel := "containerd.io/snapshot.ref"

  // --------------------------------------------------------------- world

  /** The external calls that can fail. */
  datatype Step =
    | BeginTx | CommitTx | MkdirTemp | MkdirFs | MkdirWork | StatParent
    | MkdirParent | Lchown | Rename | RemoveTemp | RemovePath | DiskUsage

  datatype World = World(faults: map<Step, Error>, tempName: string, newID: string, usage: Usage)

  function Fault(w: World, step: Step): Option<Error>
  {
    if step in w.faults then Some(w.faults[step]) else None
  }

  /** The owner of a directory, as os.Stat reports and os.Lchown sets it. */
  datatype Owner = Owner(uid: nat, gid: nat)

  /** A snapshot directory: its `fs` subdirectory (with its owner) and whether `work` exists. */
  datatype Dir = Dir(fs: Option<Owner>, work: bool)

  /** The directories under `<root>/snapshots`, by path. */
  type Disk = map<string, Dir>

  // -------------------------------------------------------- transactions

  datatype Tx = Closed | Open(writable: bool, view: MetaState)

  datatype TxOutcome = TxOutcome(err: Option<Error>, commitCalls: nat, rollbackCalls: nat)

  /** What withTransaction does once its body has run, given the body's error and the commit's. */
  function FinishOutcome(writable: bool, bodyErr: Option<Error>, commitFault: Option<Error>): TxOutcome
  {
    if bodyErr.Some? then TxOutcome(bodyErr, 0, 1)
    else if !writable then TxOutcome(None, 0, 1)
    else if commitFault.Some? then TxOutcome(Some(Wrapped("failed to commit transaction", commitFault.value)), 1, 1)
    else TxOutcome(None, 1, 0)
  }

  /** True when the transaction's writes were committed. */
  predicate Committed(o: TxOutcome)
  {
    o.commitCalls == 1 && o.err.None?
  }

  /**
    Every transaction ends exactly one way: committed (writable, body and
    commit succeed) or rolled back exactly once. A body error is returned
    unchanged without a commit; a failed commit is still rolled back and its
    error keeps its class.
   */
  lemma TransactionDiscipline(writable: bool, bodyErr: Option<Error>, commitFault: Option<Error>)
    ensures var o := FinishOutcome(writable, bodyErr, commitFault);
      o.commitCalls <= 1 && o.rollbackCalls <= 1 &&
      (Committed(o) <==> writable && bodyErr.None? && commitFault.None?) &&
      (Committed(o) <==> o.rollbackCalls == 0) &&
      (o.err.None? <==> bodyErr.None? && (writable ==> commitFault.None?)) &&
      (bodyErr.Some? ==> o.err == bodyErr && o.commitCalls == 0) &&
      (!writable ==> o.commitCalls == 0) &&
      (bodyErr.None? && writable && commitFault.Some? ==>
        o.commitCalls == 1 && ClassOf(o.err.value) == ClassOf(commitFault.value))
  {
  }

  datatype TxRun = TxRun(err: Option<Error>, store: MetaState, commitCalls: nat, rollbackCalls: nat)

  /** A whole transaction whose body computes `body` from the store (a new store, or an error). */
  function Run(store: MetaState, writable: bool, body: Result<MetaState, Error>, w: World): TxRun
  {
    if Fault(w, BeginTx).Some? then TxRun(Some(Wrapped("failed to start transaction", Fault(w, BeginTx).value)), store, 0, 0)
    else
      var o := FinishOutcome(writable, if body.Failure? then Some(body.error) else None, Fault(w, CommitTx));
      TxRun(o.err, if Committed(o) then body.value else store, o.commitCalls, o.rollbackCalls)
  }

  /** The store changes only through a committed transaction, and then to what the body computed. */
  lemma RunEffect(store: MetaState, writable: bool, body: Result<MetaState, Error>, w: World)
    ensures var t := Run(store, writable, body, w);
      (t.err.None? <==> Fault(w, BeginTx).None? && body.Success? && (writable ==> Fault(w, CommitTx).None?)) &&
      (t.err.None? && writable ==> t.store == body.value && t.commitCalls == 1 && t.rollbackCalls == 0) &&
      (t.err.Some? || !writable ==> t.store == store)
  {
  }

  // ------------------------------------------------- reading the store

  datatype InfoResult = InfoResult(rec: Record, err: Option<Error>)

  /** getSnapshotInfo: a read-only transaction around storage.GetInfo; zero values on error. */
  function LookupInfo(store: MetaState, key: string, beginFault: Option<Error>): (r: InfoResult)
    ensures r.err.None? <==> beginFault.None? && key in store
    ensures r.err.None? ==> r.rec == store[key]
    ensures r.err.Some? ==> r.rec == NoRecord
  {
    if beginFault.Some? then InfoResult(NoRecord, Some(Wrapped("failed to start transaction", beginFault.value)))
    else match GetInfo(store, key)
      case Failure(e) => InfoResult(NoRecord, Some(Wrapped("failed to get info for " + key, e)))
      case Success(rec) => InfoResult(rec, None)
  }

  /** getSnapshot: a read-only transaction around storage.GetSnapshot. */
  function LookupSnapshot(store: MetaState, key: string, beginFault: Option<Error>): (r: Result<Mounts.Snapshot, Error>)
    ensures r.Success? <==> beginFault.None? && key in store && store[key].kind in {Mounts.Active, Mounts.View}
    ensures r.Success? ==> r.value == SnapshotOf(store[key])
    ensures r.Failure? && beginFault.None? && key in store ==> ClassOf(r.error) == FailedPrecondition
  {
    if beginFault.Some? then Failure(Wrapped("failed to start transaction", beginFault.value))
    else match GetSnapshot(store, key)
      case Failure(e) => Failure(Wrapped("failed to get snapshot for " + key, e))
      case Success(s) => Success(s)
  }

  /** A read-only transaction rolls back once when it started, and never commits. */
  function ReadRollbacks(beginFault: Option<Error>): nat
  {
    if beginFault.Some? then 0 else 1
  }

  // -------------------------------------------------- snapshot directories

  datatype Prepared = Prepared(td: string, err: Option<Error>, disk: Disk)

  /**
    prepareDirectory: a `new-*` directory under `snapshotDir` holding `fs`,
    and `work` for an Active snapshot. A failure after the temporary
    directory exists returns its path with the error.
   */
  function PrepareDirectory(disk: Disk, snapshotDir: string, kind: Mounts.Kind, w: World, owner: Owner): (r: Prepared)
    ensures r.err.None? <==>
      Fault(w, MkdirTemp).None? && Fault(w, MkdirFs).None? && (kind == Mounts.Active ==> Fault(w, MkdirWork).None?)
    ensures Fault(w, MkdirTemp).Some? ==> r.td == "" && r.disk == disk
    ensures Fault(w, MkdirTemp).None? ==> r.td in r.disk && r.disk.Keys == disk.Keys + {r.td}
    ensures r.err.None? ==> r.disk[r.td] == Dir(Some(owner), kind == Mounts.Active)
  {
    var td := PathJoin([snapshotDir, "new-" + w.tempName]);
    if Fault(w, MkdirTemp).Some? then Prepared("", Some(Wrapped("failed to create temporary directory", Fault(w, MkdirTemp).value)), disk)
    else if Fault(w, MkdirFs).Some? then Prepared(td, Some(Wrapped("failed to create fs directory", Fault(w, MkdirFs).value)), disk[td := Dir(None, false)])
    else if kind == Mounts.Active && Fault(w, MkdirWork).Some? then
      Prepared(td, Some(Wrapped("failed to create work directory", Fault(w, MkdirWork).value)), disk[td := Dir(Some(owner), false)])
    else Prepared(td, None, disk[td := Dir(Some(owner), kind == Mounts.Active)])
  }

  /** The snapshot directory `<root>/snapshots/<id>` that holds `fs` and `work`. */
  function SnapshotDir(root: string, id: string): string
  {
    PathJoin([Mounts.SnapshotsDir(root), id])
  }

  datatype SetupResult = SetupResult(err: Option<Error>, disk: Disk)

  /**
    setupSnapshotDirectory: with parents, the staged `fs` takes the owner of
    the first parent's `fs`; when that directory does not exist it is created
    instead. A stat error other than not-existing is wrapped; the mkdir and
    chown errors are returned as they are.
   */
  function SetupSnapshotDirectory(disk: Disk, root: string, td: string, s: Mounts.Snapshot, w: World, owner: Owner): (r: SetupResult)
    ensures |s.parentIDs| == 0 ==> r.err.None? && r.disk == disk
    ensures r.err.None? && |s.parentIDs| > 0 ==>
      var parentDir := SnapshotDir(root, s.parentIDs[0]);
      parentDir in r.disk && r.disk[parentDir].fs.Some?
    ensures r.err.None? && |s.parentIDs| > 0 && Fault(w, StatParent).None? ==>
      var parentDir := SnapshotDir(root, s.parentIDs[0]);
      parentDir in disk && disk[parentDir].fs.Some? ==> td in r.disk && r.disk[td].fs == disk[parentDir].fs
  {
    if |s.parentIDs| == 0 then SetupResult(None, disk)
    else
      var parentDir := SnapshotDir(root, s.parentIDs[0]);
      var present := parentDir in disk && disk[parentDir].fs.Some?;
      var statErr :=
        if Fault(w, StatParent).Some? then Fault(w, StatParent)
        else if present then None
        else Some(Leaf(NotExist, "stat " + Mounts.UpperPath(root, s.parentIDs[0]) + ": no such file or directory"));
      if statErr.Some? then
        if ClassOf(statErr.value) != NotExist then SetupResult(Some(Wrapped("failed to stat parent", statErr.value)), disk)
        else if Fault(w, MkdirParent).Some? then SetupResult(Fault(w, MkdirParent), disk)
        else
          var work := parentDir in disk && disk[parentDir].work;
          SetupResult(None, disk[parentDir := Dir(Some(owner), work)])
      else if Fault(w, Lchown).Some? then SetupResult(Fault(w, Lchown), disk)
      else if td !in disk then SetupResult(Some(Leaf(NotExist, "lchown " + td + "/fs: no such file or directory")), disk)
      else SetupResult(None, disk[td := disk[td].(fs := disk[parentDir].fs)])
  }

  /** cleanupSnapshotDirectory: os.RemoveAll, with its error wrapped. */
  function Cleanup(disk: Disk, dir: string, fault: Option<Error>): (r: SetupResult)
    ensures fault.None? ==> r.err.None? && dir !in r.disk && forall p :: p in disk && p != dir ==> p in r.disk && r.disk[p] == disk[p]
    ensures fault.Some? ==> r.err.Some? && r.disk == disk
  {
    if fault.Some? then SetupResult(Some(Wrapped("failed to remove directory \"" + dir + "\"", fault.value)), disk)
    else SetupResult(None, disk - {dir})
  }

  /** os.Rename of a staged directory onto its final path. */
  function RenameDir(disk: Disk, from: string, to: string, fault: Option<Error>): SetupResult
  {
    if fault.Some? then SetupResult(fault, disk)
    else if from !in disk then SetupResult(Some(Leaf(NotExist, "rename " + from + ": no such file or directory")), disk)
    else SetupResult(None, (disk - {from})[to := disk[from]])
  }

  // ------------------------------------------------------ createSnapshot

  /** Where createSnapshot stopped. */
  datatype Stage =
    | OptsFailed | BeginFailed | PrepareFailed | CreateFailed | SetupFailed
    | RenameFailed | CommitFailed | Created

  /** What the transaction body of createSnapshot leaves: its error, the transaction's view, `s`, the tree and `path`. */
  datatype Staged = Staged(err: Option<Error>, view: MetaState, snap: Mounts.Snapshot, disk: Disk, path: string, stage: Stage)

  /** The temporary directory os.MkdirTemp creates under `<root>/snapshots`. */
  function TempDir(root: string, w: World): string
  {
    PathJoin([Mounts.SnapshotsDir(root), "new-" + w.tempName])
  }

  /**
    The body createSnapshot runs inside its transaction: stage the
    directory, then place it (see Placed), then the deferred cleanup, which
    removes the temporary directory when the outer `err` is set and the
    rename has not consumed it.
   */
  function StagedBody(root: string, owner: Owner, view: MetaState, disk: Disk,
                      kind: Mounts.Kind, key: string, parent: string, opts: seq<Opt>, w: World): Staged
  {
    var prep := PrepareDirectory(disk, Mounts.SnapshotsDir(root), kind, w, owner);
    if prep.err.Some? then
      Staged(Some(Wrapped("failed to prepare snapshot directory", prep.err.value)), view, NoSnapshot, prep.disk, "", PrepareFailed)
    else
      var p := Placed(root, owner, view, prep.disk, prep.td, kind, key, parent, opts, w);
      var disk' := if p.outer.Some? && p.td != "" then Cleanup(p.disk, p.td, Fault(w, RemoveTemp)).disk else p.disk;
      Staged(p.err, p.view, p.snap, disk', p.path, p.stage)
  }

  /**
    The body after the temporary directory `td` exists: the body's error,
    what the outer `err` holds, the view, `s`, the tree, what `td` and
    `path` hold, and the stage reached.
   */
  datatype Placement = Placement(
    err: Option<Error>, outer: Option<Error>, view: MetaState, snap: Mounts.Snapshot,
    disk: Disk, td: string, path: string, stage: Stage)

  /**
    The store create, the directory setup and the rename. The create and the
    rename assign the outer `err`; setup's error goes to a variable of its
    own, so after a failed setup the outer `err` is still nil.
   */
  function Placed(root: string, owner: Owner, view: MetaState, disk: Disk, td: string,
                  kind: Mounts.Kind, key: string, parent: string, opts: seq<Opt>, w: World): Placement
  {
    match Storage.CreateSnapshot(view, kind, key, parent, opts, w.newID)
    case Failure(e) =>
      Placement(Some(Wrapped("failed to create snapshot in metadata store", e)), Some(e), view, NoSnapshot, disk, td, "", CreateFailed)
    case Success(created) =>
      var s := created.1;
      var setup := SetupSnapshotDirectory(disk, root, td, s, w, owner);
      if setup.err.Some? then
        Placement(Some(Wrapped("failed to setup snapshot directory", setup.err.value)), None, created.0, s, setup.disk, td, "", SetupFailed)
      else
        var path := PathJoin([Mounts.SnapshotsDir(root), s.id]);
        var moved := RenameDir(setup.disk, td, path, Fault(w, Rename));
        if moved.err.Some? then
          Placement(Some(Wrapped("failed to rename snapshot directory", moved.err.value)), moved.err, created.0, s, moved.disk, td, path, RenameFailed)
        else Placement(None, None, created.0, s, moved.disk, "", path, Created)
  }

  datatype Creation = Creation(
    labels: map<string, string>, snap: Mounts.Snapshot, err: Option<Error>,
    store: MetaState, disk: Disk, commitCalls: nat, rollbackCalls: nat, stage: Stage)

  /** The error createSnapshot returns after reclaiming `path`: the cleanup's error, if any, chained in front. */
  function Reclaimed(err: Error, cleanup: Option<Error>): Error
  {
    if cleanup.Some? then Chained(cleanup.value, err) else err
  }

  /** What `err = o.withTransaction(ctx, true, body)` leaves in createSnapshot. */
  datatype StagedTx = StagedTx(
    err: Option<Error>, store: MetaState, snap: Mounts.Snapshot, disk: Disk, path: string,
    commitCalls: nat, rollbackCalls: nat, stage: Stage)

  /** createSnapshot's writable transaction around StagedBody. */
  function CreateTransaction(root: string, owner: Owner, store: MetaState, disk: Disk,
                             kind: Mounts.Kind, key: string, parent: string, opts: seq<Opt>, w: World): StagedTx
  {
    if Fault(w, BeginTx).Some? then
      StagedTx(Some(Wrapped("failed to start transaction", Fault(w, BeginTx).value)), store, NoSnapshot, disk, "", 0, 0, BeginFailed)
    else
      var b := StagedBody(root, owner, store, disk, kind, key, parent, opts, w);
      var o := FinishOutcome(true, b.err, Fault(w, CommitTx));
      StagedTx(o.err, if Committed(o) then b.view else store, b.snap, b.disk, b.path, o.commitCalls, o.rollbackCalls,
               if b.err.None? && o.err.Some? then CommitFailed else b.stage)
  }

  /**
    createSnapshot as the source behaves: the options are applied to an empty
    info, the body runs in a writable transaction, and its error is returned
    only when `path` is set (a failed rename or a failed commit), after
    removing that path. Every earlier failure is rolled back and then
    reported as success with whatever `s` holds.
   */
  function CreateSpec(root: string, owner: Owner, store: MetaState, disk: Disk,
                      kind: Mounts.Kind, key: string, parent: string, opts: seq<Opt>, w: World): Creation
  {
    var applied := ApplyOpts(opts);
    if applied.err.Some? then
      Creation(applied.labels, NoSnapshot, Some(Wrapped("failed to apply option", applied.err.value)), store, disk, 0, 0, OptsFailed)
    else Concluded(applied.labels, CreateTransaction(root, owner, store, disk, kind, key, parent, opts, w), w)
  }

  /** What createSnapshot does after its transaction `t`: reclaim `path` and fail, or succeed with `s`. */
  function Concluded(labels: map<string, string>, t: StagedTx, w: World): Creation
  {
    if t.err.Some? && t.path != "" then
      var reclaim := Cleanup(t.disk, t.path, Fault(w, RemovePath));
      Creation(labels, NoSnapshot, Some(Reclaimed(t.err.value, reclaim.err)), t.store, reclaim.disk,
               t.commitCalls, t.rollbackCalls, t.stage)
    else
      Creation(labels, t.snap, None, t.store, t.disk, t.commitCalls, t.rollbackCalls, t.stage)
  }

  // ---------------------------------------------------------- operations

  /** errdefs.ErrAlreadyExists */
  const ErrAlreadyExists := Leaf(AlreadyExists, "already exists")

  /** The result of an operation that may write, with the state it leaves and its transaction counts. */
  datatype Outcome<T> = Outcome(result: Result<T, Error>, store: MetaState, disk: Disk, commitCalls: nat, rollbackCalls: nat)

  /** The result of what an operation does after creating its snapshot, which leaves the directories alone. */
  datatype Effect<T> = Effect(result: Result<T, Error>, store: MetaState, commitCalls: nat, rollbackCalls: nat)

  /** The result of an operation that only reads, with the number of read transactions it rolled back. */
  datatype Answer<T> = Answer(result: Result<T, Error>, readCalls: nat)

  /** Commit's body: look the key up, measure its upper directory, and move it with storage.CommitActive. */
  function CommitBody(view: MetaState, name: string, key: string, opts: seq<Opt>, w: World): Result<MetaState, Error>
  {
    match GetInfo(view, key)
    case Failure(e) => Failure(Wrapped("failed to get snapshot info", e))
    case Success(_) =>
      if Fault(w, DiskUsage).Some? then Failure(Wrapped("failed to calculate disk usage", Fault(w, DiskUsage).value))
      else match CommitActive(view, key, name, w.usage, opts)
        case Failure(e) => Failure(Wrapped("commit active snapshot " + key, e))
        case Success(next) => Success(next)
  }

  /** Commit: its body in a writable transaction. */
  function CommitRun(store: MetaState, name: string, key: string, opts: seq<Opt>, w: World): TxRun
  {
    Run(store, true, CommitBody(store, name, key, opts, w), w)
  }

  /** Usage: the stored usage, except that an Active snapshot is measured on disk. */
  function UsageSpec(store: MetaState, key: string, fInfo: Option<Error>, w: World): Result<Usage, Error>
  {
    var info := LookupInfo(store, key, fInfo);
    if info.err.Some? then Failure(Wrapped("failed to get snapshot info", info.err.value))
    else if info.rec.kind == Mounts.Active then
      if Fault(w, DiskUsage).Some? then Failure(Wrapped("failed to calculate disk usage", Fault(w, DiskUsage).value))
      else Success(w.usage)
    else Success(info.rec.usage)
  }

  /**
    Mounts: the snapshot's info and record, then the mount composed at the
    anchor MountsAnchor chooses; `f1`, `f2` and `f3` are the begin faults of its read
    transactions.
   */
  function MountsSpec(root: string, store: MetaState, key: string, f1: Option<Error>, f2: Option<Error>, f3: Option<Error>)
    : Answer<seq<Mounts.Mount>>
  {
    var info := LookupInfo(store, key, f1);
    if info.err.Some? then Answer(Failure(Wrapped("failed to get snapshot info for \"" + key + "\"", info.err.value)), ReadRollbacks(f1))
    else match LookupSnapshot(store, key, f2)
      case Failure(e) => Answer(Failure(Wrapped("failed to get snapshot " + key, e)), ReadRollbacks(f1) + ReadRollbacks(f2))
      case Success(snap) =>
        var m := MountAt(root, snap, MountsAnchor(store, info.rec, f3));
        Answer(m.result, ReadRollbacks(f1) + ReadRollbacks(f2) + m.readCalls)
  }

  /** The anchor id and the flag a mount is composed with. */
  datatype Anchor = Anchor(id: string, flag: bool)

  /** The composed mount at a chosen anchor, or the error of choosing it. */
  function MountAt(root: string, snap: Mounts.Snapshot, a: Answer<Anchor>): Answer<seq<Mounts.Mount>>
  {
    match a.result
    case Failure(e) => Answer(Failure(e), a.readCalls)
    case Success(at) => Answer(Success(Mounts.ComposedMount(root, snap, at.id, at.flag)), a.readCalls)
  }

  /**
    The anchor Mounts chooses for a snapshot with the info `rec`: ("", false)
    outside guest-pull mode; in guest-pull mode a View's own id, an Active
    snapshot's parent's id when it has a parent, and "" otherwise.
   */
  function MountsAnchor(store: MetaState, rec: Record, f3: Option<Error>): Answer<Anchor>
  {
    if !Mounts.IsGuestPullMode(rec.labels) then Answer(Success(Anchor("", false)), 0)
    else if rec.kind == Mounts.View then Answer(Success(Anchor(rec.id, true)), 0)
    else if rec.kind == Mounts.Active && rec.parent != "" then
      var p := LookupInfo(store, rec.parent, f3);
      if p.err.Some? then
        Answer(Failure(Wrapped("get parent snapshot info, parent key=\"" + rec.parent + "\"", p.err.value)), ReadRollbacks(f3))
      else Answer(Success(Anchor(p.rec.id, true)), ReadRollbacks(f3))
    else Answer(Success(Anchor("", true)), 0)
  }

  /** View: the parent's id is looked up first, then a View snapshot is created and mounted at that id. */
  function ViewSpec(root: string, owner: Owner, store: MetaState, disk: Disk,
                    key: string, parent: string, opts: seq<Opt>, fInfo: Option<Error>, w: World): Outcome<seq<Mounts.Mount>>
  {
    var p := LookupInfo(store, parent, fInfo);
    var lookups := ReadRollbacks(fInfo);
    if p.err.Some? then Outcome(Failure(Wrapped("get snapshot " + parent + " info", p.err.value)), store, disk, 0, lookups)
    else
      var c := CreateSpec(root, owner, store, disk, Mounts.View, key, parent, opts, w);
      if c.err.Some? then
        Outcome(Failure(Wrapped("failed to create view snapshot", c.err.value)), c.store, c.disk, c.commitCalls, lookups + c.rollbackCalls)
      else Outcome(Success(Mounts.ComposedMount(root, c.snap, p.rec.id, true)), c.store, c.disk, c.commitCalls, lookups + c.rollbackCalls)
  }

  /**
    What Prepare does once createSnapshot has succeeded with the snapshot
    `snap` and the labels `labels` its options gave: with a ref label (containerd.io/snapshot.ref), commit it to the target and
    answer AlreadyExists when that commit succeeds or finds the target
    already there, and nothing at all on any other commit error; otherwise
    the composed mount, anchored in guest-pull mode at the id the key now
    has. The disk is not touched, so the result's `disk` is unused.
   */
  function PrepareCreated(root: string, store: MetaState, key: string, parent: string, opts: seq<Opt>,
                          labels: map<string, string>, snap: Mounts.Snapshot, commit: World, fInfo: Option<Error>)
    : Effect<seq<Mounts.Mount>>
  {
    if TargetSnapshotLabel in labels then TargetCommit(store, key, opts, labels, commit)
    else
      var m := MountAt(root, snap, PrepareAnchor(store, key, parent, labels, fInfo));
      Effect(m.result, store, 0, m.readCalls)
  }

  /**
    The remote-snapshot check of Prepare: the new Active snapshot is committed
    under the target name with the guest-pull label added; when that commit
    succeeds, or fails because the target exists, Prepare reports
    AlreadyExists for the target, and otherwise it returns no mounts.
   */
  function TargetCommit(store: MetaState, key: string, opts: seq<Opt>, labels: map<string, string>, commit: World)
    : Effect<seq<Mounts.Mount>>
    requires TargetSnapshotLabel in labels
  {
    var target := labels[TargetSnapshotLabel];
    var t := CommitRun(store, target, key, opts + [WithLabels(labels[Mounts.GuestPullLabel := "true"])], commit);
    var result := if t.err.None? || IsAlreadyExists(t.err.value) then Failure(Wrapped("target snapshot \"" + target + "\"", ErrAlreadyExists)) else Success([]);
    Effect(result, t.store, t.commitCalls, t.rollbackCalls)
  }

  /** The anchor Prepare chooses: ("", false) outside guest-pull mode, else the id its own key now has. */
  function PrepareAnchor(store: MetaState, key: string, parent: string, labels: map<string, string>, fInfo: Option<Error>): Answer<Anchor>
  {
    if !Mounts.IsGuestPullMode(labels) then Answer(Success(Anchor("", false)), 0)
    else
      var info := LookupInfo(store, key, fInfo);
      if info.err.Some? then
        Answer(Failure(Wrapped("failed to get parent snapshot info, parent key=\"" + parent + "\"", info.err.value)), ReadRollbacks(fInfo))
      else Answer(Success(Anchor(info.rec.id, true)), ReadRollbacks(fInfo))
  }

  // ---------------------------------------------------------- the class

  class Snapshotter {
    const root: string
    /** The uid and gid the snapshotter process runs as; new directories get them. */
    const owner: Owner
    var store: MetaState
    var disk: Disk
    var tx: Tx
    ghost var commits: nat
    ghost var rollbacks: nat

    /** Between operations no transaction is open, and the root was accepted. */
    predicate Valid()
      reads this
    {
      root != "" && tx == Closed
    }

    constructor (root: string, owner: Owner, store: MetaState, disk: Disk)
      requires root != ""
      ensures Valid()
      ensures this.root == root && this.owner == owner && this.store == store && this.disk == disk
      ensures commits == 0 && rollbacks == 0
    {
      this.root := root;
      this.owner := owner;
      this.store := store;
      this.disk := disk;
      tx := Closed;
      commits := 0;
      rollbacks := 0;
    }

    // -------------------------------------------------- withTransaction

    /** The first half of withTransaction: start a transaction over the committed store. */
    method Begin(writable: bool, fault: Option<Error>) returns (err: Option<Error>)
      requires tx == Closed
      modifies this`tx
      ensures fault.Some? ==> err == Some(Wrapped("failed to start transaction", fault.value)) && tx == Closed
      ensures fault.None? ==> err.None? && tx == Open(writable, store)
    {
      if fault.Some? {
        return Some(Wrapped("failed to start transaction", fault.value));
      }
      tx := Open(writable, store);
      return None;
    }

    /**
      The second half of withTransaction, with its `done` flag and deferred
      rollback: commit a writable transaction whose body succeeded, roll
      back everything else once.
     */
    method Finish(bodyErr: Option<Error>, fault: Option<Error>) returns (err: Option<Error>)
      requires tx.Open?
      modifies this`tx, this`store, this`commits, this`rollbacks
      ensures var o := FinishOutcome(old(tx.writable), bodyErr, fault);
        err == o.err && tx == Closed &&
        commits == old(commits) + o.commitCalls && rollbacks == old(rollbacks) + o.rollbackCalls &&
        store == (if Committed(o) then old(tx.view) else old(store))
    {
      var done := false;
      err := None;
      if bodyErr.Some? {
        err := bodyErr;
      } else if tx.writable {
        commits := commits + 1;
        if fault.Some? {
          err := Some(Wrapped("failed to commit transaction", fault.value));
        } else {
          store := tx.view;
          done := true;
        }
      } else {
        rollbacks := rollbacks + 1;
        done := true;
      }
      if !done {
        rollbacks := rollbacks + 1;
      }
      tx := Closed;
    }

    // ----------------------------------------------------- store lookups

    /** getSnapshotInfo */
    method GetSnapshotInfo(key: string, beginFault: Option<Error>) returns (r: InfoResult)
      requires Valid()
      modifies this`tx, this`store, this`commits, this`rollbacks
      ensures Valid() && store == old(store) && r == LookupInfo(store, key, beginFault)
      ensures commits == old(commits) && rollbacks == old(rollbacks) + ReadRollbacks(beginFault)
    {
      var err := Begin(false, beginFault);
      if err.Some? {
        return InfoResult(NoRecord, err);
      }
      var rec := NoRecord;
      var bodyErr: Option<Error> := None;
      match GetInfo(tx.view, key) {
        case Failure(e) => bodyErr := Some(Wrapped("failed to get info for " + key, e));
        case Success(found) => rec := found;
      }
      err := Finish(bodyErr, None);
      return InfoResult(rec, err);
    }

    /** getSnapshot */
    method GetSnapshot(key: string, beginFault: Option<Error>) returns (r: Result<Mounts.Snapshot, Error>)
      requires Valid()
      modifies this`tx, this`store, this`commits, this`rollbacks
      ensures Valid() && store == old(store) && r == LookupSnapshot(store, key, beginFault)
      ensures commits == old(commits) && rollbacks == old(rollbacks) + ReadRollbacks(beginFault)
    {
      var err := Begin(false, beginFault);
      if err.Some? {
        return Failure(err.value);
      }
      var found := Storage.GetSnapshot(tx.view, key);
      var bodyErr := if found.Failure? then Some(Wrapped("failed to get snapshot for " + key, found.error)) else None;
      err := Finish(bodyErr, None);
      if err.Some? {
        return Failure(err.value);
      }
      return found;
    }

    // ----------------------------------------------------- createSnapshot

    /**
      The transaction body of createSnapshot, run against the open
      transaction, with its deferred cleanup of the temporary directory.
     */
    method StageSnapshot(kind: Mounts.Kind, key: string, parent: string, opts: seq<Opt>, w: World)
      returns (bodyErr: Option<Error>, s: Mounts.Snapshot, path: string)
      requires tx.Open?
      modifies this`tx, this`disk
      ensures var b := StagedBody(root, owner, old(tx.view), old(disk), kind, key, parent, opts, w);
        bodyErr == b.err && s == b.snap && path == b.path && disk == b.disk &&
        tx == Open(old(tx.writable), b.view)
    {
      var prep := PrepareDirectory(disk, Mounts.SnapshotsDir(root), kind, w, owner);
      disk := prep.disk;
      if prep.err.Some? {
        return Some(Wrapped("failed to prepare snapshot directory", prep.err.value)), NoSnapshot, "";
      }
      var err, td;
      bodyErr, err, s, td, path := PlaceSnapshot(prep.td, kind, key, parent, opts, w);
      // the deferred cleanup
      if err.Some? && td != "" {
        disk := Cleanup(disk, td, Fault(w, RemoveTemp)).disk;
      }
    }

    /** The store create, the setup and the rename of createSnapshot's body; `err` is the outer error variable. */
    method PlaceSnapshot(td0: string, kind: Mounts.Kind, key: string, parent: string, opts: seq<Opt>, w: World)
      returns (bodyErr: Option<Error>, err: Option<Error>, s: Mounts.Snapshot, td: string, path: string)
      requires tx.Open?
      modifies this`tx, this`disk
      ensures var p := Placed(root, owner, old(tx.view), old(disk), td0, kind, key, parent, opts, w);
        bodyErr == p.err && err == p.outer && s == p.snap && td == p.td && path == p.path &&
        disk == p.disk && tx == Open(old(tx.writable), p.view)
    {
      td := td0;
      path := "";
      var created := Storage.CreateSnapshot(tx.view, kind, key, parent, opts, w.newID);
      if created.Failure? {
        return Some(Wrapped("failed to create snapshot in metadata store", created.error)), Some(created.error), NoSnapshot, td, path;
      }
      tx := tx.(view := created.value.0);
      s := created.value.1;
      var setup := SetupSnapshotDirectory(disk, root, td, s, w, owner);
      disk := setup.disk;
      if setup.err.Some? {
        return Some(Wrapped("failed to setup snapshot directory", setup.err.value)), None, s, td, path;
      }
      path := PathJoin([Mounts.SnapshotsDir(root), s.id]);
      var moved := RenameDir(disk, td, path, Fault(w, Rename));
      disk := moved.disk;
      err := moved.err;
      if err.Some? {
        return Some(Wrapped("failed to rename snapshot directory", err.value)), err, s, td, path;
      }
      td := "";
      bodyErr := None;
    }

    /** The writable transaction of createSnapshot: withTransaction around StageSnapshot. */
    method CreateInTransaction(kind: Mounts.Kind, key: string, parent: string, opts: seq<Opt>, w: World)
      returns (err: Option<Error>, s: Mounts.Snapshot, path: string)
      requires Valid()
      modifies this`tx, this`store, this`disk, this`commits, this`rollbacks
      ensures Valid()
      ensures var t := CreateTransaction(root, owner, old(store), old(disk), kind, key, parent, opts, w);
        err == t.err && s == t.snap && path == t.path && store == t.store && disk == t.disk &&
        commits == old(commits) + t.commitCalls && rollbacks == old(rollbacks) + t.rollbackCalls
    {
      s, path := NoSnapshot, "";
      err := Begin(true, Fault(w, BeginTx));
      if err.None? {
        var bodyErr;
        bodyErr, s, path := StageSnapshot(kind, key, parent, opts, w);
        err := Finish(bodyErr, Fault(w, CommitTx));
      }
    }

    /** createSnapshot */
    method CreateSnapshot(kind: Mounts.Kind, key: string, parent: string, opts: seq<Opt>, w: World)
      returns (labels: map<string, string>, snap: Mounts.Snapshot, err: Option<Error>)
      requires Valid()
      modifies this`tx, this`store, this`disk, this`commits, this`rollbacks
      ensures Valid()
      ensures var c := CreateSpec(root, owner, old(store), old(disk), kind, key, parent, opts, w);
        labels == c.labels && snap == c.snap && err == c.err && store == c.store && disk == c.disk &&
        commits == old(commits) + c.commitCalls && rollbacks == old(rollbacks) + c.rollbackCalls
    {
      var applied := ApplyOptions(opts);
      labels := applied.labels;
      if applied.err.Some? {
        return labels, NoSnapshot, Some(Wrapped("failed to apply option", applied.err.value));
      }
      var s, path;
      err, s, path := CreateInTransaction(kind, key, parent, opts, w);
      if err.Some? && path != "" {
        var reclaim := Cleanup(disk, path, Fault(w, RemovePath));
        disk := reclaim.disk;
        return labels, NoSnapshot, Some(Reclaimed(err.value, reclaim.err));
      }
      return labels, s, None;
    }

    // ---------------------------------------------------------- operations

    /** Commit */
    method Commit(name: string, key: string, opts: seq<Opt>, w: World) returns (err: Option<Error>)
      requires Valid()
      modifies this`tx, this`store, this`commits, this`rollbacks
      ensures Valid()
      ensures var t := CommitRun(old(store), name, key, opts, w);
        err == t.err && store == t.store && commits == old(commits) + t.commitCalls && rollbacks == old(rollbacks) + t.rollbackCalls
    {
      err := Begin(true, Fault(w, BeginTx));
      if err.Some? {
        return;
      }
      var bodyErr: Option<Error> := None;
      match GetInfo(tx.view, key) {
        case Failure(e) =>
          bodyErr := Some(Wrapped("failed to get snapshot info", e));
        case Success(_) =>
          var du := Fault(w, DiskUsage);
          if du.Some? {
            bodyErr := Some(Wrapped("failed to calculate disk usage", du.value));
          } else {
            match CommitActive(tx.view, key, name, w.usage, opts) {
              case Failure(e) => bodyErr := Some(Wrapped("commit active snapshot " + key, e));
              case Success(next) => tx := tx.(view := next);
            }
          }
      }
      err := Finish(bodyErr, Fault(w, CommitTx));
    }

    /** Usage */
    method UsageOf(key: string, fInfo: Option<Error>, w: World) returns (r: Result<Usage, Error>)
      requires Valid()
      modifies this`tx, this`store, this`commits, this`rollbacks
      ensures Valid() && store == old(store) && commits == old(commits) && rollbacks == old(rollbacks) + ReadRollbacks(fInfo)
      ensures r == UsageSpec(old(store), key, fInfo, w)
    {
      var info := GetSnapshotInfo(key, fInfo);
      if info.err.Some? {
        return Failure(Wrapped("failed to get snapshot info", info.err.value));
      }
      var usage := info.rec.usage;
      if info.rec.kind == Mounts.Active {
        var du := Fault(w, DiskUsage);
        if du.Some? {
          return Failure(Wrapped("failed to calculate disk usage", du.value));
        }
        usage := w.usage;
      }
      return Success(usage);
    }

    /** Mounts */
    method SnapshotMounts(key: string, f1: Option<Error>, f2: Option<Error>, f3: Option<Error>) returns (r: Result<seq<Mounts.Mount>, Error>)
      requires Valid()
      modifies this`tx, this`store, this`commits, this`rollbacks
      ensures Valid() && store == old(store) && commits == old(commits)
      ensures var a := MountsSpec(root, old(store), key, f1, f2, f3);
        r == a.result && rollbacks == old(rollbacks) + a.readCalls
    {
      var info := GetSnapshotInfo(key, f1);
      if info.err.Some? {
        return Failure(Wrapped("failed to get snapshot info for \"" + key + "\"", info.err.value));
      }
      var snap := GetSnapshot(key, f2);
      if snap.Failure? {
        return Failure(Wrapped("failed to get snapshot " + key, snap.error));
      }
      r := MountSnapshot(snap.value, info.rec, f3);
    }

    /** The mount of Mounts, after both lookups. */
    method MountSnapshot(snap: Mounts.Snapshot, rec: Record, f3: Option<Error>) returns (r: Result<seq<Mounts.Mount>, Error>)
      requires Valid()
      modifies this`tx, this`store, this`commits, this`rollbacks
      ensures Valid() && store == old(store) && commits == old(commits)
      ensures var a := MountAt(root, snap, MountsAnchor(old(store), rec, f3));
        r == a.result && rollbacks == old(rollbacks) + a.readCalls
    {
      var at := ChooseMountsAnchor(rec, f3);
      if at.Failure? {
        return Failure(at.error);
      }
      var m := Mounts.MountGuestPull(root, snap, at.value.id, at.value.flag);
      return Success(m.value);
    }

    /** The switch of Mounts on guest-pull mode and the snapshot's kind. */
    method ChooseMountsAnchor(rec: Record, f3: Option<Error>) returns (r: Result<Anchor, Error>)
      requires Valid()
      modifies this`tx, this`store, this`commits, this`rollbacks
      ensures Valid() && store == old(store) && commits == old(commits)
      ensures var a := MountsAnchor(old(store), rec, f3);
        r == a.result && rollbacks == old(rollbacks) + a.readCalls
    {
      if !Mounts.IsGuestPullMode(rec.labels) {
        return Success(Anchor("", false));
      }
      var snapshotID := "";
      if rec.kind == Mounts.View {
        snapshotID := rec.id;
      } else if rec.kind == Mounts.Active && rec.parent != "" {
        var p := GetSnapshotInfo(rec.parent, f3);
        if p.err.Some? {
          return Failure(Wrapped("get parent snapshot info, parent key=\"" + rec.parent + "\"", p.err.value));
        }
        snapshotID := p.rec.id;
      }
      return Success(Anchor(snapshotID, true));
    }

    /** View */
    method View(key: string, parent: string, opts: seq<Opt>, fInfo: Option<Error>, w: World) returns (r: Result<seq<Mounts.Mount>, Error>)
      requires Valid()
      modifies this`tx, this`store, this`disk, this`commits, this`rollbacks
      ensures Valid()
      ensures var o := ViewSpec(root, owner, old(store), old(disk), key, parent, opts, fInfo, w);
        r == o.result && store == o.store && disk == o.disk &&
        commits == old(commits) + o.commitCalls && rollbacks == old(rollbacks) + o.rollbackCalls
    {
      var p := GetSnapshotInfo(parent, fInfo);
      if p.err.Some? {
        return Failure(Wrapped("get snapshot " + parent + " info", p.err.value));
      }
      var _, s, err := CreateSnapshot(Mounts.View, key, parent, opts, w);
      if err.Some? {
        return Failure(Wrapped("failed to create view snapshot", err.value));
      }
      var m := Mounts.MountGuestPull(root, s, p.rec.id, true);
      return Success(m.value);
    }

    /**
      Prepare: its own options loop, an Active snapshot from createSnapshot
      (`create` is what that transaction meets), then PrepareCreated
      (`commit` and `fInfo` are what its transactions meet).
     */
    method Prepare(key: string, parent: string, opts: seq<Opt>, create: World, commit: World, fInfo: Option<Error>)
      returns (r: Result<seq<Mounts.Mount>, Error>)
      requires Valid()
      modifies this`tx, this`store, this`disk, this`commits, this`rollbacks
      ensures ApplyOpts(opts).err.Some? ==>
        r == Failure(Wrapped("failed to apply options", ApplyOpts(opts).err.value)) &&
        store == old(store) && disk == old(disk) && commits == old(commits) && rollbacks == old(rollbacks)
      ensures var c := CreateSpec(root, owner, old(store), old(disk), Mounts.Active, key, parent, opts, create);
        ApplyOpts(opts).err.None? && c.err.Some? ==>
          r == Failure(Wrapped("failed to create snapshot", c.err.value)) && store == c.store && disk == c.disk &&
          commits == old(commits) + c.commitCalls && rollbacks == old(rollbacks) + c.rollbackCalls
      ensures var c := CreateSpec(root, owner, old(store), old(disk), Mounts.Active, key, parent, opts, create);
        var n := PrepareCreated(root, c.store, key, parent, opts, c.labels, c.snap, commit, fInfo);
        ApplyOpts(opts).err.None? && c.err.None? ==>
          r == n.result && store == n.store && disk == c.disk &&
          commits == old(commits) + c.commitCalls + n.commitCalls && rollbacks == old(rollbacks) + c.rollbackCalls + n.rollbackCalls
      ensures Valid()
    {
      var applied := ApplyOptions(opts);
      if applied.err.Some? {
        return Failure(Wrapped("failed to apply options", applied.err.value));
      }
      r := PrepareActive(key, parent, opts, create, commit, fInfo);
    }

    /** Prepare once its options have applied: createSnapshot, then PrepareCreated. */
    method PrepareActive(key: string, parent: string, opts: seq<Opt>, create: World, commit: World, fInfo: Option<Error>)
      returns (r: Result<seq<Mounts.Mount>, Error>)
      requires Valid()
      modifies this`tx, this`store, this`disk, this`commits, this`rollbacks
      ensures var c := CreateSpec(root, owner, old(store), old(disk), Mounts.Active, key, parent, opts, create);
        c.err.Some? ==>
          r == Failure(Wrapped("failed to create snapshot", c.err.value)) && store == c.store && disk == c.disk &&
          commits == old(commits) + c.commitCalls && rollbacks == old(rollbacks) + c.rollbackCalls
      ensures var c := CreateSpec(root, owner, old(store), old(disk), Mounts.Active, key, parent, opts, create);
        var n := PrepareCreated(root, c.store, key, parent, opts, c.labels, c.snap, commit, fInfo);
        c.err.None? ==>
          r == n.result && store == n.store && disk == c.disk &&
          commits == old(commits) + c.commitCalls + n.commitCalls && rollbacks == old(rollbacks) + c.rollbackCalls + n.rollbackCalls
      ensures Valid()
    {
      var labels, s, err := CreateSnapshot(Mounts.Active, key, parent, opts, create);
      if err.Some? {
        return Failure(Wrapped("failed to create snapshot", err.value));
      }
      r := UseCreated(key, parent, opts, labels, s, commit, fInfo);
    }

    /** The rest of Prepare, once the snapshot is created. */
    method UseCreated(key: string, parent: string, opts: seq<Opt>, labels: map<string, string>, s: Mounts.Snapshot,
                      commit: World, fInfo: Option<Error>)
      returns (r: Result<seq<Mounts.Mount>, Error>)
      requires Valid()
      modifies this`tx, this`store, this`commits, this`rollbacks
      ensures TargetSnapshotLabel in labels ==>
        var n := TargetCommit(old(store), key, opts, labels, commit);
        r == n.result && store == n.store && commits == old(commits) + n.commitCalls && rollbacks == old(rollbacks) + n.rollbackCalls
      ensures TargetSnapshotLabel !in labels ==>
        var m := MountAt(root, s, PrepareAnchor(old(store), key, parent, labels, fInfo));
        r == m.result && store == old(store) && commits == old(commits) && rollbacks == old(rollbacks) + m.readCalls
      ensures Valid()
    {
      if TargetSnapshotLabel in labels {
        r := CommitToTarget(key, opts, labels, commit);
        return;
      }
      var at := ChoosePrepareAnchor(key, parent, labels, fInfo);
      if at.Failure? {
        return Failure(at.error);
      }
      var m := Mounts.MountGuestPull(root, s, at.value.id, at.value.flag);
      return Success(m.value);
    }

    /** The remote-snapshot check of Prepare. */
    method CommitToTarget(key: string, opts: seq<Opt>, labels: map<string, string>, commit: World)
      returns (r: Result<seq<Mounts.Mount>, Error>)
      requires Valid() && TargetSnapshotLabel in labels
      modifies this`tx, this`store, this`commits, this`rollbacks
      ensures Valid()
      ensures var n := TargetCommit(old(store), key, opts, labels, commit);
        r == n.result && store == n.store && commits == old(commits) + n.commitCalls && rollbacks == old(rollbacks) + n.rollbackCalls
    {
      var target := labels[TargetSnapshotLabel];
      var labels' := labels[Mounts.GuestPullLabel := "true"];
      var commitErr := Commit(target, key, opts + [WithLabels(labels')], commit);
      if commitErr.None? || IsAlreadyExists(commitErr.value) {
        return Failure(Wrapped("target snapshot \"" + target + "\"", ErrAlreadyExists));
      }
      return Success([]);
    }

    /** Prepare's switch on guest-pull mode, with the lookup of its own key. */
    method ChoosePrepareAnchor(key: string, parent: string, labels: map<string, string>, fInfo: Option<Error>) returns (r: Result<Anchor, Error>)
      requires Valid()
      modifies this`tx, this`store, this`commits, this`rollbacks
      ensures Valid() && store == old(store) && commits == old(commits)
      ensures var a := PrepareAnchor(old(store), key, parent, labels, fInfo);
        r == a.result && rollbacks == old(rollbacks) + a.readCalls
    {
      if !Mounts.IsGuestPullMode(labels) {
        return Success(Anchor("", false));
      }
      var info := GetSnapshotInfo(key, fInfo);
      if info.err.Some? {
        return Failure(Wrapped("failed to get parent snapshot info, parent key=\"" + parent + "\"", info.err.value));
      }
      return Success(Anchor(info.rec.id, true));
    }
  }

  /**
    NewSnapshotter: an empty root is refused. The directories it creates and
    the metadata store it opens are given as `store` and `disk`.
   */
  method NewSnapshotter(root: string, owner: Owner, store: MetaState, disk: Disk) returns (r: Result<Snapshotter, Error>)
    ensures r.Failure? <==> root == ""
    ensures r.Failure? ==> r.error == Leaf(Plain, "root directory must be specified")
    ensures r.Success? ==>
      fresh(r.value) && r.value.Valid() && r.value.root == root && r.value.owner == owner &&
      r.value.store == store && r.value.disk == disk && r.value.commits == 0 && r.value.rollbacks == 0
  {
    if root == "" {
      return Failure(Leaf(Plain, "root directory must be specified"));
    }
    var o := new Snapshotter(root, owner, store, disk);
    return Success(o);
  }

  /** The options loop of Prepare and createSnapshot: each option is applied to an empty info in turn. */
  method ApplyOptions(opts: seq<Opt>) returns (r: Applied)
    ensures r == ApplyOpts(opts)
  {
    var labels: map<string, string> := map[];
    var i := 0;
    while i < |opts|
      invariant 0 <= i <= |opts|
      invariant ApplyFrom(labels, opts[i..]) == ApplyOpts(opts)
    {
      assert opts[i..][0] == opts[i] && opts[i..][1..] == opts[i + 1..];
      match opts[i] {
        case Rejecting(e) =>
          return Applied(labels, Some(e));
        case WithLabels(more) =>
          labels := labels + more;
      }
      i := i + 1;
    }
    return Applied(labels, None);
  }

  /** A path joined from two segments is empty only when both are. */
  lemma JoinedNonEmpty(a: string, b: string)
    requires a != "" || b != ""
    ensures PathJoin([a, b]) != ""
  {
    assert [a, b][1..] == [b];
    if a == "" {
      assert NonEmpty([a, b]) == NonEmpty([b]) == [b];
    } else if b == "" {
      assert NonEmpty([b]) == [];
      assert NonEmpty([a, b]) == [a];
    } else {
      Mounts.JoinTwo(a, b);
    }
  }

  lemma TempDirNonEmpty(root: string, w: World)
    ensures Mounts.SnapshotsDir(root) != "" && TempDir(root, w) != ""
  {
    JoinedNonEmpty(root, "snapshots");
    JoinedNonEmpty(Mounts.SnapshotsDir(root), "new-" + w.tempName);
  }
}
