/**
  The metadata store the snapshotter runs its transactions against. The store
  itself lives in containerd; what it does here is the contract the
  snapshotter relies on, over a map from snapshot key to record: lookups fail
  with NotFound, creation checks the parent and the key, and committing turns
  an Active record into a Committed one under a new key.
 */
module Storage {
  import opened Wrappers
  import opened Errors
  import Mounts

  /** snapshots.Usage */
  datatype Usage = Usage(size: int, inodes: int)

  /** What the store keeps per key: the internal id, snapshots.Info and the usage. */
  datatype Record = Record(
    id: string, kind: Mounts.Kind, parent: string, parentIDs: seq<string>,
    labels: map<string, string>, usage: Usage)

  type MetaState = map<string, Record>

  const NoRecord := Record("", Mounts.Unknown, "", [], map[], Usage(0, 0))
  const NoSnapshot := Mounts.Snapshot("", Mounts.Unknown, [])

  /** A snapshots.Opt: WithLabels adds its labels to the info; any other option may fail. */
  datatype Opt = WithLabels(labels: map<string, string>) | Rejecting(err: Error)

  datatype Applied = Applied(labels: map<string, string>, err: Option<Error>)

  /** The labels the options leave on an empty info, stopping at the first that fails. */
  function ApplyOpts(opts: seq<Opt>): (r: Applied)
    ensures r.err.None? <==> forall i :: 0 <= i < |opts| ==> opts[i].WithLabels?
  {
    ApplyFrom(map[], opts)
  }

  function ApplyFrom(labels: map<string, string>, opts: seq<Opt>): (r: Applied)
    ensures r.err.None? <==> forall i :: 0 <= i < |opts| ==> opts[i].WithLabels?
    decreases |opts|
  {
    if |opts| == 0 then Applied(labels, None)
    else match opts[0]
      case WithLabels(more) => ApplyFrom(labels + more, opts[1..])
      case Rejecting(e) => Applied(labels, Some(e))
  }

  /** One more WithLabels option at the end merges its labels over what the others left, unless they failed. */
  lemma {:induction false} ApplyFromAppend(labels: map<string, string>, opts: seq<Opt>, more: map<string, string>)
    ensures var r := ApplyFrom(labels, opts);
      ApplyFrom(labels, opts + [WithLabels(more)]) == if r.err.None? then Applied(r.labels + more, None) else r
    decreases |opts|
  {
    if |opts| == 0 {
      assert opts + [WithLabels(more)] == [WithLabels(more)];
      assert [WithLabels(more)][1..] == [];
    } else {
      assert (opts + [WithLabels(more)])[0] == opts[0];
      assert (opts + [WithLabels(more)])[1..] == opts[1..] + [WithLabels(more)];
      match opts[0]
      case WithLabels(first) => ApplyFromAppend(labels + first, opts[1..], more);
      case Rejecting(_) =>
    }
  }

  lemma ApplyOptsAppend(opts: seq<Opt>, more: map<string, string>)
    ensures var r := ApplyOpts(opts);
      ApplyOpts(opts + [WithLabels(more)]) == if r.err.None? then Applied(r.labels + more, None) else r
  {
    ApplyFromAppend(map[], opts, more);
  }

  /** storage.Snapshot for a record. */
  function SnapshotOf(r: Record): Mounts.Snapshot
  {
    Mounts.Snapshot(r.id, r.kind, r.parentIDs)
  }

  const ErrNotFound := Leaf(NotFound, "snapshot does not exist")
  const ErrExists := Leaf(AlreadyExists, "snapshot already exists")
  const ErrParentNotCommitted := Leaf(InvalidArgument, "parent is not committed snapshot")
  const ErrNotActive := Leaf(FailedPrecondition, "snapshot is not active")
  const ErrNotActiveOrView := Leaf(FailedPrecondition, "snapshot is not active or view")
  /** bbolt's ErrBucketNameRequired: a bucket cannot be created under the empty name. */
  const ErrNameRequired := Leaf(Plain, "bucket name required")

  /** storage.GetInfo */
  function GetInfo(ms: MetaState, key: string): (r: Result<Record, Error>)
    ensures r.Success? <==> key in ms
    ensures r.Success? ==> r.value == ms[key]
    ensures r.Failure? ==> ClassOf(r.error) == NotFound
  {
    if key in ms then Success(ms[key]) else Failure(ErrNotFound)
  }

  /** storage.GetSnapshot: only an Active or a View record has mounts. */
  function GetSnapshot(ms: MetaState, key: string): (r: Result<Mounts.Snapshot, Error>)
    ensures r.Success? <==> key in ms && ms[key].kind in {Mounts.Active, Mounts.View}
    ensures r.Success? ==> r.value == SnapshotOf(ms[key])
    ensures r.Failure? && key !in ms ==> ClassOf(r.error) == NotFound
    ensures r.Failure? && key in ms ==> ClassOf(r.error) == FailedPrecondition
  {
    if key !in ms then Failure(ErrNotFound)
    else if ms[key].kind != Mounts.Active && ms[key].kind != Mounts.View then Failure(ErrNotActiveOrView)
    else Success(SnapshotOf(ms[key]))
  }

  /**
    storage.CreateSnapshot: the options are applied first, the parent must
    exist (NotFound) and be a Committed record (InvalidArgument), and the key
    must be non-empty (the bucket it is stored in needs a name) and new
    (AlreadyExists). The new record's ParentIDs
    are the parent's id followed by the parent's own chain; `newID` is the id
    the store issues.
   */
  function CreateSnapshot(ms: MetaState, kind: Mounts.Kind, key: string, parent: string, opts: seq<Opt>, newID: string)
    : (r: Result<(MetaState, Mounts.Snapshot), Error>)
  {
    var applied := ApplyOpts(opts);
    if applied.err.Some? then Failure(applied.err.value)
    else if parent != "" && parent !in ms then Failure(ErrNotFound)
    else if parent != "" && ms[parent].kind != Mounts.Committed then Failure(ErrParentNotCommitted)
    else if key == "" then Failure(ErrNameRequired)
    else if key in ms then Failure(ErrExists)
    else
      var chain := if parent == "" then [] else [ms[parent].id] + ms[parent].parentIDs;
      var rec := Record(newID, kind, parent, chain, applied.labels, Usage(0, 0));
      Success((ms[key := rec], SnapshotOf(rec)))
  }

  /**
    storage.CommitActive: the Active record under `key` moves to `name` as a
    Committed record with the given usage and the options' labels. The new
    name is claimed before the key is looked up, so an empty name (a bucket
    needs one) and a taken name (AlreadyExists) are reported whatever `key`
    holds.
   */
  function CommitActive(ms: MetaState, key: string, name: string, usage: Usage, opts: seq<Opt>): (r: Result<MetaState, Error>)
  {
    var applied := ApplyOpts(opts);
    if applied.err.Some? then Failure(applied.err.value)
    else if name == "" then Failure(ErrNameRequired)
    else if name in ms then Failure(ErrExists)
    else if key !in ms then Failure(ErrNotFound)
    else if ms[key].kind != Mounts.Active then Failure(ErrNotActive)
    else
      var a := ms[key];
      Success((ms - {key})[name := Record(a.id, Mounts.Committed, a.parent, a.parentIDs, applied.labels, usage)])
  }

  /** A new record extends its parent's chain and is stored under its key; nothing else changes. */
  lemma CreateSnapshotEffect(ms: MetaState, kind: Mounts.Kind, key: string, parent: string, opts: seq<Opt>, newID: string)
    ensures var r := CreateSnapshot(ms, kind, key, parent, opts, newID);
      r.Success? <==>
        ApplyOpts(opts).err.None? && key != "" && key !in ms &&
        (parent != "" ==> parent in ms && ms[parent].kind == Mounts.Committed)
    ensures var r := CreateSnapshot(ms, kind, key, parent, opts, newID);
      r.Success? ==>
        var (ms', s) := r.value;
        ms'.Keys == ms.Keys + {key} && ms'[key].kind == kind && ms'[key].id == newID &&
        (forall k :: k in ms && k != key ==> ms'[k] == ms[k]) &&
        s == Mounts.Snapshot(newID, kind, ms'[key].parentIDs) &&
        (parent == "" ==> s.parentIDs == []) &&
        (parent != "" ==> s.parentIDs == [ms[parent].id] + ms[parent].parentIDs)
  {
  }

  /** Each way a create with valid options fails, in the order the store checks them, and its class. */
  lemma CreateSnapshotErrors(ms: MetaState, kind: Mounts.Kind, key: string, parent: string, opts: seq<Opt>, newID: string)
    requires ApplyOpts(opts).err.None?
    ensures var r := CreateSnapshot(ms, kind, key, parent, opts, newID);
      (parent != "" && parent !in ms ==> r.Failure? && ClassOf(r.error) == NotFound) &&
      (parent != "" && parent in ms && ms[parent].kind != Mounts.Committed ==>
        r.Failure? && ClassOf(r.error) == InvalidArgument) &&
      ((parent == "" || (parent in ms && ms[parent].kind == Mounts.Committed)) && key == "" ==>
        r.Failure? && ClassOf(r.error) == Plain) &&
      ((parent == "" || (parent in ms && ms[parent].kind == Mounts.Committed)) && key != "" && key in ms ==>
        r.Failure? && ClassOf(r.error) == AlreadyExists)
  {
  }

  /** Each way a commit with valid options fails, in the order the store checks them, and its class. */
  lemma CommitActiveErrors(ms: MetaState, key: string, name: string, usage: Usage, opts: seq<Opt>)
    requires ApplyOpts(opts).err.None?
    ensures var r := CommitActive(ms, key, name, usage, opts);
      (name == "" ==> r.Failure? && ClassOf(r.error) == Plain) &&
      (name != "" && name in ms ==> r.Failure? && ClassOf(r.error) == AlreadyExists) &&
      (name != "" && name !in ms && key !in ms ==> r.Failure? && ClassOf(r.error) == NotFound) &&
      (name != "" && name !in ms && key in ms && ms[key].kind != Mounts.Active ==>
        r.Failure? && ClassOf(r.error) == FailedPrecondition)
  {
  }

  /** Committing keeps the id, the parent and the chain, and takes the usage it is given. */
  lemma CommitActiveEffect(ms: MetaState, key: string, name: string, usage: Usage, opts: seq<Opt>)
    ensures var r := CommitActive(ms, key, name, usage, opts);
      r.Success? <==> ApplyOpts(opts).err.None? && key in ms && ms[key].kind == Mounts.Active && name != "" && name !in ms
    ensures var r := CommitActive(ms, key, name, usage, opts);
      r.Success? ==>
        key !in r.value && name in r.value &&
        r.value[name] == ms[key].(kind := Mounts.Committed, usage := usage, labels := ApplyOpts(opts).labels)
  {
  }
}
