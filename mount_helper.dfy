/**
  The guest-pull-overlayfs mount helper: it checks the argument vector
  containerd passes to a fuse mount helper, drops the guest-pull volume
  options, and folds the remaining options into a mount(2) flag word and a
  data string.
 */
module MountHelper {
  import opened Wrappers
  import opened Strings
  import opened Errors
  import GuestPull
  import Base64
  import Mounts

  /** The prefix of the option the snapshotter appends for the guest. */
  const KataVolumeOptionKey := "io.katacontainers.volume="

  datatype MountArgs = MountArgs(fsType: string, target: string, options: seq<string>)

  const InsufficientArgsError := Leaf(Plain, "insufficient arguments for mount")
  const EmptyTargetError := Leaf(Plain, "empty overlayfs mount target")
  const EmptyOptionsError := Leaf(Plain, "empty overlayfs mount options")

  function InvalidFsTypeError(fsType: string): Error
  {
    Leaf(Plain, "invalid filesystem type " + fsType + " for overlayfs")
  }

  // ---------------------------------------------------------- arguments

  /** The pieces that are not guest-pull volume options, in their order. */
  function KeptOptions(pieces: seq<string>): (r: seq<string>)
    ensures |r| <= |pieces|
    ensures forall i :: 0 <= i < |r| ==> !HasPrefix(r[i], KataVolumeOptionKey)
  {
    if |pieces| == 0 then []
    else if HasPrefix(pieces[|pieces| - 1], KataVolumeOptionKey) then KeptOptions(pieces[..|pieces| - 1])
    else KeptOptions(pieces[..|pieces| - 1]) + [pieces[|pieces| - 1]]
  }

  /** The options read from `-o <list>`; none unless args[2] is "-o" and args[3] is non-empty. */
  function CollectedOptions(args: seq<string>): seq<string>
  {
    if |args| > 2 && args[2] == "-o" && |args| > 3 && |args[3]| != 0 then KeptOptions(Split(args[3], ','))
    else []
  }

  /** What parseArgs returns for an argument vector. */
  function ParsedArgs(args: seq<string>): (r: Result<MountArgs, Error>)
    ensures r.Success? ==>
      |args| >= 2 && r.value.fsType == "overlay" && r.value.target == args[1] && r.value.target != "" &&
      |r.value.options| > 0 && forall i :: 0 <= i < |r.value.options| ==> !HasPrefix(r.value.options[i], KataVolumeOptionKey)
  {
    if |args| < 2 then Failure(InsufficientArgsError)
    else if args[0] != "overlay" then Failure(InvalidFsTypeError(args[0]))
    else if |args[1]| == 0 then Failure(EmptyTargetError)
    else if |CollectedOptions(args)| == 0 then Failure(EmptyOptionsError)
    else Success(MountArgs(args[0], args[1], CollectedOptions(args)))
  }

  /** parseArgs */
  method ParseArgs(args: seq<string>) returns (r: Result<MountArgs, Error>)
    ensures r == ParsedArgs(args)
  {
    if |args| < 2 {
      return Failure(InsufficientArgsError);
    }
    var fsType, target := args[0], args[1];
    if fsType != "overlay" {
      return Failure(InvalidFsTypeError(fsType));
    }
    if |target| == 0 {
      return Failure(EmptyTargetError);
    }

    var options: seq<string> := [];
    if |args| > 2 && args[2] == "-o" && |args| > 3 && |args[3]| != 0 {
      var pieces := Split(args[3], ',');
      var i := 0;
      while i < |pieces|
        invariant 0 <= i <= |pieces|
        invariant options == KeptOptions(pieces[..i])
      {
        assert pieces[..i + 1][..i] == pieces[..i];
        if !HasPrefix(pieces[i], KataVolumeOptionKey) {
          options := options + [pieces[i]];
        }
        i := i + 1;
      }
      assert pieces[..|pieces|] == pieces;
    }

    if |options| == 0 {
      return Failure(EmptyOptionsError);
    }
    return Success(MountArgs(fsType, target, options));
  }

  // ------------------------------------------------------------ options

  /**
    The mount(2) flag bits parseOptions can set, each standing for its
    MS_* constant: MS_RDONLY 1, MS_NOSUID 2, MS_NODEV 4, MS_NOEXEC 8,
    MS_SYNCHRONOUS 16, MS_REMOUNT 32, MS_MANDLOCK 64, MS_DIRSYNC 128,
    MS_NOATIME 1024, MS_NODIRATIME 2048, MS_BIND 4096, MS_REC 16384,
    MS_RELATIME 1 << 21, MS_STRICTATIME 1 << 24. They are distinct powers of
    two, so a flag word is the set of its bits and `|` is union.
   */
  datatype MountFlag =
    | Rdonly | Nosuid | Nodev | Noexec | Synchronous | Remount | Mandlock
    | Dirsync | Noatime | Nodiratime | Bind | Rec | Relatime | Strictatime

  /** The flagsTable of parseOptions, value for value. */
  const FlagsTable: map<string, set<MountFlag>> := map[
    "async" := {Synchronous},
    "atime" := {Noatime},
    "bind" := {Bind},
    "defaults" := {},
    "dev" := {Nodev},
    "diratime" := {Nodiratime},
    "dirsync" := {Dirsync},
    "exec" := {Noexec},
    "mand" := {Mandlock},
    "noatime" := {Noatime},
    "nodev" := {Nodev},
    "nodiratime" := {Nodiratime},
    "noexec" := {Noexec},
    "nomand" := {Mandlock},
    "norelatime" := {Relatime},
    "nostrictatime" := {Strictatime},
    "nosuid" := {Nosuid},
    "rbind" := {Bind, Rec},
    "relatime" := {Relatime},
    "remount" := {Remount},
    "ro" := {Rdonly},
    "rw" := {Rdonly},
    "strictatime" := {Strictatime},
    "suid" := {Nosuid},
    "sync" := {Synchronous}
  ]

  /** The bits one option sets: its table value, or none when it is not a table key. */
  function FlagBits(o: string): set<MountFlag>
  {
    if o in FlagsTable then FlagsTable[o] else {}
  }

  /** The data part one option leaves: itself, or nothing when it is a table key. */
  function DataPart(o: string): seq<string>
  {
    if o in FlagsTable then [] else [o]
  }

  /** The OR of the table values of the options that are table keys. */
  function FlagsOf(options: seq<string>): (r: set<MountFlag>)
    ensures forall i :: 0 <= i < |options| ==> FlagBits(options[i]) <= r
  {
    if |options| == 0 then {}
    else FlagsOf(options[..|options| - 1]) + FlagBits(options[|options| - 1])
  }

  /** The options that are not table keys, in their order. */
  function DataOf(options: seq<string>): (r: seq<string>)
    ensures |r| <= |options|
    ensures forall i :: 0 <= i < |r| ==> r[i] !in FlagsTable
  {
    if |options| == 0 then []
    else DataOf(options[..|options| - 1]) + DataPart(options[|options| - 1])
  }

  /** One more option folds into the results of the ones before it. */
  lemma FoldStep(options: seq<string>, i: nat)
    requires i < |options|
    ensures FlagsOf(options[..i + 1]) == FlagsOf(options[..i]) + FlagBits(options[i])
    ensures DataOf(options[..i + 1]) == DataOf(options[..i]) + DataPart(options[i])
  {
    assert options[..i + 1][..i] == options[..i];
  }

  /** parseOptions */
  method ParseOptions(options: seq<string>) returns (flags: set<MountFlag>, data: string)
    ensures flags == FlagsOf(options)
    ensures data == Join(",", DataOf(options))
  {
    flags := {};
    var parts: seq<string> := [];
    var i := 0;
    while i < |options|
      invariant 0 <= i <= |options|
      invariant flags == FlagsOf(options[..i])
      invariant parts == DataOf(options[..i])
    {
      FoldStep(options, i);
      var o := options[i];
      if o in FlagsTable {
        flags := flags + FlagsTable[o];
      } else {
        parts := parts + [o];
      }
      i := i + 1;
    }
    assert options[..|options|] == options;
    data := Join(",", parts);
  }

  // ---------------------------------------------------------------- run

  /** The mount(2) call run makes: source and fs type, target, flag word and data string. */
  datatype MountCall = MountCall(fsType: string, target: string, flags: set<MountFlag>, data: string)

  /** What run did: the mount(2) call it made, if it got that far, and its error. */
  datatype RunResult = RunResult(call: Option<MountCall>, err: Option<Error>)

  /** run, with `mountFault` the error mount(2) returns, if any. */
  function RunSpec(args: seq<string>, mountFault: Option<Error>): (r: RunResult)
    ensures r.err.None? ==> r.call.Some? && mountFault.None?
    ensures r.call.Some? ==> r.call.value.fsType == "overlay" && r.call.value.target != ""
  {
    match ParsedArgs(args)
    case Failure(e) => RunResult(None, Some(Wrapped("parse mount options", e)))
    case Success(a) =>
      var call := MountCall(a.fsType, a.target, FlagsOf(a.options), Join(",", DataOf(a.options)));
      RunResult(Some(call), if mountFault.Some? then Some(Wrapped("mount overlayfs by syscall", mountFault.value)) else None)
  }

  /** run */
  method Run(args: seq<string>, mountFault: Option<Error>) returns (r: RunResult)
    ensures r == RunSpec(args, mountFault)
  {
    var margs := ParseArgs(args);
    if margs.Failure? {
      return RunResult(None, Some(Wrapped("parse mount options", margs.error)));
    }
    var flags, data := ParseOptions(margs.value.options);
    var call := MountCall(margs.value.fsType, margs.value.target, flags, data);
    if mountFault.Some? {
      return RunResult(Some(call), Some(Wrapped("mount overlayfs by syscall", mountFault.value)));
    }
    return RunResult(Some(call), None);
  }

  /**
    The exit status of main once its flags are parsed: 1 with the usage
    message for fewer than four arguments, 1 when run fails, 0 otherwise.
   */
  function ExitStatus(args: seq<string>, mountFault: Option<Error>): (r: nat)
    ensures r <= 1
    ensures r == 0 ==> |args| >= 4 && RunSpec(args, mountFault).call.Some?
  {
    if |args| < 4 then 1
    else if RunSpec(args, mountFault).err.Some? then 1
    else 0
  }

  // ------------------------------------------------------------- lemmas

  /**
    run mounts only what parseArgs accepted: an overlay at the given target,
    with the bits and the data of the kept options; any error keeps the class
    of the parse or mount error beneath it.
   */
  lemma RunOutcome(args: seq<string>, mountFault: Option<Error>)
    ensures var r := RunSpec(args, mountFault);
      (r.call.Some? <==> ParsedArgs(args).Success?) &&
      (r.err.None? <==> ParsedArgs(args).Success? && mountFault.None?) &&
      (r.call.Some? ==>
        var a := ParsedArgs(args).value;
        r.call.value.fsType == "overlay" && r.call.value.target == args[1] && r.call.value.target != "" &&
        r.call.value.flags == FlagsOf(a.options) && r.call.value.data == Join(",", DataOf(a.options))) &&
      (ParsedArgs(args).Failure? ==> ClassOf(r.err.value) == ClassOf(ParsedArgs(args).error)) &&
      (ParsedArgs(args).Success? && mountFault.Some? ==> ClassOf(r.err.value) == ClassOf(mountFault.value))
  {
  }

  /** main exits 0 exactly when it has four arguments, parseArgs accepts them and mount(2) succeeds. */
  lemma ExitStatusZero(args: seq<string>, mountFault: Option<Error>)
    ensures ExitStatus(args, mountFault) == 0 <==> |args| >= 4 && ParsedArgs(args).Success? && mountFault.None?
    ensures |args| >= 4 ==> ParsedArgs(args) != Failure(InsufficientArgsError)
  {
    RunOutcome(args, mountFault);
    ParseArgsErrors(args);
  }


  /** parseArgs' error cases, each exactly when the source reports it. */
  lemma ParseArgsErrors(args: seq<string>)
    ensures ParsedArgs(args) == Failure(InsufficientArgsError) <==> |args| < 2
    ensures |args| >= 2 ==> (ParsedArgs(args) == Failure(InvalidFsTypeError(args[0])) <==> args[0] != "overlay")
    ensures ParsedArgs(args) == Failure(EmptyTargetError) <==> |args| >= 2 && args[0] == "overlay" && args[1] == ""
    ensures ParsedArgs(args) == Failure(EmptyOptionsError) <==>
      |args| >= 2 && args[0] == "overlay" && args[1] != "" && CollectedOptions(args) == []
    ensures ParsedArgs(args).Success? <==>
      |args| >= 2 && args[0] == "overlay" && args[1] != "" && CollectedOptions(args) != []
  {
    if |args| >= 2 && args[0] != "overlay" {
      InvalidFsTypeDistinct(args[0]);
    }
  }

  /** The invalid-type message is none of the other three. */
  lemma InvalidFsTypeDistinct(fsType: string)
    ensures InvalidFsTypeError(fsType) != InsufficientArgsError
    ensures InvalidFsTypeError(fsType) != EmptyTargetError
    ensures InvalidFsTypeError(fsType) != EmptyOptionsError
  {
    var m := "invalid filesystem type " + fsType + " for overlayfs";
    assert m[0] == 'i' && m[1] == 'n' && m[2] == 'v';
    assert InsufficientArgsError.msg[2] == 's';
    assert EmptyTargetError.msg[0] == 'e';
    assert EmptyOptionsError.msg[0] == 'e';
  }

  /** A kept piece never carries the guest-pull key, and every other piece is kept. */
  lemma {:induction false} KeptOptionsMembers(pieces: seq<string>)
    ensures forall x :: x in KeptOptions(pieces) <==> x in pieces && !HasPrefix(x, KataVolumeOptionKey)
  {
    if |pieces| > 0 {
      var init := pieces[..|pieces| - 1];
      KeptOptionsMembers(init);
      assert pieces == init + [pieces[|pieces| - 1]];
    }
  }

  /** Filtering keeps order: it distributes over concatenation. */
  lemma {:induction false} KeptOptionsAppend(a: seq<string>, b: seq<string>)
    ensures KeptOptions(a + b) == KeptOptions(a) + KeptOptions(b)
    decreases |b|
  {
    if |b| == 0 {
      assert a + b == a;
    } else {
      var b' := b[..|b| - 1];
      KeptOptionsAppend(a, b');
      assert (a + b)[..|a + b| - 1] == a + b';
      assert (a + b)[|a + b| - 1] == b[|b| - 1];
    }
  }

  /** A list made only of guest-pull volume options leaves nothing, so parseArgs rejects it. */
  lemma OnlyVolumeOptionsRejected(target: string, list: string)
    requires target != "" && list != ""
    requires forall i :: 0 <= i < |Split(list, ',')| ==> HasPrefix(Split(list, ',')[i], KataVolumeOptionKey)
    ensures ParsedArgs(["overlay", target, "-o", list]) == Failure(EmptyOptionsError)
  {
    KeptOptionsNone(Split(list, ','));
  }

  /** Pieces that all carry the guest-pull key filter down to nothing. */
  lemma {:induction false} KeptOptionsNone(pieces: seq<string>)
    requires forall i :: 0 <= i < |pieces| ==> HasPrefix(pieces[i], KataVolumeOptionKey)
    ensures KeptOptions(pieces) == []
  {
    if |pieces| > 0 {
      KeptOptionsNone(pieces[..|pieces| - 1]);
    }
  }

  /** Every option lands in exactly one place: a table key in `flags`, any other option in `data`. */
  lemma {:induction false} DataMembers(options: seq<string>)
    ensures forall x :: x in DataOf(options) <==> x in options && x !in FlagsTable
  {
    if |options| > 0 {
      var init := options[..|options| - 1];
      DataMembers(init);
      assert options == init + [options[|options| - 1]];
    }
  }

  /** flags holds exactly the bits of the table keys present, whatever other options surround them. */
  lemma {:induction false} FlagsMembers(options: seq<string>)
    ensures forall f :: f in FlagsOf(options) <==> exists i :: 0 <= i < |options| && f in FlagBits(options[i])
  {
    if |options| > 0 {
      var init := options[..|options| - 1];
      var last := options[|options| - 1];
      FlagsMembers(init);
      assert FlagsOf(options) == FlagsOf(init) + FlagBits(last);
      forall f | f in FlagsOf(options) ensures exists i :: 0 <= i < |options| && f in FlagBits(options[i]) {
        if f !in FlagBits(last) {
          var i :| 0 <= i < |init| && f in FlagBits(init[i]);
          assert options[i] == init[i];
        }
      }
      forall f, i | 0 <= i < |options| && f in FlagBits(options[i]) ensures f in FlagsOf(options) {
        if i < |init| {
          assert init[i] == options[i];
        }
      }
    }
  }

  /** flags depends only on which options are present, not on their order or repetition. */
  lemma FlagsIgnoreOrder(a: seq<string>, b: seq<string>)
    requires forall x :: x in a <==> x in b
    ensures FlagsOf(a) == FlagsOf(b)
  {
    FlagsMembers(a);
    FlagsMembers(b);
    forall f | f in FlagsOf(a) ensures f in FlagsOf(b) {
      var i :| 0 <= i < |a| && f in FlagBits(a[i]);
      assert a[i] in b;
      var j :| 0 <= j < |b| && b[j] == a[i];
      assert f in FlagBits(b[j]);
    }
    forall f | f in FlagsOf(b) ensures f in FlagsOf(a) {
      var j :| 0 <= j < |b| && f in FlagBits(b[j]);
      assert b[j] in a;
      var i :| 0 <= i < |a| && a[i] == b[j];
      assert f in FlagBits(a[i]);
    }
  }

  /** Options that are all outside the table leave flags empty and pass through to data unchanged. */
  lemma {:induction false} NoTableKeys(options: seq<string>)
    requires forall i :: 0 <= i < |options| ==> options[i] !in FlagsTable
    ensures FlagsOf(options) == {} && DataOf(options) == options
  {
    if |options| > 0 {
      var init := options[..|options| - 1];
      NoTableKeys(init);
      assert options == init + [options[|options| - 1]];
    }
  }

  /**
    The positive forms set the same bit as their negations ("rw" sets
    MS_RDONLY like "ro"), and "defaults" adds no bit but still leaves data.
   */
  lemma TableQuirks()
    ensures FlagsTable["rw"] == FlagsTable["ro"] == {Rdonly}
    ensures FlagsTable["dev"] == FlagsTable["nodev"] == {Nodev}
    ensures FlagsTable["suid"] == FlagsTable["nosuid"] == {Nosuid}
    ensures FlagsTable["exec"] == FlagsTable["noexec"] == {Noexec}
    ensures FlagsTable["async"] == FlagsTable["sync"] == {Synchronous}
    ensures FlagsTable["atime"] == FlagsTable["noatime"] == {Noatime}
    ensures FlagsTable["rbind"] == {Bind, Rec}
    ensures FlagsOf(["defaults"]) == {} && DataOf(["defaults"]) == []
  {
    assert ["defaults"][..0] == [];
  }

  /** The helper's filter key is the snapshotter's option name followed by '='. */
  lemma KeyMatchesOptionName()
    ensures KataVolumeOptionKey == GuestPull.KataVirtualVolumeOptionName + "="
  {
  }

  /**
    The two halves together: given the options the snapshotter composed,
    followed by its guest-pull option and joined with ',' as containerd passes
    them, parseArgs returns exactly the composed options.
   */
  lemma ParseArgsDropsVolumeOption(target: string, base: seq<string>, v: GuestPull.VolumeJson.KataVirtualVolume)
    requires target != "" && |base| >= 1
    requires NoneContains(base, ',')
    requires forall i :: 0 <= i < |base| ==> !HasPrefix(base[i], KataVolumeOptionKey)
    ensures ParsedArgs(["overlay", target, "-o", Join(",", base + [GuestPull.VolumeOption(v)])]) ==
      Success(MountArgs("overlay", target, base))
  {
    VolumeOptionHasNoComma(v);
    GuestPull.VolumeOptionPrefix(v);
    KeyMatchesOptionName();
    DropsLast(target, base, GuestPull.VolumeOption(v));
  }

  /** The same for any last option that carries the key and no ','. */
  lemma DropsLast(target: string, base: seq<string>, g: string)
    requires target != "" && |base| >= 1
    requires NoneContains(base, ',') && ',' !in g
    requires forall i :: 0 <= i < |base| ==> !HasPrefix(base[i], KataVolumeOptionKey)
    requires HasPrefix(g, KataVolumeOptionKey)
    ensures ParsedArgs(["overlay", target, "-o", Join(",", base + [g])]) == Success(MountArgs("overlay", target, base))
  {
    var parts := base + [g];
    AppendFree(base, g, ',');
    SplitJoin(parts, ',');
    JoinNonEmpty(parts, ',');
    KeptDropsLast(base, g);
    DashOList(target, Join(",", parts));
  }

  /** What parseArgs makes of `overlay <target> -o <list>` with a non-empty target and list. */
  lemma DashOList(target: string, list: string)
    requires target != "" && list != ""
    ensures var kept := KeptOptions(Split(list, ','));
      ParsedArgs(["overlay", target, "-o", list]) ==
        if kept == [] then Failure(EmptyOptionsError) else Success(MountArgs("overlay", target, kept))
  {
    var args := ["overlay", target, "-o", list];
    assert args[0] == "overlay" && args[1] == target && args[2] == "-o" && args[3] == list;
  }

  lemma AppendFree(base: seq<string>, g: string, c: char)
    requires NoneContains(base, c) && c !in g
    ensures NoneContains(base + [g], c)
  {
    var parts := base + [g];
    forall i | 0 <= i < |parts| ensures c !in parts[i] {
      if i < |base| { assert parts[i] == base[i]; } else { assert parts[i] == g; }
    }
  }

  lemma KeptDropsLast(base: seq<string>, g: string)
    requires forall i :: 0 <= i < |base| ==> !HasPrefix(base[i], KataVolumeOptionKey)
    requires HasPrefix(g, KataVolumeOptionKey)
    ensures KeptOptions(base + [g]) == base
  {
    var parts := base + [g];
    assert parts[..|parts| - 1] == base && parts[|parts| - 1] == g;
    KeptAll(base);
  }

  /** Pieces without the key all survive filtering. */
  lemma {:induction false} KeptAll(pieces: seq<string>)
    requires forall i :: 0 <= i < |pieces| ==> !HasPrefix(pieces[i], KataVolumeOptionKey)
    ensures KeptOptions(pieces) == pieces
  {
    if |pieces| > 0 {
      var init := pieces[..|pieces| - 1];
      KeptAll(init);
      assert pieces == init + [pieces[|pieces| - 1]];
    }
  }

  /** Joining two or more parts with a separator gives a non-empty string. */
  lemma JoinNonEmpty(parts: seq<string>, sep: char)
    requires |parts| >= 2
    ensures |Join([sep], parts)| > 0
  {
  }

  /** The guest-pull option contains no ',', so a ',' list keeps it in one piece. */
  lemma VolumeOptionHasNoComma(v: GuestPull.VolumeJson.KataVirtualVolume)
    ensures ',' !in GuestPull.VolumeOption(v)
  {
    var name := GuestPull.KataVirtualVolumeOptionName;
    var b := GuestPull.EncodeVolume(v);
    NameHasNoComma();
    EncodingHasNoComma(b);
    NoCommaConcat(name, b);
  }

  lemma NameHasNoComma()
    ensures ',' !in GuestPull.KataVirtualVolumeOptionName
  {
    var n := GuestPull.KataVirtualVolumeOptionName;
    forall i | 0 <= i < |n| ensures n[i] != ',' {
    }
  }

  /** No character the base64 encoder writes is ','. */
  lemma EncodingHasNoComma(b: string)
    requires forall i :: 0 <= i < |b| ==> Base64.IsEncodingChar(b[i])
    ensures ',' !in b
  {
    forall i | 0 <= i < |b| ensures b[i] != ',' {
      assert Base64.IsEncodingChar(b[i]);
    }
  }

  lemma NoCommaConcat(name: string, b: string)
    requires ',' !in name && ',' !in b
    ensures ',' !in name + "=" + b
  {
    var s := name + "=" + b;
    forall i | 0 <= i < |s| ensures s[i] != ',' {
      if i < |name| { assert s[i] == name[i]; }
      else if i > |name| { assert s[i] == b[i - |name| - 1]; }
    }
  }

  // ----------------------------------------------------- end to end

  /** No path component of a snapshot's mount holds a ','. */
  predicate CommaFree(root: string, s: Mounts.Snapshot, anchor: string)
  {
    ',' !in root && ',' !in s.id && ',' !in anchor &&
    forall i :: 0 <= i < |s.parentIDs| ==> ',' !in s.parentIDs[i]
  }

  lemma PathsCommaFree(root: string, id: string)
    requires ',' !in root && ',' !in id
    ensures ',' !in Mounts.SnapshotsDir(root) && ',' !in Mounts.UpperPath(root, id) && ',' !in Mounts.WorkPath(root, id)
  {
    ListFree([root, "snapshots"]);
    ListFree([root, "snapshots", id, "fs"]);
    ListFree([root, "snapshots", id, "work"]);
  }

  lemma ListFree(segments: seq<string>)
    requires NoneContains(segments, ',')
    ensures ',' !in PathJoin(segments)
  {
    NonEmptyFree(segments, ',');
    JoinFree("/", NonEmpty(segments), ',');
  }

  lemma OverlayOptionsCommaFree(root: string, s: Mounts.Snapshot, anchor: string, flag: bool)
    requires CommaFree(root, s, anchor)
    ensures NoneContains(Mounts.OverlayOptions(root, s, anchor, flag), ',')
  {
    var lower := Mounts.LowerDirs(root, s, anchor, flag);
    PathsCommaFree(root, s.id);
    PathsCommaFree(root, anchor);
    forall i | 0 <= i < |lower| ensures ',' !in lower[i] {
      if !(flag && s.kind == Mounts.View) && |s.parentIDs| > 0 {
        PathsCommaFree(root, s.parentIDs[i]);
      }
    }
    JoinFree(":", lower, ',');
    var prefix := Mounts.OverlayPrefix(root, s);
    var lowerOption := "lowerdir=" + Join(":", lower);
    assert ',' !in lowerOption;
    AppendFree(prefix, lowerOption, ',');
  }

  /**
    containerd runs the helper as `<source> <target> -o <options joined
    with ','>`. For the mount the snapshotter composes, parseArgs gets back
    exactly the overlay options: the guest-pull option is dropped and
    nothing else is, as long as no path holds a ','.
   */
  lemma ComposedMountParses(root: string, s: Mounts.Snapshot, anchor: string, flag: bool, target: string)
    requires target != "" && CommaFree(root, s, anchor)
    ensures var m := Mounts.ComposedMount(root, s, anchor, flag)[0];
      ParsedArgs([m.source, target, "-o", Join(",", m.options)]) ==
        Success(MountArgs("overlay", target, Mounts.OverlayOptions(root, s, anchor, flag)))
  {
    var base := Mounts.OverlayOptions(root, s, anchor, flag);
    OverlayOptionsCommaFree(root, s, anchor, flag);
    Mounts.GuestOptionOnce(root, s, anchor, flag);
    ParseArgsDropsVolumeOption(target, base, GuestPull.GuestPullVolume("", base, map[]));
  }

  /** No table key starts with 'l', 'u' or 'w', the first letters of the overlay options. */
  lemma TableKeyInitials()
    ensures forall k :: k in FlagsTable ==> |k| > 0 && k[0] != 'l' && k[0] != 'u' && k[0] != 'w'
  {
  }

  /** The overlay options are data to mount(2): none of them sets a flag bit. */
  lemma OverlayOptionsAreData(root: string, s: Mounts.Snapshot, anchor: string, flag: bool)
    ensures var o := Mounts.OverlayOptions(root, s, anchor, flag);
      FlagsOf(o) == {} && DataOf(o) == o
  {
    var o := Mounts.OverlayOptions(root, s, anchor, flag);
    forall i | 0 <= i < |o| ensures o[i] !in FlagsTable {
      assert o[i][0] == 'w' || o[i][0] == 'u' || o[i][0] == 'l';
      NotTableKey(o[i]);
    }
    NoTableKeys(o);
  }

  lemma NotTableKey(x: string)
    requires |x| > 0 && (x[0] == 'l' || x[0] == 'u' || x[0] == 'w')
    ensures x !in FlagsTable
  {
    TableKeyInitials();
  }

  /**
    End to end: containerd runs the helper on the mount the snapshotter
    composed, and mount(2) is asked for an overlay at the target with no flag
    bits and the overlay options, joined with ',', as data.
   */
  lemma ComposedMountRuns(root: string, s: Mounts.Snapshot, anchor: string, flag: bool, target: string)
    requires target != "" && CommaFree(root, s, anchor)
    ensures var m := Mounts.ComposedMount(root, s, anchor, flag)[0];
      RunSpec([m.source, target, "-o", Join(",", m.options)], None) ==
        RunResult(Some(MountCall("overlay", target, {}, Join(",", Mounts.OverlayOptions(root, s, anchor, flag)))), None)
  {
    ComposedMountParses(root, s, anchor, flag, target);
    OverlayOptionsAreData(root, s, anchor, flag);
  }
}
