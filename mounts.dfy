/**
  The overlay mount composer of the snapshotter: the directory layout under
  the root, guest-pull mode, and the single fuse mount whose options name the
  work, upper and lower directories and end with the guest-pull volume option.
 */
module Mounts {
  import opened Wrappers
  import opened Strings
  import GuestPull
  import VolumeJson

  /** snapshots.Kind */
  datatype Kind = Unknown | View | Active | Committed

  /** storage.Snapshot: the record the metadata store hands back for a key. */
  datatype Snapshot = Snapshot(id: string, kind: Kind, parentIDs: seq<string>)

  /** mount.Mount */
  datatype Mount = Mount(mountType: string, source: string, options: seq<string>)

  const GuestPullLabel := "containerd.io/snapshot/guestpull"
  const FuseType := "fuse.guest-pull-overlayfs"

  // ------------------------------------------------------------- layout

  /** `<root>/snapshots`, the parent of every snapshot directory. */
  function SnapshotsDir(root: string): string
  {
    PathJoin([root, "snapshots"])
  }

  function UpperPath(root: string, id: string): string
  {
    PathJoin([root, "snapshots", id, "fs"])
  }

  function WorkPath(root: string, id: string): string
  {
    PathJoin([root, "snapshots", id, "work"])
  }

  /** lowerPath: the same directory as UpperPath; its error result is always nil. */
  function LowerPath(root: string, id: string): string
  {
    PathJoin([root, "snapshots", id, "fs"])
  }

  /** With a non-empty root, the paths are the root and the ids joined by '/'; an empty id drops out. */
  lemma PathLayout(root: string, id: string)
    requires root != ""
    ensures SnapshotsDir(root) == root + "/snapshots"
    ensures UpperPath(root, id) == LowerPath(root, id)
    ensures id != "" ==> UpperPath(root, id) == root + "/snapshots/" + id + "/fs"
    ensures id != "" ==> WorkPath(root, id) == root + "/snapshots/" + id + "/work"
    ensures id == "" ==> UpperPath(root, id) == root + "/snapshots/fs"
  {
    JoinTwo(root, "snapshots");
    if id != "" {
      JoinFour(root, "snapshots", id, "fs");
      JoinFour(root, "snapshots", id, "work");
    } else {
      assert [root, "snapshots", id, "fs"][1..] == ["snapshots", id, "fs"];
      assert ["snapshots", id, "fs"][1..] == [id, "fs"];
      assert [id, "fs"][1..] == ["fs"];
      assert NonEmpty(["fs"]) == ["fs"];
      assert NonEmpty([id, "fs"]) == ["fs"];
      assert NonEmpty(["snapshots", id, "fs"]) == ["snapshots", "fs"];
      assert NonEmpty([root, "snapshots", id, "fs"]) == [root, "snapshots", "fs"];
      JoinThree(root, "snapshots", "fs");
    }
  }

  lemma JoinTwo(a: string, b: string)
    requires a != "" && b != ""
    ensures PathJoin([a, b]) == a + "/" + b
  {
    assert [a, b][1..] == [b];
    assert NonEmpty([b]) == [b];
    assert NonEmpty([a, b]) == [a, b];
    assert Join("/", [b]) == b;
    assert Join("/", [a, b]) == a + "/" + Join("/", [b]);
  }

  lemma JoinThree(a: string, b: string, c: string)
    ensures Join("/", [a, b, c]) == a + "/" + b + "/" + c
  {
    assert [a, b, c][1..] == [b, c];
    assert [b, c][1..] == [c];
    assert Join("/", [c]) == c;
    assert Join("/", [b, c]) == b + "/" + c;
    assert Join("/", [a, b, c]) == a + "/" + (b + "/" + c);
  }

  lemma JoinFour(a: string, b: string, c: string, d: string)
    requires a != "" && b != "" && c != "" && d != ""
    ensures PathJoin([a, b, c, d]) == a + "/" + b + "/" + c + "/" + d
  {
    assert [a, b, c, d][1..] == [b, c, d];
    assert [b, c, d][1..] == [c, d];
    assert [c, d][1..] == [d];
    assert NonEmpty([d]) == [d];
    assert NonEmpty([c, d]) == [c, d];
    assert NonEmpty([b, c, d]) == [b, c, d];
    assert NonEmpty([a, b, c, d]) == [a, b, c, d];
    assert Join("/", [d]) == d;
    assert Join("/", [c, d]) == c + "/" + d;
    assert Join("/", [b, c, d]) == b + "/" + (c + "/" + d);
    assert Join("/", [a, b, c, d]) == a + "/" + (b + "/" + (c + "/" + d));
    Strings.Assoc(a + "/" + b + "/", c, "/" + d);
    Strings.Assoc(a + "/", b, "/" + (c + ("/" + d)));
  }

  /** IsGuestPullMode: the label key is present, whatever its value. */
  predicate IsGuestPullMode(labels: map<string, string>)
  {
    GuestPullLabel in labels
  }

  lemma GuestPullModeIgnoresValue(labels: map<string, string>, v: string)
    ensures IsGuestPullMode(labels[GuestPullLabel := v])
    ensures !IsGuestPullMode(labels - {GuestPullLabel})
  {
  }

  // ------------------------------------------------------- specification

  /** The work and upper directories, present for an Active snapshot only. */
  function OverlayPrefix(root: string, s: Snapshot): seq<string>
  {
    if s.kind == Active then ["workdir=" + WorkPath(root, s.id), "upperdir=" + UpperPath(root, s.id)] else []
  }

  /** The lower directories: the anchor's fs for a flagged View, else the parents' fs, else `<root>/snapshots`. */
  function LowerDirs(root: string, s: Snapshot, anchor: string, flag: bool): (r: seq<string>)
    ensures |r| >= 1
    ensures flag && s.kind == View ==> |r| == 1
    ensures !(flag && s.kind == View) && |s.parentIDs| > 0 ==> |r| == |s.parentIDs|
  {
    if flag && s.kind == View then [LowerPath(root, anchor)]
    else if |s.parentIDs| == 0 then [SnapshotsDir(root)]
    else seq(|s.parentIDs|, i requires 0 <= i < |s.parentIDs| => UpperPath(root, s.parentIDs[i]))
  }

  /** The overlay options before the guest-pull option is added. */
  function OverlayOptions(root: string, s: Snapshot, anchor: string, flag: bool): seq<string>
  {
    OverlayPrefix(root, s) + ["lowerdir=" + Join(":", LowerDirs(root, s, anchor, flag))]
  }

  /** The one option PrepareGuestPullMounts("", options, {}) returns. */
  function GuestOption(options: seq<string>): string
  {
    GuestPull.VolumeOption(GuestPull.GuestPullVolume("", options, map[]))
  }

  /** The one fuse mount mountGuestPull returns: the overlay options, then the guest-pull option. */
  function ComposedMount(root: string, s: Snapshot, anchor: string, flag: bool): (r: seq<Mount>)
    ensures |r| == 1 && r[0].mountType == FuseType && r[0].source == "overlay"
    ensures |r[0].options| == |OverlayPrefix(root, s)| + 2
    ensures r[0].options[..|r[0].options| - 1] == OverlayOptions(root, s, anchor, flag)
  {
    var base := OverlayOptions(root, s, anchor, flag);
    [Mount(FuseType, "overlay", base + [GuestOption(base)])]
  }

  // -------------------------------------------------------------- method

  /**
    mountGuestPull. The error return of the source cannot happen: the
    guest-pull descriptor it builds always validates, so the result is always
    a success.
   */
  method MountGuestPull(root: string, s: Snapshot, anchor: string, flag: bool) returns (r: Result<seq<Mount>, string>)
    ensures r == Success(ComposedMount(root, s, anchor, flag))
  {
    var overlayOptions: seq<string> := [];
    if s.kind == Active {
      overlayOptions := overlayOptions + ["workdir=" + WorkPath(root, s.id), "upperdir=" + UpperPath(root, s.id)];
    }
    assert overlayOptions == OverlayPrefix(root, s);

    var lowerPaths := CollectLowerPaths(root, s, anchor, flag);
    overlayOptions := overlayOptions + ["lowerdir=" + Join(":", lowerPaths)];
    assert overlayOptions == OverlayOptions(root, s, anchor, flag);

    var guestOptions := GuestPull.PrepareGuestPullMounts("", overlayOptions, map[]).value;
    if |guestOptions| > 0 {
      overlayOptions := overlayOptions + guestOptions;
    }

    r := Success([Mount(FuseType, "overlay", overlayOptions)]);
  }

  /** The lowerPaths list of mountGuestPull, built by appending. */
  method CollectLowerPaths(root: string, s: Snapshot, anchor: string, flag: bool) returns (lowerPaths: seq<string>)
    ensures lowerPaths == LowerDirs(root, s, anchor, flag)
  {
    lowerPaths := [];
    if flag && s.kind == View {
      lowerPaths := lowerPaths + [LowerPath(root, anchor)];
    } else if |s.parentIDs| == 0 {
      lowerPaths := lowerPaths + [SnapshotsDir(root)];
    } else {
      var i := 0;
      while i < |s.parentIDs|
        invariant 0 <= i <= |s.parentIDs|
        invariant |lowerPaths| == i
        invariant forall j :: 0 <= j < i ==> lowerPaths[j] == UpperPath(root, s.parentIDs[j])
      {
        lowerPaths := lowerPaths + [UpperPath(root, s.parentIDs[i])];
        i := i + 1;
      }
    }
  }

  // ------------------------------------------------------------- lemmas

  /** The options of the composed mount are the overlay options and then the guest option. */
  lemma ComposedOptions(root: string, s: Snapshot, anchor: string, flag: bool)
    ensures var ms := ComposedMount(root, s, anchor, flag);
      var base := OverlayOptions(root, s, anchor, flag);
      |ms| == 1 && ms[0] == Mount(FuseType, "overlay", base + [GuestOption(base)])
  {
  }

  /**
    One fuse mount of source `overlay`. An Active snapshot's options start
    with its work then upper directory, before the lower and guest options.
   */
  lemma MountShape(root: string, s: Snapshot, anchor: string, flag: bool)
    ensures var ms := ComposedMount(root, s, anchor, flag);
      |ms| == 1 && ms[0].mountType == "fuse.guest-pull-overlayfs" && ms[0].source == "overlay"
    ensures var o := ComposedMount(root, s, anchor, flag)[0].options;
      s.kind == Active ==>
        |o| == 4 && o[0] == "workdir=" + WorkPath(root, s.id) && o[1] == "upperdir=" + UpperPath(root, s.id)
  {
    ComposedOptions(root, s, anchor, flag);
    if s.kind == Active {
      var base := OverlayOptions(root, s, anchor, flag);
      ActiveOptions(base, GuestOption(base), OverlayPrefix(root, s), "lowerdir=" + Join(":", LowerDirs(root, s, anchor, flag)));
    }
  }

  lemma ActiveOptions(base: seq<string>, g: string, prefix: seq<string>, l: string)
    requires |prefix| == 2 && base == prefix + [l]
    ensures var o := base + [g]; |o| == 4 && o[0] == prefix[0] && o[1] == prefix[1]
  {
  }

  /** For every kind but Active there is neither a work nor an upper option. */
  lemma NoUpperUnlessActive(root: string, s: Snapshot, anchor: string, flag: bool)
    requires s.kind != Active
    ensures var o := ComposedMount(root, s, anchor, flag)[0].options;
      |o| == 2 && forall i :: 0 <= i < |o| ==> !HasPrefix(o[i], "workdir=") && !HasPrefix(o[i], "upperdir=")
  {
    ComposedOptions(root, s, anchor, flag);
    var base := OverlayOptions(root, s, anchor, flag);
    var g := GuestOption(base);
    var l := "lowerdir=" + Join(":", LowerDirs(root, s, anchor, flag));
    assert base == [l];
    assert l[0] == 'l';
    GuestPull.VolumeOptionPrefix(GuestPull.GuestPullVolume("", base, map[]));
    LowerAndGuestOnly(base, l, g);
  }

  lemma LowerAndGuestOnly(base: seq<string>, l: string, g: string)
    requires base == [l] && |l| > 0 && |g| > 0 && l[0] == 'l' && g[0] == 'i'
    ensures var o := base + [g];
      |o| == 2 && forall i :: 0 <= i < |o| ==> !HasPrefix(o[i], "workdir=") && !HasPrefix(o[i], "upperdir=")
  {
    AppendToSingleton(base, l, g);
    FirstCharDiffers(l, "workdir=");
    FirstCharDiffers(l, "upperdir=");
    FirstCharDiffers(g, "workdir=");
    FirstCharDiffers(g, "upperdir=");
  }

  /** The lower chain in each of its three cases. */
  lemma LowerChain(root: string, s: Snapshot, anchor: string, flag: bool)
    ensures flag && s.kind == View ==> LowerDirs(root, s, anchor, flag) == [UpperPath(root, anchor)]
    ensures !(flag && s.kind == View) && |s.parentIDs| == 0 ==> LowerDirs(root, s, anchor, flag) == [SnapshotsDir(root)]
    ensures !(flag && s.kind == View) && |s.parentIDs| > 0 ==>
      var l := LowerDirs(root, s, anchor, flag);
      |l| == |s.parentIDs| && forall i :: 0 <= i < |l| ==> l[i] == UpperPath(root, s.parentIDs[i])
  {
  }

  /** The chain is one `lowerdir=` option, joined with ':', right after the work and upper options. */
  lemma LowerOption(root: string, s: Snapshot, anchor: string, flag: bool)
    ensures var o := ComposedMount(root, s, anchor, flag)[0].options;
      var k := |OverlayPrefix(root, s)|;
      k < |o| && o[k] == "lowerdir=" + Join(":", LowerDirs(root, s, anchor, flag))
  {
    ComposedOptions(root, s, anchor, flag);
  }

  /**
    Whatever the flag, the options are the overlay options followed by exactly
    one guest-pull option, and that option encodes source "", no metadata and
    the overlay options as its own options.
   */
  lemma GuestOptionLast(root: string, s: Snapshot, anchor: string, flag: bool)
    ensures var base := OverlayOptions(root, s, anchor, flag);
      var o := ComposedMount(root, s, anchor, flag)[0].options;
      |o| == |base| + 1 && o[..|base|] == base &&
      HasPrefix(o[|base|], GuestPull.KataVirtualVolumeOptionName + "=") &&
      GuestPull.DecodeVolumeOption(o[|base|]) ==
        Some((GuestPull.KataVirtualVolumeOptionName, GuestPull.GuestPullVolume("", base, map[])))
  {
    ComposedOptions(root, s, anchor, flag);
    var base := OverlayOptions(root, s, anchor, flag);
    var g := GuestOption(base);
    GuestPull.PrepareGuestPullMountsDecodes("", base, map[]);
    assert (base + [g])[..|base|] == base;
    assert (base + [g])[|base|] == g;
  }

  /** No option before the last one carries the guest-pull volume key. */
  lemma GuestOptionOnce(root: string, s: Snapshot, anchor: string, flag: bool)
    ensures var o := OverlayOptions(root, s, anchor, flag);
      forall i :: 0 <= i < |o| ==> !HasPrefix(o[i], GuestPull.KataVirtualVolumeOptionName + "=")
  {
    var o := OverlayOptions(root, s, anchor, flag);
    var key := GuestPull.KataVirtualVolumeOptionName + "=";
    assert key[0] == 'i';
    forall i | 0 <= i < |o| ensures !HasPrefix(o[i], key) {
      assert o[i][0] == 'w' || o[i][0] == 'u' || o[i][0] == 'l';
      FirstCharDiffers(o[i], key);
    }
  }

  /** Only a flagged View reads the anchor: for every other kind, anchor and flag make no difference. */
  lemma AnchorIrrelevant(root: string, s: Snapshot, anchor: string, flag: bool, anchor': string, flag': bool)
    requires s.kind != View
    ensures ComposedMount(root, s, anchor, flag) == ComposedMount(root, s, anchor', flag')
  {
    assert LowerDirs(root, s, anchor, flag) == LowerDirs(root, s, anchor', flag');
  }

  /** Without the flag the anchor is never read, whatever the kind. */
  lemma UnflaggedIgnoresAnchor(root: string, s: Snapshot, anchor: string, anchor': string)
    ensures ComposedMount(root, s, anchor, false) == ComposedMount(root, s, anchor', false)
  {
    assert LowerDirs(root, s, anchor, false) == LowerDirs(root, s, anchor', false);
  }
}
