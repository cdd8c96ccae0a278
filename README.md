# guest-pull snapshotter, modelled in Dafny

The guest-pull snapshotter is a containerd snapshotter for Kata Containers.
It keeps its snapshots under `<root>/snapshots/<id>`, with `fs` and, for an
Active snapshot, `work`. It records them in containerd's metadata store.
Each store access runs inside a withTransaction of its own: Mounts runs up
to three read-only transactions, View two (a lookup, then the create), and
Prepare one or two (the create, then a commit or a lookup when a label asks
for one). Every mount it returns is a single `fuse.guest-pull-overlayfs`
mount. That mount's overlay options end with an
`io.katacontainers.volume=<base64 JSON>` option, which tells the Kata runtime
to pull the image inside the guest.

The operation, the snapshot's kind and two labels decide what a mount
stacks as its lower directories:
- Prepare of a snapshot with the ref label (`containerd.io/snapshot.ref`)
  commits it straight to its target. It answers AlreadyExists when that
  commit succeeds or finds the target taken. On any other commit error it
  returns no mounts and no error (snapshot/snapshot.go:103-111);
- a View that is actually created is stacked over its parent's `fs`
  directory alone (snapshot/snapshot.go:283). A View whose key is already
  taken is not created: createSnapshot swallows the store's AlreadyExists
  (snapshot/snapshot.go:319-345), and View answers success with a mount over
  `<root>/snapshots`;
- Mounts of an existing View with the guest-pull label
  (`containerd.io/snapshot/guestpull`) stacks the View's own `fs` directory
  (snapshot/snapshot.go:196-211);
- every other mount (an Active snapshot, with or without the guest-pull
  label, and a View without it) is stacked over the parent chain, or over
  `<root>/snapshots` when there is no parent (snapshot/snapshot.go:421-434).

The `guest-pull-overlayfs` mount helper does the reverse. It reads the
argument vector containerd passes to a fuse helper and drops the guest-pull
volume option. It then folds the remaining options into a mount(2) flag set
and a data string.

The model has these modules:

- `Wrappers`, `Errors`: option and result types, and errors with the class
  that `errdefs` tests (NotFound, AlreadyExists, FailedPrecondition,
  InvalidArgument).
- `Strings`: `strings.Split`/`strings.Join` and `filepath.Join` (segments
  joined with `/`, empty segments dropped). Also the byte order encoding/json
  uses to sort map keys.
- `Base64`, `Utf8`, `VolumeJson`: the encoding pipeline of the volume option.
  UTF-8, then encoding/json output for the fixed `KataVirtualVolume` schema,
  then standard base64 with padding. Each stage has a decoder and a proved
  round trip.
- `GuestPull`: `ValidateVolumeConfig` and `PrepareGuestPullMounts`.
- `Mounts`: the path layout, `IsGuestPullMode` and `mountGuestPull`.
- `MountHelper`: `parseArgs`, `parseOptions`, `run` and the exit status of
  `main`.
- `Storage`: the metadata-store operations the snapshotter calls, as
  functions over a map from key to record.
- `Snapshotter`: the snapshotter object.
  - It is a class whose fields are the root, the owner, the store, the
    directory tree and the open transaction.
  - Its methods follow the Go methods step by step.
  - Each method's result and new state are tied to a specification function.
  - Every failure of the operating system or of the store is a parameter
    (`World`, `Fault`). So is an id the store issues and a name
    `os.MkdirTemp` picks.
- `SnapshotProperties`: what those specification functions promise.
  - where createSnapshot can stop and what each stop leaves behind;
  - Commit, Usage, Mounts, View and Prepare.

## Model

| member | source | states |
|---|---|---|
| Errors.Wrap | snapshot/snapshot.go:90 | errors.Wrap keeps a nil error nil; any other error keeps its errdefs class and gets the context in front of its message |
| Strings.Split | cmd/guest-pull-overlayfs/main.go:50 | strings.Split always yields at least one piece |
| Strings.SplitPiecesFree | cmd/guest-pull-overlayfs/main.go:50 | no piece of strings.Split contains the separator |
| Strings.JoinSplit | cmd/guest-pull-overlayfs/main.go:50 | joining the pieces of a split with its separator gives back the string |
| Strings.SplitJoin | cmd/guest-pull-overlayfs/main.go:50 | splitting a join of separator-free parts gives back the parts |
| Strings.SplitFreePrefix | cmd/guest-pull-overlayfs/main.go:50 | a separator-free prefix merges into the first piece of the split |
| Strings.JoinFree | cmd/guest-pull-overlayfs/main.go:109 | strings.Join introduces no character that neither the separator nor the parts contain |
| Strings.NonEmpty | snapshot/snapshot.go:457 | filepath.Join's dropping of empty segments leaves only non-empty segments |
| Strings.NonEmptyFree | snapshot/snapshot.go:457 | dropping empty segments introduces no character |
| Strings.LexReflexive | guest-pull/guest-pull.go:78 | the byte order json.Marshal sorts map keys by is reflexive |
| Strings.LexTotal | guest-pull/guest-pull.go:78 | that order is total |
| Strings.LexAntisymmetric | guest-pull/guest-pull.go:78 | that order is antisymmetric |
| Strings.LexTransitive | guest-pull/guest-pull.go:78 | that order is transitive |
| Strings.LeastExists | guest-pull/guest-pull.go:78 | every non-empty key set has a least key |
| Strings.LeastUnique | guest-pull/guest-pull.go:78 | the least key is unique |
| Strings.SortedKeys | guest-pull/guest-pull.go:78 | the keys of a map in the order json.Marshal writes them: every key exactly once, none added, in increasing order |
| Strings.LeastCons | guest-pull/guest-pull.go:78 | the least key followed by the sorted rest is a sorted listing of the whole set |
| Base64.AlphabetIndex | guest-pull/guest-pull.go:83 | the standard alphabet is decoded back to its index and contains neither `=` nor `,` |
| Base64.Encode | guest-pull/guest-pull.go:83 | StdEncoding output has length 4·⌈n/3⌉ and only alphabet or padding characters |
| Base64.OctetsRoundTrip | guest-pull/guest-pull.go:83 | the three octets re-assembled from their 6-bit groups are the original octets |
| Base64.BlockRoundTrip | guest-pull/guest-pull.go:83 | a full 3-byte block decodes back from its 4 characters |
| Base64.TailRoundTrip | guest-pull/guest-pull.go:83 | a padded 1- or 2-byte tail decodes back |
| Base64.RoundTrip | guest-pull/guest-pull.go:83 | decoding the encoding of any byte string gives the byte string |
| Base64.DecodeAfterBlock | guest-pull/guest-pull.go:83 | decoding proceeds block by block: a leading block decodes independently of the rest |
| Utf8.EncodeChar | guest-pull/guest-pull.go:78 | a character encodes to one to four bytes |
| Utf8.CharRoundTrip | guest-pull/guest-pull.go:78 | a character's encoding decodes back to it whatever follows, consuming exactly its own bytes |
| Utf8.TwoByteRoundTrip | guest-pull/guest-pull.go:78 | the same for two-byte sequences |
| Utf8.ThreeByteRoundTrip | guest-pull/guest-pull.go:78 | the same for three-byte sequences |
| Utf8.FourByteRoundTrip | guest-pull/guest-pull.go:78 | the same for four-byte sequences |
| Utf8.RoundTrip | guest-pull/guest-pull.go:78 | decoding the UTF-8 of any string gives the string |
| VolumeJson.Hex4RoundTrip | guest-pull/guest-pull.go:78 | each of the four hex digits of a `\u` escape reads back as its nibble of the code |
| VolumeJson.ShortEscapeRoundTrip | guest-pull/guest-pull.go:78 | a two-character escape reads back as its character |
| VolumeJson.UnicodeEscapeParse | guest-pull/guest-pull.go:78 | a `\u` escape of a control or HTML-sensitive character reads back as that character |
| VolumeJson.UnicodeEscapeRoundTrip | guest-pull/guest-pull.go:78 | the same inside a string body |
| VolumeJson.EscapeCharRoundTrip | guest-pull/guest-pull.go:78 | every character, escaped as encoding/json escapes it, reads back as itself |
| VolumeJson.EscapeRoundTrip | guest-pull/guest-pull.go:78 | an escaped string body followed by the closing quote reads back, leaving the rest |
| VolumeJson.StringRoundTrip | guest-pull/guest-pull.go:78 | a JSON string literal reads back as its string, leaving the rest |
| VolumeJson.SkipRoundTrip | guest-pull/guest-pull.go:78 | skipping a character in front of a text returns the text |
| VolumeJson.ExpectRoundTrip | guest-pull/guest-pull.go:78 | matching a literal in front of a text returns the text |
| VolumeJson.ItemStep | guest-pull/guest-pull.go:36 | one string item followed by a comma reads back and continues with the rest |
| VolumeJson.ItemLast | guest-pull/guest-pull.go:36 | the last item followed by `]` reads back |
| VolumeJson.ItemsRoundTrip | guest-pull/guest-pull.go:36 | a non-empty item list reads back |
| VolumeJson.ListRoundTrip | guest-pull/guest-pull.go:36 | the JSON array of `options` reads back as the same list, leaving the rest |
| VolumeJson.ListAfterBracket | guest-pull/guest-pull.go:36 | after `[`, an immediate `]` is the empty list and anything else is the item list |
| VolumeJson.ItemsAfterBracket | guest-pull/guest-pull.go:36 | a rendered non-empty item list does not start with `]` and reads back |
| VolumeJson.EntriesOf | guest-pull/guest-pull.go:28 | there is one key/value pair for each listed key |
| VolumeJson.EntriesRoundTrip | guest-pull/guest-pull.go:28 | written entries read back as the same pairs |
| VolumeJson.EntryStep | guest-pull/guest-pull.go:28 | one entry followed by a comma reads back and continues with the rest |
| VolumeJson.EntryLast | guest-pull/guest-pull.go:28 | the last entry followed by `}` reads back |
| VolumeJson.EntryRoundTrip | guest-pull/guest-pull.go:28 | one `"key":"value"` entry reads back |
| VolumeJson.ToMapEntries | guest-pull/guest-pull.go:28 | the pairs read back rebuild the map restricted to the listed keys |
| VolumeJson.QuoteFirst | guest-pull/guest-pull.go:28 | a quoted string starts with `"` |
| VolumeJson.EntriesFirst | guest-pull/guest-pull.go:28 | written entries of a non-empty map start with `"`, so never with `}` |
| VolumeJson.KeysCover | guest-pull/guest-pull.go:28 | a key listing that covers the map's domain rebuilds exactly the map |
| VolumeJson.ObjectRoundTrip | guest-pull/guest-pull.go:28 | a written map object reads back as its entries |
| VolumeJson.MapRoundTrip | guest-pull/guest-pull.go:28 | the `metadata` object reads back as the same map, leaving the rest |
| VolumeJson.Fields | guest-pull/guest-pull.go:33 | `volume_type` is always written first |
| VolumeJson.FieldsOmitEmpty | guest-pull/guest-pull.go:32-38 | the members written are exactly `volume_type` and, when set, `source`, `fs_type`, `options` and `image_pull` (the `omitempty` tags) |
| VolumeJson.ImagePullRoundTrip | guest-pull/guest-pull.go:27-29 | the `image_pull` object reads back as the same ImagePullVolume, leaving the rest |
| VolumeJson.FieldHead | guest-pull/guest-pull.go:32-38 | a member reads back its name and then the colon |
| VolumeJson.FieldRoundTrip | guest-pull/guest-pull.go:32-38 | each member reads back as itself, leaving the rest |
| VolumeJson.OptionsFieldRoundTrip | guest-pull/guest-pull.go:36 | the `options` member reads back |
| VolumeJson.ImagePullFieldRoundTrip | guest-pull/guest-pull.go:37 | the `image_pull` member reads back |
| VolumeJson.TextFieldRoundTrip | guest-pull/guest-pull.go:33-35 | a `volume_type`, `source` or `fs_type` member reads back |
| VolumeJson.FieldNamesDistinct | guest-pull/guest-pull.go:33-37 | the five JSON member names are distinct |
| VolumeJson.FieldsRoundTrip | guest-pull/guest-pull.go:32-38 | the written member list reads back as the same member list, leaving the rest |
| VolumeJson.FieldsLast | guest-pull/guest-pull.go:32-38 | the last member followed by `}` reads back |
| VolumeJson.FieldsCons | guest-pull/guest-pull.go:32-38 | a member followed by a comma reads back and continues with the rest |
| VolumeJson.ParseFieldsClosing | guest-pull/guest-pull_test.go:159 | a member followed by `}` ends the member list |
| VolumeJson.ParseFieldsComma | guest-pull/guest-pull_test.go:159 | a member followed by a comma continues the member list |
| VolumeJson.AssignFields | guest-pull/guest-pull_test.go:158-159 | assigning the members read, starting from the zero volume, rebuilds the volume |
| VolumeJson.AssignAllOne | guest-pull/guest-pull_test.go:158-159 | assigning a one-member list is assigning that member |
| VolumeJson.AssignAllAppend | guest-pull/guest-pull_test.go:158-159 | members are assigned in the order they are read: assigning a + b is assigning a, then b |
| VolumeJson.Marshal | guest-pull/guest-pull.go:78 | json.Marshal of a volume is one JSON object: it opens with `{` and closes with `}` |
| VolumeJson.Unmarshal | guest-pull/guest-pull_test.go:158-159 | json.Unmarshal accepts only text that opens an object, and `{}` gives the zero volume |
| VolumeJson.MarshalRoundTrip | guest-pull/guest-pull_test.go:158-159 | json.Unmarshal into a zero KataVirtualVolume of json.Marshal of any volume gives that volume |
| GuestPull.ValidateVolumeConfig | guest-pull/guest-pull.go:41-55 | the configuration is valid exactly when it is present, its type is non-empty, and a guest-pull type carries ImagePull; each failure gives its own error |
| GuestPull.GuestPullVolume | guest-pull/guest-pull.go:65-72 | the volume built has the guest-pull type, the given source and options, no fs type, and the labels as ImagePull metadata |
| GuestPull.PrepareGuestPullMounts | guest-pull/guest-pull.go:60-88 | the result is always exactly one option, and that option decodes (split at `=`, base64, JSON) to the option name and the guest-pull volume built from the arguments |
| GuestPull.PrepareGuestPullMountsDecodes | guest-pull/guest-pull.go:60-88 | PrepareGuestPullMounts returns no error and exactly one option; the option starts with `io.katacontainers.volume=` and decodes (split at `=`, base64, JSON) to the volume built from its arguments, which passes validation |
| GuestPull.VolumeOptionPrefix | guest-pull/guest-pull.go:84 | the option is `io.katacontainers.volume=` followed by the encoding |
| GuestPull.SplitOption | guest-pull/guest-pull_test.go:136-148 | the test's splitOption fails exactly when there is no `=`; otherwise name `=` value is the option and the name holds no `=` |
| GuestPull.SplitOptionName | guest-pull/guest-pull_test.go:136-148 | splitting `name=value` with an `=`-free name gives back name and value |
| GuestPull.NameHasNoEquals | guest-pull/guest-pull.go:20 | the option name contains no `=` |
| GuestPull.OptionRoundTrip | guest-pull/guest-pull_test.go:89-103 | any volume's option decodes back to the option name and that volume |
| GuestPull.GuestPullFields | guest-pull/guest-pull.go:65-72 | the JSON of a guest-pull volume has `volume_type` and `image_pull`, plus `source` and `options` when non-empty, and never `fs_type` |
| GuestPull.ImagePullHasMetadata | guest-pull/guest-pull.go:28 | `metadata` is always written, even for empty labels |
| Mounts.PathLayout | snapshot/snapshot.go:456-466 | upperPath and lowerPath agree; with an id they are `<root>/snapshots/<id>/fs` and `…/work`; with the empty id filepath.Join gives `<root>/snapshots/fs` |
| Mounts.JoinTwo | snapshot/snapshot.go:305 | filepath.Join of two non-empty segments puts one `/` between them |
| Mounts.JoinThree | snapshot/snapshot.go:457 | joining three segments with `/` puts the separator between each, as upperPath does for the empty id |
| Mounts.JoinFour | snapshot/snapshot.go:457 | filepath.Join of four non-empty segments puts `/` between them |
| Mounts.GuestPullModeIgnoresValue | snapshot/snapshot.go:468-471 | guest-pull mode depends on the label's presence only, never on its value |
| Mounts.MountGuestPull | snapshot/snapshot.go:411-454 | mountGuestPull never fails (PrepareGuestPullMounts cannot fail here) and returns the composed mount |
| Mounts.CollectLowerPaths | snapshot/snapshot.go:421-434 | the loop over the parent ids collects the lower directories the composition specifies |
| Mounts.ComposedOptions | snapshot/snapshot.go:436-453 | one `fuse.guest-pull-overlayfs` mount whose options are the overlay options followed by their guest-pull volume option |
| Mounts.MountShape | snapshot/snapshot.go:414-419 | the mount's type and source; an Active snapshot has four options, starting with workdir and upperdir |
| Mounts.NoUpperUnlessActive | snapshot/snapshot.go:414-419 | a snapshot that is not Active has exactly lowerdir and the volume option, with no workdir or upperdir |
| Mounts.LowerDirs | snapshot/snapshot.go:421-434 | there is always a lower directory: exactly one for a flagged View, and one per parent for any other snapshot with parents |
| Mounts.ComposedMount | snapshot/snapshot.go:411-454 | one `fuse.guest-pull-overlayfs` mount with source `overlay`, whose options are the overlay options (work and upper for Active, then `lowerdir=`) followed by exactly one more, the guest-pull option |
| Mounts.LowerChain | snapshot/snapshot.go:421-434 | a flagged View stacks the anchor's `fs` alone; otherwise the lower directories are the parents' `fs` in chain order, or `<root>/snapshots` with no parent |
| Mounts.LowerOption | snapshot/snapshot.go:434 | lowerdir is the `:`-joined lower directories |
| Mounts.GuestOptionLast | snapshot/snapshot.go:438-445 | the last option decodes to a guest-pull volume with no source, no labels, and the overlay options before it as its options |
| Mounts.GuestOptionOnce | snapshot/snapshot.go:414-434 | no overlay option is itself a volume option, so the volume option appears once |
| Mounts.AnchorIrrelevant | snapshot/snapshot.go:421-434 | apart from a View, the anchor id and flag do not change the mount |
| Mounts.UnflaggedIgnoresAnchor | snapshot/snapshot.go:421-434 | without the flag the anchor id does not change the mount |
| MountHelper.KeptOptions | cmd/guest-pull-overlayfs/main.go:50-56 | no kept option starts with `io.katacontainers.volume=`, and no more options are kept than given |
| MountHelper.ParsedArgs | cmd/guest-pull-overlayfs/main.go:30-64 | accepted arguments have type `overlay`, the non-empty target args[1] and at least one option, none of them a guest-pull volume option |
| MountHelper.ParseArgs | cmd/guest-pull-overlayfs/main.go:30-64 | the loop builds the argument record (or error) parseArgs specifies |
| MountHelper.ParseArgsErrors | cmd/guest-pull-overlayfs/main.go:30-64 | each error of parseArgs happens exactly when its check fails and the earlier checks pass; success exactly when all pass |
| MountHelper.InvalidFsTypeDistinct | cmd/guest-pull-overlayfs/main.go:41 | the invalid-fs-type error differs from the other three |
| MountHelper.KeptOptionsMembers | cmd/guest-pull-overlayfs/main.go:50-56 | an option is kept exactly when it is present and does not start with `io.katacontainers.volume=` |
| MountHelper.KeptOptionsAppend | cmd/guest-pull-overlayfs/main.go:50-56 | the filter keeps order and distributes over concatenation |
| MountHelper.KeptOptionsNone | cmd/guest-pull-overlayfs/main.go:50-56 | options that are all volume options filter down to nothing |
| MountHelper.KeptAll | cmd/guest-pull-overlayfs/main.go:50-56 | options with no volume option pass through unchanged |
| MountHelper.KeptDropsLast | cmd/guest-pull-overlayfs/main.go:50-56 | a trailing volume option is the only thing dropped |
| MountHelper.OnlyVolumeOptionsRejected | cmd/guest-pull-overlayfs/main.go:49-61 | a list of only volume options is rejected as empty options |
| MountHelper.DashOList | cmd/guest-pull-overlayfs/main.go:49-63 | with `-o <list>` the result is the kept options, or the empty-options error when none are kept |
| MountHelper.ParseArgsDropsVolumeOption | cmd/guest-pull-overlayfs/main.go:49-63 | overlay options followed by a snapshotter volume option parse to the overlay options alone |
| MountHelper.DropsLast | cmd/guest-pull-overlayfs/main.go:49-63 | the same for any trailing comma-free option that starts with the key |
| MountHelper.KeyMatchesOptionName | cmd/guest-pull-overlayfs/main.go:17 | the helper's key is the snapshotter's option name followed by `=` |
| MountHelper.FoldStep | cmd/guest-pull-overlayfs/main.go:101-107 | one more option ORs in its table bits, or appends itself to data |
| MountHelper.FlagsOf | cmd/guest-pull-overlayfs/main.go:101-107 | every option's table bits are in the flag set |
| MountHelper.DataOf | cmd/guest-pull-overlayfs/main.go:101-107 | no data item is a table key, and there are no more items than options |
| MountHelper.ParseOptions | cmd/guest-pull-overlayfs/main.go:67-110 | the loop computes the flag set and the `,`-joined data parseOptions specifies |
| MountHelper.DataMembers | cmd/guest-pull-overlayfs/main.go:101-107 | an option is in data exactly when it is present and not a table key |
| MountHelper.FlagsMembers | cmd/guest-pull-overlayfs/main.go:101-107 | a flag is set exactly when some option's table entry contains it |
| MountHelper.FlagsIgnoreOrder | cmd/guest-pull-overlayfs/main.go:101-107 | flags depend only on which options are present |
| MountHelper.NoTableKeys | cmd/guest-pull-overlayfs/main.go:101-107 | options outside the table set no flag and pass to data unchanged |
| MountHelper.TableQuirks | cmd/guest-pull-overlayfs/main.go:68-94 | positive forms set the same bit as their negations (`rw` sets MS_RDONLY), `rbind` sets bind and rec, `defaults` sets nothing and is not data |
| MountHelper.TableKeyInitials | cmd/guest-pull-overlayfs/main.go:68-94 | no table key is empty or starts with `l`, `u` or `w` |
| MountHelper.NotTableKey | cmd/guest-pull-overlayfs/main.go:68-94 | an option starting with `l`, `u` or `w` is not a table key |
| MountHelper.RunSpec | cmd/guest-pull-overlayfs/main.go:113-128 | run succeeds only after calling mount(2) without a mount fault, and every mount call is an overlay at a non-empty target |
| MountHelper.ExitStatus | cmd/guest-pull-overlayfs/main.go:153-164 | the exit status is 0 or 1, and 0 only with at least four arguments and a mount call |
| MountHelper.Run | cmd/guest-pull-overlayfs/main.go:113-128 | run parses, folds the options and mounts, with the result its specification gives |
| MountHelper.RunOutcome | cmd/guest-pull-overlayfs/main.go:113-128 | mount(2) is called exactly when parsing succeeds, on an overlay at the target, with the kept options' flags and data; run succeeds exactly when parse and mount do; errors keep the class beneath them |
| MountHelper.ExitStatusZero | cmd/guest-pull-overlayfs/main.go:153-164 | main exits 0 exactly with at least four arguments that parse and a mount that succeeds |
| MountHelper.AppendFree | cmd/guest-pull-overlayfs/main.go:50 | appending a separator-free option keeps the list separator-free |
| MountHelper.VolumeOptionHasNoComma | guest-pull/guest-pull.go:84 | the volume option contains no comma, so it survives the helper's split |
| MountHelper.NameHasNoComma | guest-pull/guest-pull.go:20 | the option name has no comma |
| MountHelper.EncodingHasNoComma | guest-pull/guest-pull.go:83 | base64 text has no comma |
| MountHelper.NoCommaConcat | guest-pull/guest-pull.go:84 | `name=encoding` has no comma when neither part has one |
| MountHelper.PathsCommaFree | snapshot/snapshot.go:456-462 | snapshot paths under a comma-free root and id have no comma |
| MountHelper.ListFree | snapshot/snapshot.go:457 | filepath.Join of comma-free segments has no comma |
| MountHelper.OverlayOptionsCommaFree | snapshot/snapshot.go:414-434 | with a comma-free root and ids, no overlay option has a comma |
| MountHelper.ComposedMountParses | cmd/guest-pull-overlayfs/main.go:30-64 | the mount the snapshotter composes, handed to the helper as `overlay <target> -o <options>`, parses to exactly its overlay options |
| MountHelper.OverlayOptionsAreData | cmd/guest-pull-overlayfs/main.go:101-107 | the snapshotter's overlay options set no flag and all go to data |
| MountHelper.ComposedMountRuns | cmd/guest-pull-overlayfs/main.go:113-128 | end to end: the composed mount makes run call mount(2) for an overlay at the target with no flags and the overlay options as data |
| Storage.ApplyOpts | snapshot/snapshot.go:87-92 | applying the options succeeds exactly when every option is WithLabels |
| Storage.ApplyFrom | snapshot/snapshot.go:294-298 | the same, starting from given labels |
| Storage.ApplyFromAppend | snapshot/snapshot.go:106 | one more WithLabels at the end merges its labels over the rest, unless an earlier option failed |
| Storage.ApplyOptsAppend | snapshot/snapshot.go:106 | the same from no labels |
| Storage.GetInfo | snapshot/snapshot.go:389 | the lookup succeeds exactly for a stored key, with its record; otherwise NotFound |
| Storage.GetSnapshot | snapshot/snapshot.go:400 | the lookup succeeds exactly for a key stored as Active or View, with its snapshot; a missing key is NotFound and a key of any other kind FailedPrecondition |
| Storage.CreateSnapshot | snapshot/snapshot.go:319 | storage.CreateSnapshot as the snapshotter relies on it; its contract is stated by CreateSnapshotEffect and CreateSnapshotErrors |
| Storage.CreateSnapshotErrors | snapshot/snapshot.go:319 | with valid options, a missing parent is NotFound, a parent that is not Committed InvalidArgument, then the empty key a plain error (a bucket needs a name) and a non-empty existing key AlreadyExists |
| Storage.CommitActive | snapshot/snapshot.go:171 | storage.CommitActive as the snapshotter relies on it; its contract is stated by CommitActiveEffect and CommitActiveErrors |
| Storage.CommitActiveErrors | snapshot/snapshot.go:171 | with valid options, the empty name is a plain error and a taken name AlreadyExists, whatever the key holds; with a free non-empty name a missing key is NotFound and a key that is not Active FailedPrecondition |
| Storage.CreateSnapshotEffect | snapshot/snapshot.go:319 | creation succeeds exactly when the options apply, the key is non-empty and new, and any parent is Committed; it then adds only that key, with the new id and the parent's chain |
| Storage.CommitActiveEffect | snapshot/snapshot.go:171 | commit succeeds exactly when the options apply, the key is Active and the name is non-empty and free; it then moves the record as Committed with the usage and labels |
| Snapshotter.TransactionDiscipline | snapshot/snapshot.go:124-155 | withTransaction calls commit at most once and rollback at most once; it commits exactly when writable with no body or commit error, rolls back exactly when it does not commit; body errors pass through, commit errors keep their class |
| Snapshotter.RunEffect | snapshot/snapshot.go:124-155 | a transaction succeeds when begin, body and (if writable) commit do; only a committed writable one changes the store, to the body's result |
| Snapshotter.LookupInfo | snapshot/snapshot.go:387-394 | getSnapshotInfo succeeds exactly when the transaction starts and the key is stored, with its record |
| Snapshotter.LookupSnapshot | snapshot/snapshot.go:396-409 | getSnapshot succeeds exactly when the transaction starts and the key is stored as Active or View, with its snapshot; a stored key of another kind is FailedPrecondition |
| Snapshotter.NewSnapshotter | snapshot/snapshot.go:52-78 | construction fails exactly for an empty root, with its message; otherwise a fresh snapshotter over the given state |
| Snapshotter.ApplyOptions | snapshot/snapshot.go:87-92 | the loop applies the options as specified, stopping at the first failure |
| Snapshotter.JoinedNonEmpty | snapshot/snapshot.go:305 | filepath.Join with a non-empty segment is non-empty |
| Snapshotter.PrepareDirectory | snapshot/snapshot.go:364-381 | succeeds exactly when MkdirTemp, the `fs` mkdir and, for Active, the `work` mkdir succeed; a failed MkdirTemp returns "" and leaves the tree; otherwise only the temporary directory is added, and on success it holds `fs` owned by the process and `work` exactly for Active |
| Snapshotter.SetupSnapshotDirectory | snapshot/snapshot.go:348-362 | without parents nothing happens; after a successful setup with parents the first parent's `fs` exists, and when it already existed the staged `fs` has taken its owner |
| Snapshotter.Cleanup | snapshot/snapshot.go:383-385 | without a fault the directory is removed and every other one kept; with a fault the wrapped error is returned and the tree is unchanged |
| Snapshotter.TempDirNonEmpty | snapshot/snapshot.go:365 | the snapshots directory and a MkdirTemp directory are non-empty paths |
| Snapshotter.Snapshotter.constructor | snapshot/snapshot.go:74-77 | the snapshotter holds the root, owner, store and tree, with no transaction open |
| Snapshotter.Snapshotter.Begin | snapshot/snapshot.go:125-128 | a failed begin returns the wrapped error and leaves no transaction; otherwise the transaction opens on the current store |
| Snapshotter.Snapshotter.Finish | snapshot/snapshot.go:130-154 | closing a transaction counts the commit and rollback calls FinishOutcome gives (see TransactionDiscipline) and installs its view only when committed |
| Snapshotter.Snapshotter.GetSnapshotInfo | snapshot/snapshot.go:387-394 | a read-only lookup: the store unchanged, the result LookupInfo gives, one rollback when the transaction started |
| Snapshotter.Snapshotter.GetSnapshot | snapshot/snapshot.go:396-409 | the same for the snapshot, with the result LookupSnapshot gives |
| Snapshotter.Snapshotter.StageSnapshot | snapshot/snapshot.go:305-334 | the transaction body of createSnapshot, with the result, tree and view StagedBody gives |
| Snapshotter.Snapshotter.PlaceSnapshot | snapshot/snapshot.go:311-334 | the body after os.MkdirTemp, with its deferred cleanup: the result, tree and view Placed gives |
| Snapshotter.Snapshotter.CreateInTransaction | snapshot/snapshot.go:304-335 | the writable transaction of createSnapshot leaves the result, store, tree and call counts CreateTransaction gives (FinishOutcome around StagedBody) |
| Snapshotter.Snapshotter.CreateSnapshot | snapshot/snapshot.go:286-346 | createSnapshot's labels, snapshot, error, store, tree and call counts are those CreateSpec gives (the options, then CreateTransaction, then Concluded) |
| Snapshotter.Snapshotter.Commit | snapshot/snapshot.go:157-177 | Commit's error and store are those CommitRun gives (Run around CommitBody) |
| Snapshotter.Snapshotter.UsageOf | snapshot/snapshot.go:251-268 | Usage leaves the store alone and answers as UsageSpec gives |
| Snapshotter.Snapshotter.SnapshotMounts | snapshot/snapshot.go:179-213 | Mounts leaves the store alone and answers as MountsSpec gives |
| Snapshotter.Snapshotter.MountSnapshot | snapshot/snapshot.go:196-211 | the anchor lookup and the mount of Mounts, as MountAt over MountsAnchor gives |
| Snapshotter.Snapshotter.ChooseMountsAnchor | snapshot/snapshot.go:196-209 | the anchor switch of Mounts, as MountsAnchor gives |
| Snapshotter.Snapshotter.View | snapshot/snapshot.go:270-284 | View's result, store, tree and call counts are those ViewSpec gives |
| Snapshotter.Snapshotter.Prepare | snapshot/snapshot.go:84-122 | Prepare fails on a bad option before touching anything; fails wrapped when CreateSpec reports an error; otherwise continues as PrepareCreated gives for the created snapshot |
| Snapshotter.Snapshotter.PrepareActive | snapshot/snapshot.go:94-121 | the create-then-continue part of Prepare: CreateSpec, then PrepareCreated |
| Snapshotter.Snapshotter.UseCreated | snapshot/snapshot.go:99-121 | with the ref label, commit to the target as TargetCommit gives; otherwise the mount MountAt over PrepareAnchor gives, leaving the store alone |
| Snapshotter.Snapshotter.CommitToTarget | snapshot/snapshot.go:103-111 | the commit-to-target branch of Prepare, as TargetCommit gives |
| Snapshotter.Snapshotter.ChoosePrepareAnchor | snapshot/snapshot.go:113-121 | the anchor lookup of Prepare, as PrepareAnchor gives |
| SnapshotProperties.SnapshotDirNonEmpty | snapshot/snapshot.go:328 | `<root>/snapshots/<id>` is never the empty path, so a rename sets `path` |
| SnapshotProperties.PlacedStages | snapshot/snapshot.go:311-334 | after MkdirTemp the body stops at the store, setup or rename, or completes; `path` is set from the rename on; only the store and rename errors reach the outer `err` |
| SnapshotProperties.BodyStages | snapshot/snapshot.go:305-334 | the body stops at one of five stages, errs exactly when it does not complete, and sets `path` exactly from the rename on |
| SnapshotProperties.TransactionStages | snapshot/snapshot.go:304-335 | the transaction commits exactly when the body completes; otherwise the store is unchanged and there is one rollback (none when begin failed) |
| SnapshotProperties.CreateErrors | snapshot/snapshot.go:286-346 | createSnapshot errs exactly after a failed option, rename or commit, and then returns the zero snapshot; a failed begin, temporary directory, store create or setup is reported as success |
| SnapshotProperties.CreateSwallowedSnapshot | snapshot/snapshot.go:304-345 | a swallowed failure returns the zero snapshot after a failed begin, temporary directory or store create, and the snapshot the store created after a failed setup, although that create was rolled back; the store is unchanged either way |
| SnapshotProperties.CreateStore | snapshot/snapshot.go:286-346 | the store changes only when every step succeeds, exactly as storage.CreateSnapshot says, in one commit with no rollback |
| SnapshotProperties.CreateSwallowsDuplicateKey | snapshot/snapshot.go:319-322 | an existing key fails in the store, and createSnapshot then returns success with the zero snapshot, nothing created and nothing committed |
| SnapshotProperties.CreateSwallowsEmptyKey | snapshot/snapshot.go:319-322 | the empty key, with the parent checks passing, fails in the store's bucket create, and createSnapshot then returns success with the zero snapshot and the store unchanged |
| SnapshotProperties.PlacedDisk | snapshot/snapshot.go:311-332 | a failed store create or setup leaves the tree; a failed rename leaves the temporary directory |
| SnapshotProperties.SetupKeeps | snapshot/snapshot.go:348-362 | setupSnapshotDirectory only adds or updates directories, and changes nothing when it fails |
| SnapshotProperties.BodyDisk | snapshot/snapshot.go:305-334 | a failure right after MkdirTemp or in setup leaves the temporary directory; a failed create or rename removes it unless removal fails |
| SnapshotProperties.TransactionDisk | snapshot/snapshot.go:304-335 | the transaction leaves the tree its body leaves |
| SnapshotProperties.CreateKeepsTree | snapshot/snapshot.go:294-309 | createSnapshot leaves the tree alone when the options, the begin or MkdirTemp fail |
| SnapshotProperties.CreateLeavesTemp | snapshot/snapshot.go:306-326 | the temporary directory stays after a failure right after MkdirTemp or in setup, and after a failed create it is gone exactly when its removal succeeds |
| SnapshotProperties.CreateReclaims | snapshot/snapshot.go:328-343 | after a failed rename or commit the final path is reclaimed unless removal fails, and the error is returned |
| SnapshotProperties.CreateReclaimError | snapshot/snapshot.go:337-342 | the reclaimed error keeps the transaction's class, with the removal failure chained in front exactly when removal failed |
| SnapshotProperties.ConcludedReclaim | snapshot/snapshot.go:337-345 | the same, stated for the conclusion of any transaction outcome |
| SnapshotProperties.PlacedLayout | snapshot/snapshot.go:324-332 | a placed snapshot is at `<root>/snapshots/<id>` with the staged contents, its `fs` owned like the first parent's `fs` when that exists |
| SnapshotProperties.SetupOwnership | snapshot/snapshot.go:348-362 | with a parent `fs` present the staged `fs` takes its owner; with it missing, that `fs` is created with the snapshotter's owner; without parents nothing changes |
| SnapshotProperties.BodyLayout | snapshot/snapshot.go:305-334 | a completed body leaves `fs`, `work` exactly for Active, and no temporary directory |
| SnapshotProperties.TransactionBody | snapshot/snapshot.go:304-335 | a started transaction leaves the body's tree, snapshot and path, and completes exactly when the body does and commit succeeds |
| SnapshotProperties.CreateLayout | snapshot/snapshot.go:286-346 | a fully successful createSnapshot leaves the layout BodyLayout describes |
| SnapshotProperties.CommitEffect | snapshot/snapshot.go:157-177 | Commit succeeds exactly when begin, lookup, usage, options, Active kind, non-empty free name and commit all succeed; it then moves the record as Committed with the measured usage and labels; otherwise the store is unchanged |
| SnapshotProperties.CommitErrors | snapshot/snapshot.go:160-175 | a missing key is NotFound; once the usage is measured, the empty name is a plain error and a taken name AlreadyExists whatever the key's kind, and with a free name a key that is not Active is FailedPrecondition |
| SnapshotProperties.UsageSource | snapshot/snapshot.go:251-268 | Usage answers stored usage for non-Active snapshots and measures an Active one's upper directory; it fails only when the lookup or the measurement does |
| SnapshotProperties.CommitThenUsage | snapshot/snapshot.go:157-177 | after a successful Commit the new name reports the usage measured at commit, and the old key is gone |
| SnapshotProperties.MountsErrors | snapshot/snapshot.go:179-213 | Mounts fails exactly when a lookup fails: the key's info, its snapshot (only an Active or View key has one; any other kind is FailedPrecondition), or the parent of an Active guest-pull snapshot |
| SnapshotProperties.MountsGuestModeOnlyViews | snapshot/snapshot.go:187-211 | Mounts answers only for an Active or View snapshot; guest-pull mode changes only a View's mount, which stacks its own `fs`; an Active snapshot, with the label or without, gets the plain overlay mount over its parent chain |
| SnapshotProperties.ViewNeedsParent | snapshot/snapshot.go:273-276 | without the parent nothing is created and the error is NotFound |
| SnapshotProperties.ViewResult | snapshot/snapshot.go:270-284 | View succeeds exactly when the parent lookup and createSnapshot do, and mounts the created snapshot over the parent |
| SnapshotProperties.ViewAnchor | snapshot/snapshot.go:270-284 | a created View is stored under its key and mounted over its parent's `fs` alone |
| SnapshotProperties.PrepareRefCommit | snapshot/snapshot.go:103-111 | with the ref label, Prepare answers AlreadyExists exactly when the commit succeeds or finds the target taken, and otherwise returns nothing; a successful commit leaves the target Committed with the guest-pull label |
| SnapshotProperties.PrepareRefEmptyTarget | snapshot/snapshot.go:103-110 | an empty ref label makes the commit fail with an error that is not AlreadyExists, so Prepare returns no mounts, no error and an unchanged store |
| SnapshotProperties.PrepareAnchorChoice | snapshot/snapshot.go:113-121 | outside guest-pull mode no lookup; inside it, the id of the key just created |
| SnapshotProperties.PrepareMountIgnoresAnchor | snapshot/snapshot.go:113-121 | the anchor never changes an Active snapshot's mount |
| SnapshotProperties.PreparePlainMount | snapshot/snapshot.go:113-121 | without the ref label Prepare returns the plain overlay mount of the snapshot created and leaves the store alone |
| SnapshotProperties.ViewDuplicateKey | snapshot/snapshot.go:270-284 | View of a taken key with its parent stored succeeds without creating anything: the store is unchanged and the mount is of the zero snapshot, whose single lower directory is `<root>/snapshots`, not the parent's `fs` |
| SnapshotProperties.PrepareDuplicateKey | snapshot/snapshot.go:94-121 | Prepare for an existing key returns, with no error, a mount of the zero snapshot whose only lower directory is `<root>/snapshots` |

## Left out

- createSnapshot swallows most of its errors, and the model does the same. In snapshot/snapshot.go:304-345, a failed begin, temporary directory, store create or directory setup makes the transaction fail (and, once it has started, roll back). createSnapshot returns that error only when `path` is set (line 337), and `path` is set only at the rename (line 328). Otherwise it returns success (line 345): with the zero snapshot after a failed begin, temporary directory or store create, and with the snapshot the store created after a failed setup, although that create was rolled back. Prepare and View then carry on with that snapshot. See CreateErrors, CreateSwallowedSnapshot, CreateSwallowsDuplicateKey, CreateSwallowsEmptyKey, PrepareDuplicateKey and ViewDuplicateKey.
- Remove, Stat, Update, Walk and Close: thin wrappers over store calls that the core does not reason about.
- Logging (`log.G(ctx)`, `log.L`) is left out: it has no effect on results.
- main's log format, `-log-level` and `-version` flags (cmd/guest-pull-overlayfs/main.go:131-151) are left out: they are I/O only.
- unix.Mount, os.MkdirTemp, os.Mkdir, os.Stat, os.Lchown, os.Rename, os.RemoveAll, fs.DiskUsage, and the store's begin and commit are parameters. Each is a `World` fault, a tree of directories with owners, or a given usage. The model has no real file system.
- The names os.MkdirTemp picks and the ids the store issues are parameters of `World`.
- MS_* flag values are a set of flag names, not an integer word: parseOptions only ORs them.
- PrepareGuestPullMounts: the `ctx == nil` branch only replaces the logging context.
- PrepareGuestPullMounts: the json.Marshal error branch cannot fire for this struct of strings, string slices and string maps.
- PrepareGuestPullMounts: a nil `labels` map is not modelled. `ImagePullVolume.Metadata` has no `omitempty` (guest-pull/guest-pull.go:28), so json.Marshal writes `"metadata":null` for a nil map, which decodes back to a nil map that a deep comparison tells apart from an empty one. Dafny maps are never nil, so VolumeJson.Marshal always writes an object (`"metadata":{}` for an empty map). The snapshotter always passes an empty, non-nil map (snapshot/snapshot.go:438), so its own option is modelled exactly.
- VolumeJson: the JSON writer and reader cover only the `KataVirtualVolume` schema, not JSON in general. The reader reads members in any order, later members overwriting earlier ones, but does not skip unknown members or whitespace. It also differs from json.Unmarshal in two ways: it matches member names exactly, where json.Unmarshal also accepts them case-insensitively (`"Volume_Type"`), and a repeated `image_pull` or `metadata` member replaces the earlier one, where json.Unmarshal decodes it into the struct or merges it into the map already there. json.Marshal never writes such input, so MarshalRoundTrip is unaffected.
- Utf8: invalid UTF-8 in Go strings is not modelled (Dafny strings are Unicode scalar values).
- The `%q` quoting in error messages is written as plain quotes.
- NewSnapshotter: the MkdirAll and NewMetaStore failures (snapshot/snapshot.go:62-72) are not modelled; only the empty-root check is.
- mountGuestPull: the error branch of lowerPath (snapshot/snapshot.go:423-427) is not modelled: lowerPath always returns a nil error.
- filepath.Join's cleaning is modelled only as dropping empty segments; `..` and repeated slashes are not normalised.
- Storage: the metadata store is containerd's, and its operations are modelled by the contract the snapshotter relies on. WithLabels merges its labels; CommitActive takes the labels from the commit options only. The checks run in the store's order (an empty or taken name before the key in CommitActive). The empty key or name is refused, as bbolt refuses a bucket without a name (ErrBucketNameRequired, a plain error). Each error keeps its errdefs class; the store's messages are not reproduced.
- ComposedMountParses: proved only for a root, snapshot ids and anchor without commas (CommaFree). The snapshotter does not check this, and a comma in the root path would split an overlay option at cmd/guest-pull-overlayfs/main.go:50.
- ComposedMountRuns: the same comma-free requirement as ComposedMountParses, for the same reason.
- Rollback failures are only logged in the source and are not modelled.
- Concurrency between snapshotter calls (the store's locking) is not modelled.
- config/config.go, version/version.go and cmd/containerd-guest-pull-grpc are not part of this model: configuration loading, version strings and gRPC server plumbing.
