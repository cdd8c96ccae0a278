/**
  The guest-pull volume encoder: the Kata virtual volume descriptor the
  snapshotter hands to the runtime, its validation, and the single
  `io.katacontainers.volume=<base64 of the JSON>` mount option that carries it.
 */
module GuestPull {
  import opened Wrappers
  import opened Strings
  import opened Errors
  import opened VolumeJson
  import Base64
  import Utf8

  const KataVirtualVolumeOptionName := "io.katacontainers.volume"
  const KataVirtualVolumeImageGuestPullType := "image_guest_pull"

  const NilVolumeError := Leaf(Plain, "volume configuration cannot be nil")
  const EmptyTypeError := Leaf(Plain, "volume type cannot be empty")
  const MissingImagePullError := Leaf(Plain, "image pull configuration required for guest pull volume type")

  /**
    Checks a descriptor; a nil pointer is None. The three faults are reported
    in this order, and every other descriptor is accepted.
   */
  function ValidateVolumeConfig(volume: Option<KataVirtualVolume>): (r: Option<Error>)
    ensures r.None? <==>
      volume.Some? && volume.value.volumeType != "" &&
      (volume.value.volumeType == KataVirtualVolumeImageGuestPullType ==> volume.value.imagePull.Some?)
    ensures volume.None? ==> r == Some(NilVolumeError)
    ensures volume.Some? && volume.value.volumeType == "" ==> r == Some(EmptyTypeError)
    ensures r == Some(MissingImagePullError) <==>
      volume.Some? && volume.value.volumeType == KataVirtualVolumeImageGuestPullType && volume.value.imagePull.None?
  {
    match volume
    case None => Some(NilVolumeError)
    case Some(v) =>
      if v.volumeType == "" then Some(EmptyTypeError)
      else if v.volumeType == KataVirtualVolumeImageGuestPullType && v.imagePull.None? then Some(MissingImagePullError)
      else None
  }

  /** The descriptor PrepareGuestPullMounts builds; fs_type is never set. */
  function GuestPullVolume(source: string, options: seq<string>, labels: map<string, string>): (v: KataVirtualVolume)
    ensures v.volumeType == KataVirtualVolumeImageGuestPullType && v.source == source && v.fsType == ""
    ensures v.options == options && v.imagePull == Some(ImagePullVolume(labels))
  {
    KataVirtualVolume(KataVirtualVolumeImageGuestPullType, source, "", options, Some(ImagePullVolume(labels)))
  }

  /** JSON, then its UTF-8 bytes, then padded standard base64. */
  function EncodeVolume(v: KataVirtualVolume): string
  {
    Base64.Encode(Utf8.Encode(Marshal(v)))
  }

  /** The mount option that carries a descriptor: `io.katacontainers.volume=<base64>`. */
  function VolumeOption(v: KataVirtualVolume): string
  {
    KataVirtualVolumeOptionName + "=" + EncodeVolume(v)
  }

  /**
    PrepareGuestPullMounts. The descriptor it builds always validates and
    json.Marshal cannot fail on it, so the result is always that one option.
   */
  function PrepareGuestPullMounts(source: string, options: seq<string>, labels: map<string, string>): (r: Result<seq<string>, Error>)
    ensures r.Success? && |r.value| == 1
    ensures DecodeVolumeOption(r.value[0]) == Some((KataVirtualVolumeOptionName, GuestPullVolume(source, options, labels)))
  {
    var volume := GuestPullVolume(source, options, labels);
    OptionRoundTrip(volume);
    match ValidateVolumeConfig(Some(volume))
    case Some(e) => Failure(Wrapped("invalid volume configuration", e))
    case None => Success([VolumeOption(volume)])
  }

  /**
    What the tests check of PrepareGuestPullMounts: no error, exactly one
    option, named io.katacontainers.volume, whose value decodes back to the
    descriptor with the given source, options and metadata.
   */
  lemma PrepareGuestPullMountsDecodes(source: string, options: seq<string>, labels: map<string, string>)
    ensures var r := PrepareGuestPullMounts(source, options, labels);
      r.Success? && |r.value| == 1 &&
      HasPrefix(r.value[0], KataVirtualVolumeOptionName + "=") &&
      DecodeVolumeOption(r.value[0]) == Some((KataVirtualVolumeOptionName, GuestPullVolume(source, options, labels)))
    ensures ValidateVolumeConfig(Some(GuestPullVolume(source, options, labels))).None?
  {
    var v := GuestPullVolume(source, options, labels);
    VolumeOptionPrefix(v);
    OptionRoundTrip(v);
  }

  lemma VolumeOptionPrefix(v: KataVirtualVolume)
    ensures HasPrefix(VolumeOption(v), KataVirtualVolumeOptionName + "=")
    ensures VolumeOption(v)[0] == 'i'
  {
    var key := KataVirtualVolumeOptionName + "=";
    assert VolumeOption(v) == key + EncodeVolume(v);
    assert (key + EncodeVolume(v))[..|key|] == key;
  }

  // ------------------------------------------------------- reading it back

  /** An option cut at its first '=' into name and value; None when it has no '='. */
  function SplitOption(option: string): (r: Option<(string, string)>)
    ensures r.None? <==> '=' !in option
    ensures r.Some? ==> option == r.value.0 + "=" + r.value.1 && '=' !in r.value.0
  {
    if |option| == 0 then None
    else if option[0] == '=' then Some(("", option[1..]))
    else
      match SplitOption(option[1..])
      case None => None
      case Some((name, value)) => Some(([option[0]] + name, value))
  }

  /** Splits an option and decodes its value back into a descriptor. */
  function DecodeVolumeOption(option: string): Option<(string, KataVirtualVolume)>
  {
    match SplitOption(option)
    case None => None
    case Some((name, value)) =>
      match Base64.Decode(value)
      case None => None
      case Some(bytes) =>
        match Utf8.Decode(bytes)
        case None => None
        case Some(text) =>
          match Unmarshal(text)
          case None => None
          case Some(v) => Some((name, v))
  }

  /** A name without '=' is exactly what splitting at the first '=' gives back. */
  lemma {:induction false} SplitOptionName(name: string, value: string)
    requires '=' !in name
    ensures SplitOption(name + "=" + value) == Some((name, value))
  {
    if |name| == 0 {
      assert name + "=" + value == "=" + value;
      assert ("=" + value)[1..] == value;
    } else {
      SplitOptionName(name[1..], value);
      assert (name + "=" + value)[1..] == name[1..] + "=" + value;
      assert [name[0]] + name[1..] == name;
    }
  }

  /** The option name holds no '=', so the first '=' of an option ends the name. */
  lemma NameHasNoEquals()
    ensures '=' !in KataVirtualVolumeOptionName
  {
    var n := KataVirtualVolumeOptionName;
    forall i | 0 <= i < |n| ensures n[i] != '=' {
    }
  }

  lemma OptionRoundTrip(v: KataVirtualVolume)
    ensures DecodeVolumeOption(VolumeOption(v)) == Some((KataVirtualVolumeOptionName, v))
  {
    var text := Marshal(v);
    var bytes := Utf8.Encode(text);
    var value := Base64.Encode(bytes);
    NameHasNoEquals();
    SplitOptionName(KataVirtualVolumeOptionName, value);
    Base64.RoundTrip(bytes);
    Utf8.RoundTrip(text);
    MarshalRoundTrip(v);
    assert SplitOption(KataVirtualVolumeOptionName + "=" + value) == Some((KataVirtualVolumeOptionName, value));
    assert Base64.Decode(value) == Some(bytes);
    assert Utf8.Decode(bytes) == Some(text);
    assert Unmarshal(text) == Some(v);
  }

  /**
    What the descriptor's JSON holds: volume_type always, source only when
    non-empty, fs_type never, options only when non-empty, and image_pull always.
   */
  lemma GuestPullFields(source: string, options: seq<string>, labels: map<string, string>)
    ensures forall f :: f in Fields(GuestPullVolume(source, options, labels)) <==>
      f == VolumeTypeField(KataVirtualVolumeImageGuestPullType)
      || (source != "" && f == SourceField(source))
      || (|options| > 0 && f == OptionsField(options))
      || f == ImagePullField(ImagePullVolume(labels))
  {
    FieldsOmitEmpty(GuestPullVolume(source, options, labels));
  }

  /** The image_pull member always carries a metadata key. */
  lemma ImagePullHasMetadata(ip: ImagePullVolume)
    ensures HasPrefix(RenderImagePull(ip), "{" + Quote("metadata") + ":")
  {
    var p := "{" + Quote("metadata") + ":";
    assert RenderImagePull(ip) == p + (RenderMap(ip.metadata) + "}");
    assert (p + (RenderMap(ip.metadata) + "}"))[..|p|] == p;
  }
}
