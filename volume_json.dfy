/**
  The Kata virtual volume descriptor (guest-pull/guest-pull.go:27-38) and its
  JSON text (RFC 8259) as Go's encoding/json writes it for this fixed schema:
  struct fields in declaration order, `omitempty` fields left out when empty,
  map keys in increasing order, strings escaped with Go's default (HTML-safe)
  escaping. The parser reads an object's members in any order, later members
  overwriting earlier ones and absent members leaving the zero value, as
  json.Unmarshal does for this struct.
 */
module VolumeJson {
  import opened Wrappers
  import opened Strings

  /** ImagePullVolume: `metadata` has no omitempty. */
  datatype ImagePullVolume = ImagePullVolume(metadata: map<string, string>)

  /** KataVirtualVolume; a nil ImagePull pointer is None. */
  datatype KataVirtualVolume = KataVirtualVolume(
    volumeType: string,
    source: string,
    fsType: string,
    options: seq<string>,
    imagePull: Option<ImagePullVolume>)

  /** The value json.Unmarshal starts from. */
  const ZeroVolume := KataVirtualVolume("", "", "", [], None)

  // ---------------------------------------------------------------- strings

  const HexDigits := "0123456789abcdef"

  function Hex4(v: int): string
    requires 0 <= v < 0x10000
  {
    [HexDigits[v / 4096], HexDigits[v / 256 % 16], HexDigits[v / 16 % 16], HexDigits[v % 16]]
  }

  /** True for the characters Go writes as \u00XX or \u20XX. */
  predicate NeedsUnicodeEscape(c: char) {
    c < ' ' || c == '<' || c == '>' || c == '&' || c == '\U{2028}' || c == '\U{2029}'
  }

  /** One character as it appears inside a JSON string written by encoding/json. */
  function EscapeChar(c: char): string
  {
    if c == '"' then "\\\""
    else if c == '\\' then "\\\\"
    else if c == '\n' then "\\n"
    else if c == '\r' then "\\r"
    else if c == '\t' then "\\t"
    else if c == '\U{8}' then "\\b"
    else if c == '\U{C}' then "\\f"
    else if NeedsUnicodeEscape(c) then "\\u" + Hex4(c as int)
    else [c]
  }

  function Escape(s: string): string
  {
    if |s| == 0 then "" else EscapeChar(s[0]) + Escape(s[1..])
  }

  /** A JSON string literal. */
  function Quote(s: string): string
  {
    "\"" + Escape(s) + "\""
  }

  function HexValue(c: char): Option<int>
  {
    if '0' <= c <= '9' then Some(c as int - '0' as int)
    else if 'a' <= c <= 'f' then Some(c as int - 'a' as int + 10)
    else if 'A' <= c <= 'F' then Some(c as int - 'A' as int + 10)
    else None
  }

  function ToChar(v: int): Option<char>
  {
    if 0 <= v < 0xD800 || 0xE000 <= v < 0x11_0000 then Some(v as char) else None
  }

  /** The character an escape stands for, read after its backslash, and the text after it. */
  function ParseEscape(s: string): (r: Option<(char, string)>)
    ensures r.Some? ==> |r.value.1| < |s|
  {
    if |s| == 0 then None
    else if s[0] == '"' then Some(('"', s[1..]))
    else if s[0] == '\\' then Some(('\\', s[1..]))
    else if s[0] == '/' then Some(('/', s[1..]))
    else if s[0] == 'b' then Some(('\U{8}', s[1..]))
    else if s[0] == 'f' then Some(('\U{C}', s[1..]))
    else if s[0] == 'n' then Some(('\n', s[1..]))
    else if s[0] == 'r' then Some(('\r', s[1..]))
    else if s[0] == 't' then Some(('\t', s[1..]))
    else if s[0] == 'u' && |s| >= 5 then
      match (HexValue(s[1]), HexValue(s[2]), HexValue(s[3]), HexValue(s[4]))
      case (Some(d0), Some(d1), Some(d2), Some(d3)) =>
        (match ToChar(d0 * 4096 + d1 * 256 + d2 * 16 + d3)
         case Some(c) => Some((c, s[5..]))
         case None => None)
      case _ => None
    else None
  }

  function Cons(c: char, r: Option<(string, string)>): Option<(string, string)>
  {
    match r
    case None => None
    case Some((x, rest)) => Some(([c] + x, rest))
  }

  /** The contents of a string literal up to its closing quote, and the text after that quote. */
  function ParseStringBody(s: string): (r: Option<(string, string)>)
    ensures r.Some? ==> |r.value.1| < |s|
    decreases |s|
  {
    if |s| == 0 then None
    else if s[0] == '"' then Some(([], s[1..]))
    else if s[0] == '\\' then
      match ParseEscape(s[1..])
      case None => None
      case Some((c, rest)) => Cons(c, ParseStringBody(rest))
    else Cons(s[0], ParseStringBody(s[1..]))
  }

  /** True when `s` begins with `c`. */
  predicate StartsWith(s: string, c: char) {
    |s| > 0 && s[0] == c
  }

  function ParseString(s: string): (r: Option<(string, string)>)
    ensures r.Some? ==> |r.value.1| < |s|
  {
    if StartsWith(s, '"') then ParseStringBody(s[1..]) else None
  }

  lemma Hex4RoundTrip(v: int)
    requires 0 <= v < 0x10000
    ensures var h := Hex4(v);
      HexValue(h[0]) == Some(v / 4096) && HexValue(h[1]) == Some(v / 256 % 16) &&
      HexValue(h[2]) == Some(v / 16 % 16) && HexValue(h[3]) == Some(v % 16)
    ensures v / 4096 * 4096 + v / 256 % 16 * 256 + v / 16 % 16 * 16 + v % 16 == v
  {
    var q := v / 16;
    var q2 := q / 16;
    assert q2 == v / 256;
    assert q2 / 16 == v / 4096;
    assert q2 / 16 * 16 + q2 % 16 == q2;
    assert q / 16 * 16 + q % 16 == q;
    forall d | 0 <= d < 16 ensures HexValue(HexDigits[d]) == Some(d) {
    }
  }

  lemma ShortEscapeRoundTrip(c: char, e: char, u: string)
    requires ParseEscape([e] + u) == Some((c, u))
    ensures ParseStringBody(['\\', e] + u) == Cons(c, ParseStringBody(u))
  {
    var s := ['\\', e] + u;
    assert s[0] == '\\';
    assert s[1..] == [e] + u;
  }

  /** The escape after a backslash reads back the character it was written for. */
  lemma UnicodeEscapeParse(c: char, u: string)
    requires NeedsUnicodeEscape(c)
    ensures ParseEscape("u" + Hex4(c as int) + u) == Some((c, u))
  {
    var v := c as int;
    var h := Hex4(v);
    Hex4RoundTrip(v);
    var t := "u" + h + u;
    assert t[0] == 'u' && t[1] == h[0] && t[2] == h[1] && t[3] == h[2] && t[4] == h[3];
    assert t[5..] == u;
    assert ToChar(v) == Some(c);
  }

  lemma UnicodeEscapeRoundTrip(c: char, u: string)
    requires NeedsUnicodeEscape(c)
    ensures ParseStringBody("\\u" + Hex4(c as int) + u) == Cons(c, ParseStringBody(u))
  {
    var s := "\\u" + Hex4(c as int) + u;
    UnicodeEscapeParse(c, u);
    assert s[0] == '\\';
    assert s[1..] == "u" + Hex4(c as int) + u;
  }

  lemma EscapeCharRoundTrip(c: char, u: string)
    ensures ParseStringBody(EscapeChar(c) + u) == Cons(c, ParseStringBody(u))
  {
    if c == '"' {
      ShortEscapeRoundTrip(c, '"', u);
    } else if c == '\\' {
      ShortEscapeRoundTrip(c, '\\', u);
    } else if c == '\n' {
      ShortEscapeRoundTrip(c, 'n', u);
    } else if c == '\r' {
      ShortEscapeRoundTrip(c, 'r', u);
    } else if c == '\t' {
      ShortEscapeRoundTrip(c, 't', u);
    } else if c == '\U{8}' {
      ShortEscapeRoundTrip(c, 'b', u);
    } else if c == '\U{C}' {
      ShortEscapeRoundTrip(c, 'f', u);
    } else if NeedsUnicodeEscape(c) {
      UnicodeEscapeRoundTrip(c, u);
    } else {
      assert EscapeChar(c) == [c];
      assert ([c] + u)[1..] == u;
    }
  }

  /** Reading back an escaped string stops exactly at its closing quote. */
  lemma {:induction false} EscapeRoundTrip(x: string, t: string)
    ensures ParseStringBody(Escape(x) + "\"" + t) == Some((x, t))
  {
    if |x| == 0 {
      assert Escape(x) + "\"" + t == "\"" + t;
    } else {
      var u := Escape(x[1..]) + "\"" + t;
      assert Escape(x) + "\"" + t == EscapeChar(x[0]) + u;
      EscapeCharRoundTrip(x[0], u);
      EscapeRoundTrip(x[1..], t);
      assert [x[0]] + x[1..] == x;
    }
  }

  lemma StringRoundTrip(x: string, t: string)
    ensures ParseString(Quote(x) + t) == Some((x, t))
  {
    var s := Quote(x) + t;
    assert s == "\"" + (Escape(x) + "\"" + t);
    assert StartsWith(s, '"');
    assert s[1..] == Escape(x) + "\"" + t;
    EscapeRoundTrip(x, t);
  }

  /** The text after a literal prefix, or None when it is not there. */
  function Expect(lit: string, s: string): (r: Option<string>)
    ensures r.Some? ==> |r.value| == |s| - |lit|
  {
    if HasPrefix(s, lit) then Some(s[|lit|..]) else None
  }

  /** The text after the character `c`, or None when `s` does not begin with it. */
  function Skip(c: char, s: string): (r: Option<string>)
    ensures r.Some? ==> |r.value| == |s| - 1
  {
    if StartsWith(s, c) then Some(s[1..]) else None
  }

  lemma SkipRoundTrip(c: char, t: string)
    ensures Skip(c, [c] + t) == Some(t)
  {
    assert ([c] + t)[1..] == t;
  }

  lemma ExpectRoundTrip(lit: string, t: string)
    ensures Expect(lit, lit + t) == Some(t)
  {
    assert (lit + t)[..|lit|] == lit;
    assert (lit + t)[|lit|..] == t;
  }

  // ------------------------------------------------------- arrays of strings

  /** The elements of a string array, without the brackets. */
  function RenderItems(items: seq<string>): string
  {
    if |items| == 0 then ""
    else if |items| == 1 then Quote(items[0])
    else Quote(items[0]) + "," + RenderItems(items[1..])
  }

  function RenderList(items: seq<string>): string
  {
    "[" + RenderItems(items) + "]"
  }

  /** One or more elements and the closing bracket. */
  function ParseItems(s: string): (r: Option<(seq<string>, string)>)
    ensures r.Some? ==> |r.value.1| < |s|
    decreases |s|
  {
    match ParseString(s)
    case None => None
    case Some((x, rest)) =>
      if StartsWith(rest, ',') then
        match ParseItems(rest[1..])
        case None => None
        case Some((xs, rest')) => Some(([x] + xs, rest'))
      else if StartsWith(rest, ']') then Some(([x], rest[1..]))
      else None
  }

  function ParseList(s: string): (r: Option<(seq<string>, string)>)
    ensures r.Some? ==> |r.value.1| < |s|
  {
    match Skip('[', s)
    case None => None
    case Some(rest) =>
      if StartsWith(rest, ']') then Some(([], rest[1..])) else ParseItems(rest)
  }

  /** After an element, a comma continues the array. */
  lemma ItemStep(x: string, more: string)
    ensures ParseItems(Quote(x) + ("," + more)) ==
      match ParseItems(more)
      case None => None
      case Some((xs, r)) => Some(([x] + xs, r))
  {
    StringRoundTrip(x, "," + more);
    assert StartsWith("," + more, ',');
    assert ("," + more)[1..] == more;
  }

  /** After an element, the closing bracket ends the array. */
  lemma ItemLast(x: string, t: string)
    ensures ParseItems(Quote(x) + ("]" + t)) == Some(([x], t))
  {
    StringRoundTrip(x, "]" + t);
    assert StartsWith("]" + t, ']') && !StartsWith("]" + t, ',');
    assert ("]" + t)[1..] == t;
  }

  lemma {:induction false} ItemsRoundTrip(items: seq<string>, t: string)
    requires |items| >= 1
    ensures ParseItems(RenderItems(items) + "]" + t) == Some((items, t))
  {
    var q := Quote(items[0]);
    if |items| == 1 {
      assert RenderItems(items) == q;
      Assoc(q, "]", t);
      ItemLast(items[0], t);
      assert items == [items[0]];
    } else {
      var r := RenderItems(items[1..]);
      assert RenderItems(items) == q + "," + r;
      Assoc(q + "," + r, "]", t);
      Assoc(q + ",", r, "]" + t);
      Assoc(q, ",", r + ("]" + t));
      Assoc(r, "]", t);
      ItemStep(items[0], r + "]" + t);
      ItemsRoundTrip(items[1..], t);
      assert [items[0]] + items[1..] == items;
    }
  }

  lemma ListRoundTrip(items: seq<string>, t: string)
    ensures ParseList(RenderList(items) + t) == Some((items, t))
  {
    var inner := RenderItems(items) + "]" + t;
    assert RenderList(items) + t == "[" + inner;
    ListAfterBracket(inner);
    if |items| == 0 {
      assert inner == "]" + t;
      assert inner[1..] == t;
    } else {
      ItemsAfterBracket(items, t);
    }
  }

  /** After the opening bracket, a closing one ends an empty array; anything else is its elements. */
  lemma ListAfterBracket(inner: string)
    ensures ParseList("[" + inner) == if StartsWith(inner, ']') then Some(([], inner[1..])) else ParseItems(inner)
  {
    SkipRoundTrip('[', inner);
  }

  /** A non-empty array's elements start with a quote, so they are not mistaken for its end. */
  lemma ItemsAfterBracket(items: seq<string>, t: string)
    requires |items| > 0
    ensures var inner := RenderItems(items) + "]" + t;
      !StartsWith(inner, ']') && ParseItems(inner) == Some((items, t))
  {
    var inner := RenderItems(items) + "]" + t;
    ItemsRoundTrip(items, t);
    assert Quote(items[0])[0] == '"';
    assert RenderItems(items)[0] == '"';
    assert inner[0] == '"';
  }

  // ---------------------------------------------------- maps of strings

  /** The members of a string-to-string object, in the order of `keys`. */
  function RenderEntries(m: map<string, string>, keys: seq<string>): string
    requires forall i :: 0 <= i < |keys| ==> keys[i] in m
  {
    if |keys| == 0 then ""
    else if |keys| == 1 then Quote(keys[0]) + ":" + Quote(m[keys[0]])
    else Quote(keys[0]) + ":" + Quote(m[keys[0]]) + "," + RenderEntries(m, keys[1..])
  }

  /** A map as encoding/json writes it: keys in increasing order. */
  function RenderMap(m: map<string, string>): string
  {
    "{" + RenderEntries(m, SortedKeys(m.Keys)) + "}"
  }

  /** The map an object's members describe; a later duplicate key wins. */
  function ToMap(entries: seq<(string, string)>): map<string, string>
  {
    if |entries| == 0 then map[] else map[entries[0].0 := entries[0].1] + ToMap(entries[1..])
  }

  function ParseEntries(s: string): (r: Option<(seq<(string, string)>, string)>)
    ensures r.Some? ==> |r.value.1| < |s|
    decreases |s|
  {
    match ParseString(s)
    case None => None
    case Some((k, r1)) =>
      match Skip(':', r1)
      case None => None
      case Some(r2) =>
        match ParseString(r2)
        case None => None
        case Some((v, rest)) =>
          if StartsWith(rest, ',') then
            match ParseEntries(rest[1..])
            case None => None
            case Some((es, rest')) => Some(([(k, v)] + es, rest'))
          else if StartsWith(rest, '}') then Some(([(k, v)], rest[1..]))
          else None
  }

  function ParseMap(s: string): (r: Option<(map<string, string>, string)>)
    ensures r.Some? ==> |r.value.1| < |s|
  {
    match Skip('{', s)
    case None => None
    case Some(rest) =>
      if StartsWith(rest, '}') then Some((map[], rest[1..]))
      else
        match ParseEntries(rest)
        case None => None
        case Some((es, rest')) => Some((ToMap(es), rest'))
  }

  function EntriesOf(m: map<string, string>, keys: seq<string>): (r: seq<(string, string)>)
    requires forall i :: 0 <= i < |keys| ==> keys[i] in m
    ensures |r| == |keys|
  {
    if |keys| == 0 then [] else [(keys[0], m[keys[0]])] + EntriesOf(m, keys[1..])
  }

  lemma {:induction false} EntriesRoundTrip(m: map<string, string>, keys: seq<string>, t: string)
    requires |keys| >= 1
    requires forall i :: 0 <= i < |keys| ==> keys[i] in m
    ensures ParseEntries(RenderEntries(m, keys) + "}" + t) == Some((EntriesOf(m, keys), t))
  {
    var k := keys[0];
    var x, y := Quote(k), Quote(m[k]);
    if |keys| == 1 {
      assert RenderEntries(m, keys) == x + ":" + y;
      Assoc(x + ":" + y, "}", t);
      Assoc(x + ":", y, "}" + t);
      Assoc(x, ":", y + ("}" + t));
      EntryLast(k, m[k], t);
      assert keys[1..] == [];
      assert EntriesOf(m, keys) == [(k, m[k])];
    } else {
      var r := RenderEntries(m, keys[1..]);
      assert RenderEntries(m, keys) == x + ":" + y + "," + r;
      Assoc(x + ":" + y + "," + r, "}", t);
      Assoc(x + ":" + y + ",", r, "}" + t);
      Assoc(x + ":" + y, ",", r + ("}" + t));
      Assoc(x + ":", y, "," + (r + ("}" + t)));
      Assoc(x, ":", y + ("," + (r + ("}" + t))));
      Assoc(r, "}", t);
      EntryStep(k, m[k], r + "}" + t);
      EntriesRoundTrip(m, keys[1..], t);
    }
  }

  /** After a member, a comma continues the object. */
  lemma EntryStep(k: string, v: string, more: string)
    ensures ParseEntries(Quote(k) + (":" + (Quote(v) + ("," + more)))) ==
      match ParseEntries(more)
      case None => None
      case Some((es, r)) => Some(([(k, v)] + es, r))
  {
    EntryRoundTrip(k, v, "," + more);
    assert StartsWith("," + more, ',');
    assert ("," + more)[1..] == more;
  }

  /** After a member, the closing brace ends the object. */
  lemma EntryLast(k: string, v: string, t: string)
    ensures ParseEntries(Quote(k) + (":" + (Quote(v) + ("}" + t)))) == Some(([(k, v)], t))
  {
    EntryRoundTrip(k, v, "}" + t);
    assert StartsWith("}" + t, '}') && !StartsWith("}" + t, ',');
    assert ("}" + t)[1..] == t;
  }

  /** One member `"k":"v"` parses back, leaving what follows it. */
  lemma EntryRoundTrip(k: string, v: string, tail: string)
    ensures ParseString(Quote(k) + (":" + (Quote(v) + tail))) == Some((k, ":" + (Quote(v) + tail)))
    ensures Skip(':', ":" + (Quote(v) + tail)) == Some(Quote(v) + tail)
    ensures ParseString(Quote(v) + tail) == Some((v, tail))
  {
    StringRoundTrip(k, ":" + (Quote(v) + tail));
    SkipRoundTrip(':', Quote(v) + tail);
    StringRoundTrip(v, tail);
  }

  lemma {:induction false} ToMapEntries(m: map<string, string>, keys: seq<string>)
    requires forall i :: 0 <= i < |keys| ==> keys[i] in m
    ensures ToMap(EntriesOf(m, keys)) == map k | k in keys :: m[k]
  {
    if |keys| > 0 {
      ToMapEntries(m, keys[1..]);
      var es := EntriesOf(m, keys);
      assert es[0] == (keys[0], m[keys[0]]);
      assert es[1..] == EntriesOf(m, keys[1..]);
      var rest := map k | k in keys[1..] :: m[k];
      assert ToMap(es) == map[keys[0] := m[keys[0]]] + rest;
      assert (map k | k in keys :: m[k]) == map[keys[0] := m[keys[0]]] + rest;
    }
  }

  lemma QuoteFirst(x: string, t: string)
    ensures StartsWith(Quote(x) + t, '"')
  {
    assert (Quote(x) + t)[0] == Quote(x)[0];
  }

  lemma EntriesFirst(m: map<string, string>, keys: seq<string>, t: string)
    requires |keys| >= 1
    requires forall i :: 0 <= i < |keys| ==> keys[i] in m
    ensures StartsWith(RenderEntries(m, keys) + "}" + t, '"')
  {
    var x, y := Quote(keys[0]), Quote(m[keys[0]]);
    var re := RenderEntries(m, keys);
    if |keys| == 1 {
      assert re == x + ":" + y;
    } else {
      assert re == x + ":" + y + "," + RenderEntries(m, keys[1..]);
    }
    assert x[0] == '"';
    assert re[0] == '"';
    assert (re + "}" + t)[0] == '"';
  }

  lemma KeysCover(m: map<string, string>, keys: seq<string>)
    requires forall k :: k in m <==> k in keys
    ensures (map k | k in keys :: m[k]) == m
  {
  }

  /** An object whose members list every key of `m` once parses back to `m`. */
  lemma ObjectRoundTrip(m: map<string, string>, keys: seq<string>, t: string)
    requires forall k :: k in m <==> k in keys
    ensures forall i :: 0 <= i < |keys| ==> keys[i] in m
    ensures ParseMap("{" + (RenderEntries(m, keys) + "}" + t)) == Some((m, t))
  {
    var inner := RenderEntries(m, keys) + "}" + t;
    SkipRoundTrip('{', inner);
    if |keys| == 0 {
      assert m == map[];
      assert inner == "}" + t;
      assert inner[1..] == t;
    } else {
      EntriesRoundTrip(m, keys, t);
      EntriesFirst(m, keys, t);
      ToMapEntries(m, keys);
      KeysCover(m, keys);
    }
  }

  lemma MapRoundTrip(m: map<string, string>, t: string)
    ensures ParseMap(RenderMap(m) + t) == Some((m, t))
  {
    var keys := SortedKeys(m.Keys);
    var body := RenderEntries(m, keys);
    Assoc("{" + body, "}", t);
    Assoc("{", body, "}" + t);
    Assoc(body, "}", t);
    ObjectRoundTrip(m, keys, t);
  }

  // ------------------------------------------------------------ the volume

  /** One member of the volume object as encoding/json writes it. */
  datatype Field =
    | VolumeTypeField(volumeType: string)
    | SourceField(source: string)
    | FsTypeField(fsType: string)
    | OptionsField(options: seq<string>)
    | ImagePullField(imagePull: ImagePullVolume)

  function FieldName(f: Field): string
  {
    match f
    case VolumeTypeField(_) => "volume_type"
    case SourceField(_) => "source"
    case FsTypeField(_) => "fs_type"
    case OptionsField(_) => "options"
    case ImagePullField(_) => "image_pull"
  }

  /** The members written for a volume, in struct order, with the omitempty rules applied. */
  function Fields(v: KataVirtualVolume): (r: seq<Field>)
    ensures |r| >= 1 && r[0] == VolumeTypeField(v.volumeType)
  {
    [VolumeTypeField(v.volumeType)]
    + (if v.source != "" then [SourceField(v.source)] else [])
    + (if v.fsType != "" then [FsTypeField(v.fsType)] else [])
    + (if |v.options| > 0 then [OptionsField(v.options)] else [])
    + (match v.imagePull case Some(ip) => [ImagePullField(ip)] case None => [])
  }

  /** The omitempty rules: volume_type is always written, every other member only when set. */
  lemma FieldsOmitEmpty(v: KataVirtualVolume)
    ensures forall f :: f in Fields(v) <==>
      f == VolumeTypeField(v.volumeType)
      || (v.source != "" && f == SourceField(v.source))
      || (v.fsType != "" && f == FsTypeField(v.fsType))
      || (|v.options| > 0 && f == OptionsField(v.options))
      || (v.imagePull.Some? && f == ImagePullField(v.imagePull.value))
  {
    var f0 := [VolumeTypeField(v.volumeType)];
    var f1 := if v.source != "" then [SourceField(v.source)] else [];
    var f2 := if v.fsType != "" then [FsTypeField(v.fsType)] else [];
    var f3 := if |v.options| > 0 then [OptionsField(v.options)] else [];
    var f4 := match v.imagePull case Some(ip) => [ImagePullField(ip)] case None => [];
    assert Fields(v) == f0 + f1 + f2 + f3 + f4;
  }

  function RenderImagePull(ip: ImagePullVolume): string
  {
    "{" + Quote("metadata") + ":" + RenderMap(ip.metadata) + "}"
  }

  function RenderValue(f: Field): string
  {
    match f
    case VolumeTypeField(s) => Quote(s)
    case SourceField(s) => Quote(s)
    case FsTypeField(s) => Quote(s)
    case OptionsField(items) => RenderList(items)
    case ImagePullField(ip) => RenderImagePull(ip)
  }

  function RenderField(f: Field): string
  {
    Quote(FieldName(f)) + ":" + RenderValue(f)
  }

  function RenderFields(fs: seq<Field>): string
  {
    if |fs| == 0 then ""
    else if |fs| == 1 then RenderField(fs[0])
    else RenderField(fs[0]) + "," + RenderFields(fs[1..])
  }

  /** json.Marshal of a volume. */
  function Marshal(v: KataVirtualVolume): (r: string)
    ensures |r| >= 2 && r[0] == '{' && r[|r| - 1] == '}'
  {
    "{" + RenderFields(Fields(v)) + "}"
  }

  /** `{"metadata":{...}}`, or `{}` for an ImagePullVolume whose metadata is absent. */
  function ParseImagePull(s: string): (r: Option<(ImagePullVolume, string)>)
    ensures r.Some? ==> |r.value.1| < |s|
  {
    match Skip('{', s)
    case None => None
    case Some(r1) =>
      if StartsWith(r1, '}') then Some((ImagePullVolume(map[]), r1[1..]))
      else
        match Expect(Quote("metadata") + ":", r1)
        case None => None
        case Some(r2) =>
          match ParseMap(r2)
          case None => None
          case Some((m, r3)) =>
            match Skip('}', r3)
            case None => None
            case Some(r4) => Some((ImagePullVolume(m), r4))
  }

  function ParseField(s: string): (r: Option<(Field, string)>)
    ensures r.Some? ==> |r.value.1| < |s|
  {
    match ParseString(s)
    case None => None
    case Some((name, r1)) =>
      match Skip(':', r1)
      case None => None
      case Some(r2) =>
        if name == "volume_type" || name == "source" || name == "fs_type" then
          match ParseString(r2)
          case None => None
          case Some((x, r3)) =>
            Some((if name == "volume_type" then VolumeTypeField(x)
                  else if name == "source" then SourceField(x)
                  else FsTypeField(x), r3))
        else if name == "options" then
          match ParseList(r2)
          case None => None
          case Some((items, r3)) => Some((OptionsField(items), r3))
        else if name == "image_pull" then
          match ParseImagePull(r2)
          case None => None
          case Some((ip, r3)) => Some((ImagePullField(ip), r3))
        else None
  }

  function ParseFields(s: string): (r: Option<(seq<Field>, string)>)
    ensures r.Some? ==> |r.value.1| < |s|
    decreases |s|
  {
    match ParseField(s)
    case None => None
    case Some((f, rest)) =>
      if StartsWith(rest, ',') then
        match ParseFields(rest[1..])
        case None => None
        case Some((fs, rest')) => Some(([f] + fs, rest'))
      else if StartsWith(rest, '}') then Some(([f], rest[1..]))
      else None
  }

  function Assign(v: KataVirtualVolume, f: Field): KataVirtualVolume
  {
    match f
    case VolumeTypeField(x) => v.(volumeType := x)
    case SourceField(x) => v.(source := x)
    case FsTypeField(x) => v.(fsType := x)
    case OptionsField(items) => v.(options := items)
    case ImagePullField(ip) => v.(imagePull := Some(ip))
  }

  /** The members applied in order, a later one overwriting an earlier one. */
  function AssignAll(v: KataVirtualVolume, fs: seq<Field>): KataVirtualVolume
    decreases |fs|
  {
    if |fs| == 0 then v else AssignAll(Assign(v, fs[0]), fs[1..])
  }

  /** json.Unmarshal into a zero KataVirtualVolume: None for text it does not accept. */
  function Unmarshal(s: string): (r: Option<KataVirtualVolume>)
    ensures r.Some? ==> |s| >= 2 && s[0] == '{'
    ensures s == "{}" ==> r == Some(ZeroVolume)
  {
    match Skip('{', s)
    case None => None
    case Some(r1) =>
      if r1 == "}" then Some(ZeroVolume)
      else
        match ParseFields(r1)
        case Some((fs, "")) => Some(AssignAll(ZeroVolume, fs))
        case _ => None
  }

  lemma ImagePullRoundTrip(ip: ImagePullVolume, t: string)
    ensures ParseImagePull(RenderImagePull(ip) + t) == Some((ip, t))
  {
    var q, m := Quote("metadata"), RenderMap(ip.metadata);
    var key := q + ":";
    var x := m + ("}" + t);
    var r1 := key + x;
    Assoc("{" + q + ":" + m, "}", t);
    Assoc("{" + q + ":", m, "}" + t);
    Assoc("{" + q, ":", x);
    Assoc("{", q, ":" + x);
    Assoc(q, ":", x);
    assert RenderImagePull(ip) + t == "{" + r1;
    SkipRoundTrip('{', r1);
    assert q[0] == '"';
    assert r1[0] == '"';
    ExpectRoundTrip(key, x);
    MapRoundTrip(ip.metadata, "}" + t);
    SkipRoundTrip('}', t);
  }

  /** The member name of a rendered field reads back, up to its value. */
  lemma FieldHead(f: Field, t: string)
    ensures ParseString(RenderField(f) + t) == Some((FieldName(f), ":" + (RenderValue(f) + t)))
    ensures Skip(':', ":" + (RenderValue(f) + t)) == Some(RenderValue(f) + t)
  {
    var q, rv := Quote(FieldName(f)), RenderValue(f);
    Assoc(q + ":", rv, t);
    Assoc(q, ":", rv + t);
    StringRoundTrip(FieldName(f), ":" + (rv + t));
    SkipRoundTrip(':', rv + t);
  }

  lemma FieldRoundTrip(f: Field, t: string)
    ensures ParseField(RenderField(f) + t) == Some((f, t))
  {
    match f
    case VolumeTypeField(x) => TextFieldRoundTrip(f, x, t);
    case SourceField(x) => TextFieldRoundTrip(f, x, t);
    case FsTypeField(x) => TextFieldRoundTrip(f, x, t);
    case OptionsField(items) => OptionsFieldRoundTrip(items, t);
    case ImagePullField(ip) => ImagePullFieldRoundTrip(ip, t);
  }

  lemma OptionsFieldRoundTrip(items: seq<string>, t: string)
    ensures ParseField(RenderField(OptionsField(items)) + t) == Some((OptionsField(items), t))
  {
    FieldHead(OptionsField(items), t);
    ListRoundTrip(items, t);
    FieldNamesDistinct();
  }

  lemma ImagePullFieldRoundTrip(ip: ImagePullVolume, t: string)
    ensures ParseField(RenderField(ImagePullField(ip)) + t) == Some((ImagePullField(ip), t))
  {
    var f := ImagePullField(ip);
    var value := RenderImagePull(ip) + t;
    FieldHead(f, t);
    assert FieldName(f) == "image_pull";
    assert RenderValue(f) == RenderImagePull(ip);
    ImagePullRoundTrip(ip, t);
    assert ParseImagePull(value) == Some((ip, t));
    FieldNamesDistinct();
  }

  lemma TextFieldRoundTrip(f: Field, x: string, t: string)
    requires f == VolumeTypeField(x) || f == SourceField(x) || f == FsTypeField(x)
    ensures ParseField(RenderField(f) + t) == Some((f, t))
  {
    var v := RenderValue(f) + t;
    FieldHead(f, t);
    assert RenderValue(f) == Quote(x);
    StringRoundTrip(x, t);
    assert ParseString(v) == Some((x, t));
    FieldNamesDistinct();
    assert FieldName(f) == "volume_type" || FieldName(f) == "source" || FieldName(f) == "fs_type";
  }

  /** The five member names differ from one another. */
  lemma FieldNamesDistinct()
    ensures "volume_type" != "source" && "volume_type" != "fs_type" && "source" != "fs_type"
    ensures "options" != "volume_type" && "options" != "source" && "options" != "fs_type"
    ensures "image_pull" != "volume_type" && "image_pull" != "source"
    ensures "image_pull" != "fs_type" && "image_pull" != "options"
  {
    assert "fs_type"[0] != "options"[0];
  }

  lemma {:induction false} FieldsRoundTrip(fs: seq<Field>, t: string)
    requires |fs| >= 1
    ensures ParseFields(RenderFields(fs) + "}" + t) == Some((fs, t))
  {
    if |fs| == 1 {
      assert RenderFields(fs) + "}" + t == RenderField(fs[0]) + ("}" + t) by {
        Assoc(RenderField(fs[0]), "}", t);
      }
      FieldsLast(fs[0], t);
      assert [fs[0]] == fs;
    } else {
      var more := RenderFields(fs[1..]) + "}" + t;
      assert RenderFields(fs) + "}" + t == RenderField(fs[0]) + ("," + more) by {
        FieldsJoin(RenderField(fs[0]), RenderFields(fs[1..]), t);
      }
      FieldsRoundTrip(fs[1..], t);
      FieldsCons(fs[0], more, fs[1..], t);
      assert [fs[0]] + fs[1..] == fs;
    }
  }

  /** The last member is followed by the closing brace. */
  lemma FieldsLast(x: Field, t: string)
    ensures ParseFields(RenderField(x) + ("}" + t)) == Some(([x], t))
  {
    FieldRoundTrip(x, "}" + t);
    ParseFieldsClosing(RenderField(x) + ("}" + t), x, t);
  }

  /** A member followed by a comma heads the members after it. */
  lemma FieldsCons(x: Field, more: string, fs: seq<Field>, t: string)
    requires ParseFields(more) == Some((fs, t))
    ensures ParseFields(RenderField(x) + ("," + more)) == Some(([x] + fs, t))
  {
    FieldRoundTrip(x, "," + more);
    ParseFieldsComma(RenderField(x) + ("," + more), x, more, fs, t);
  }

  /** How the rendered members and the closing brace regroup around the separator. */
  lemma FieldsJoin(f: string, r: string, t: string)
    ensures f + "," + r + "}" + t == f + ("," + (r + "}" + t))
  {
    Assoc(f + "," + r, "}", t);
    Assoc(f + ",", r, "}" + t);
    Assoc(f, ",", r + ("}" + t));
    Assoc(r, "}", t);
  }

  /** A member followed by the closing brace ends the member list. */
  lemma ParseFieldsClosing(s: string, f: Field, t: string)
    requires ParseField(s) == Some((f, "}" + t))
    ensures ParseFields(s) == Some(([f], t))
  {
    assert StartsWith("}" + t, '}') && !StartsWith("}" + t, ',');
    assert ("}" + t)[1..] == t;
  }

  /** A member followed by a comma is the head of the list the rest parses to. */
  lemma ParseFieldsComma(s: string, f: Field, more: string, fs: seq<Field>, t: string)
    requires ParseField(s) == Some((f, "," + more))
    requires ParseFields(more) == Some((fs, t))
    ensures ParseFields(s) == Some(([f] + fs, t))
  {
    assert StartsWith("," + more, ',');
    assert ("," + more)[1..] == more;
  }

  lemma AssignFields(v: KataVirtualVolume)
    ensures AssignAll(ZeroVolume, Fields(v)) == v
  {
    var f0 := [VolumeTypeField(v.volumeType)];
    var f1 := if v.source != "" then [SourceField(v.source)] else [];
    var f2 := if v.fsType != "" then [FsTypeField(v.fsType)] else [];
    var f3 := if |v.options| > 0 then [OptionsField(v.options)] else [];
    var f4 := match v.imagePull case Some(ip) => [ImagePullField(ip)] case None => [];
    assert Fields(v) == f0 + f1 + f2 + f3 + f4;
    // Each member sets the one field it names; an omitted member leaves the zero value.
    var w0 := ZeroVolume.(volumeType := v.volumeType);
    var w1 := w0.(source := v.source);
    var w2 := w1.(fsType := v.fsType);
    var w3 := w2.(options := v.options);
    AssignAllOne(ZeroVolume, f0[0]);
    AssignAllAppend(ZeroVolume, f0, f1);
    AssignAllOne(w0, SourceField(v.source));
    AssignAllAppend(ZeroVolume, f0 + f1, f2);
    AssignAllOne(w1, FsTypeField(v.fsType));
    AssignAllAppend(ZeroVolume, f0 + f1 + f2, f3);
    AssignAllOne(w2, OptionsField(v.options));
    AssignAllAppend(ZeroVolume, f0 + f1 + f2 + f3, f4);
    match v.imagePull {
      case Some(ip) => AssignAllOne(w3, ImagePullField(ip));
      case None =>
    }
  }

  lemma AssignAllOne(v: KataVirtualVolume, f: Field)
    ensures AssignAll(v, [f]) == Assign(v, f)
  {
    assert [f][1..] == [];
  }

  lemma {:induction false} AssignAllAppend(v: KataVirtualVolume, a: seq<Field>, b: seq<Field>)
    ensures AssignAll(v, a + b) == AssignAll(AssignAll(v, a), b)
    decreases |a|
  {
    if |a| > 0 {
      assert (a + b)[0] == a[0];
      assert (a + b)[1..] == a[1..] + b;
      AssignAllAppend(Assign(v, a[0]), a[1..], b);
    } else {
      assert a + b == b;
    }
  }

  /** json.Unmarshal(json.Marshal(v)) gives v back. */
  lemma MarshalRoundTrip(v: KataVirtualVolume)
    ensures Unmarshal(Marshal(v)) == Some(v)
  {
    var fs := Fields(v);
    var body := RenderFields(fs);
    var r1 := body + "}";
    Assoc("{", body, "}");
    assert Marshal(v) == "{" + r1;
    SkipRoundTrip('{', r1);
    assert r1 + "" == r1;
    FieldsRoundTrip(fs, "");
    if |fs| == 1 {
      assert body == RenderField(fs[0]);
    } else {
      assert body == RenderField(fs[0]) + "," + RenderFields(fs[1..]);
    }
    assert RenderField(fs[0]) == Quote(FieldName(fs[0])) + ":" + RenderValue(fs[0]);
    assert body[0] == '"';
    assert r1 != "}";
    AssignFields(v);
  }
}
