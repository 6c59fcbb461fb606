/** An Ed25519 key pair in OpenSSH's formats: strings as in section 5 of RFC 4251,
    key blobs as in section 4 of RFC 8709, base64 as in section 4 of RFC 4648. The
    constants are ASCII, so that their encoding is their character codes. */
module SshKey {
  import opened Wrappers

  newtype Byte = x: int | 0 <= x < 256

  const TWO_TO_THE_32 := 0x1_0000_0000

  predicate IsAscii(text: string) {
    forall i | 0 <= i < |text| :: text[i] < 128 as char
  }

  function Ascii(text: string): (bytes: seq<Byte>)
    requires IsAscii(text)
    ensures |bytes| == |text|
  {
    seq(|text|, i requires 0 <= i < |text| => text[i] as int as Byte)
  }

  const MAGIC: seq<Byte> := Ascii("openssh-key-v1") + [0]
  const KEY_TYPE: seq<Byte> := Ascii("ssh-ed25519")
  const NONE: seq<Byte> := Ascii("none")

  /** "openssh-key-v1" and a zero byte, "ssh-ed25519" and "none". */
  lemma ConstantsAreAscii()
    ensures MAGIC == [111, 112, 101, 110, 115, 115, 104, 45, 107, 101, 121, 45, 118, 49, 0]
    ensures KEY_TYPE == [115, 115, 104, 45, 101, 100, 50, 53, 53, 49, 57]
    ensures NONE == [110, 111, 110, 101]
  {}

  // --- printing --------------------------------------------------------------

  /** Four bytes, most significant first; larger values wrap around. */
  function Uint32(value: nat): (bytes: seq<Byte>)
    ensures |bytes| == 4
  {
    var v := value % TWO_TO_THE_32;
    [(v / 0x100_0000) as Byte, (v / 0x1_0000 % 0x100) as Byte, (v / 0x100 % 0x100) as Byte, (v % 0x100) as Byte]
  }

  function SshBytes(value: seq<Byte>): seq<Byte> {
    Uint32(|value|) + value
  }

  function Flatten(parts: seq<seq<Byte>>): seq<Byte> {
    if parts == [] then [] else Flatten(parts[..|parts| - 1]) + parts[|parts| - 1]
  }

  function PaddingLength(length: nat): (n: nat)
    ensures n < 8 && (length + n) % 8 == 0
  {
    (8 - length % 8) % 8
  }

  /** 1, 2, 3, … */
  function Padding(n: nat): (p: seq<Byte>)
    requires n < 8
    ensures |p| == n && forall i | 0 <= i < n :: p[i] as int == i + 1
  {
    seq(n, i requires 0 <= i < n => (i + 1) as Byte)
  }

  // --- reading -----------------------------------------------------------------

  datatype Read<T> = Read(value: T, rest: seq<Byte>)

  function ReadUint32(bytes: seq<Byte>): Option<Read<int>> {
    if |bytes| < 4 then None
    else
      var high := bytes[0] as int * 0x100_0000 + bytes[1] as int * 0x1_0000;
      var value := high + bytes[2] as int * 0x100 + bytes[3] as int;
      Some(Read(value, bytes[4..]))
  }

  function ReadBytes(bytes: seq<Byte>): Option<Read<seq<Byte>>> {
    match ReadUint32(bytes)
    case None => None
    case Some(r) => if |r.rest| < r.value then None else Some(Read(r.rest[..r.value], r.rest[r.value..]))
  }

  lemma Uint32IsRead(value: nat, rest: seq<Byte>)
    ensures ReadUint32(Uint32(value) + rest) == Some(Read(value % TWO_TO_THE_32, rest))
  {
    var v := value % TWO_TO_THE_32;
    assert v ==
           v / 0x100_0000 * 0x100_0000 + v / 0x1_0000 % 0x100 * 0x1_0000 + v / 0x100 % 0x100 * 0x100 + v % 0x100 by {
      assert v / 0x100 == v / 0x1_0000 * 0x100 + v / 0x100 % 0x100;
      assert v / 0x1_0000 == v / 0x100_0000 * 0x100 + v / 0x1_0000 % 0x100;
    }
    assert (Uint32(value) + rest)[4..] == rest;
  }

  lemma BytesAreRead(value: seq<Byte>, rest: seq<Byte>)
    requires |value| < TWO_TO_THE_32
    ensures ReadBytes(SshBytes(value) + rest) == Some(Read(value, rest))
  {
    assert SshBytes(value) + rest == Uint32(|value|) + (value + rest);
    Uint32IsRead(|value|, value + rest);
    assert (value + rest)[..|value|] == value && (value + rest)[|value|..] == rest;
  }

  /** Strings one after another. */
  function Strings(parts: seq<seq<Byte>>): seq<Byte> {
    if parts == [] then [] else SshBytes(parts[0]) + Strings(parts[1..])
  }

  function ReadStrings(bytes: seq<Byte>, n: nat): (r: Option<Read<seq<seq<Byte>>>>)
    ensures r.Some? ==> |r.value.value| == n
  {
    if n == 0 then Some(Read([], bytes))
    else
      match ReadBytes(bytes)
      case None => None
      case Some(first) =>
        match ReadStrings(first.rest, n - 1)
        case None => None
        case Some(others) => Some(Read([first.value] + others.value, others.rest))
  }

  lemma {:induction false} StringsAreRead(parts: seq<seq<Byte>>, rest: seq<Byte>)
    requires forall i | 0 <= i < |parts| :: |parts[i]| < TWO_TO_THE_32
    ensures ReadStrings(Strings(parts) + rest, |parts|) == Some(Read(parts, rest))
  {
    if parts == [] {
      assert Strings(parts) + rest == rest;
    } else {
      assert Strings(parts) + rest == SshBytes(parts[0]) + (Strings(parts[1..]) + rest);
      assert [parts[0]] + parts[1..] == parts;
      hide SshBytes, Uint32, ReadBytes, ReadUint32;
      StringsAreRead(parts[1..], rest);
      BytesAreRead(parts[0], Strings(parts[1..]) + rest);
    }
  }

  // --- the container ------------------------------------------------------------

  function PublicBlob(publicKey: seq<Byte>): seq<Byte> {
    Strings([KEY_TYPE, publicKey])
  }

  function PrivateBody(publicKey: seq<Byte>, seed: seq<Byte>, comment: seq<Byte>, checkint: nat): seq<Byte> {
    Uint32(checkint) + Uint32(checkint) + Strings([KEY_TYPE, publicKey, seed + publicKey, comment])
  }

  function Padded(body: seq<Byte>): (padded: seq<Byte>)
    ensures |padded| % 8 == 0
  {
    body + Padding(PaddingLength(|body|))
  }

  function Container(publicKey: seq<Byte>, seed: seq<Byte>, comment: seq<Byte>, checkint: nat): seq<Byte> {
    MAGIC + Strings([NONE, NONE, []]) + Uint32(1)
    + Strings([PublicBlob(publicKey), Padded(PrivateBody(publicKey, seed, comment, checkint))])
  }

  /** Everything a reader finds in a container. */
  datatype Contents = Contents(
    methods: seq<seq<Byte>>,
    keys: int,
    publicFields: seq<seq<Byte>>,
    check1: int,
    check2: int,
    privateFields: seq<seq<Byte>>,
    padding: seq<Byte>)

  function ReadContainer(bytes: seq<Byte>): Option<Contents> {
    if !(MAGIC <= bytes) then None
    else
      match ReadStrings(bytes[|MAGIC|..], 3)
      case None => None
      case Some(methods) =>
        match ReadUint32(methods.rest)
        case None => None
        case Some(keys) =>
          match ReadStrings(keys.rest, 2)
          case None => None
          case Some(sections) =>
            if sections.rest != [] then None
            else ReadSections(methods.value, keys.value, sections.value[0], sections.value[1])
  }

  function ReadSections(methods: seq<seq<Byte>>, keys: int, blob: seq<Byte>, section: seq<Byte>): Option<Contents> {
    match (ReadStrings(blob, 2), ReadUint32(section))
    case (Some(fields), Some(check1)) =>
      (match ReadUint32(check1.rest)
       case None => None
       case Some(check2) =>
         match ReadStrings(check2.rest, 4)
         case None => None
         case Some(secret) =>
           if fields.rest != [] then None
           else Some(Contents(methods, keys, fields.value, check1.value, check2.value, secret.value, secret.rest)))
    case _ => None
  }

  lemma BlobIsRead(publicKey: seq<Byte>)
    requires |publicKey| == 32
    ensures ReadStrings(PublicBlob(publicKey), 2) == Some(Read([KEY_TYPE, publicKey], []))
  {
    StringsAreRead([KEY_TYPE, publicKey], []);
    assert PublicBlob(publicKey) + [] == PublicBlob(publicKey);
  }

  /** The private section is read back, down to its padding. */
  lemma SectionIsRead(check: nat, fields: seq<seq<Byte>>, padding: seq<Byte>)
    requires |fields| == 4 && forall i | 0 <= i < 4 :: |fields[i]| < TWO_TO_THE_32
    ensures var c := check % TWO_TO_THE_32;
            var section := Uint32(check) + Uint32(check) + Strings(fields) + padding;
            && ReadUint32(section).Some? && ReadUint32(section).value.value == c
            && ReadUint32(ReadUint32(section).value.rest).Some?
               && ReadUint32(ReadUint32(section).value.rest).value.value == c
            && ReadStrings(ReadUint32(ReadUint32(section).value.rest).value.rest, 4) == Some(Read(fields, padding))
  {
    var tail := Strings(fields) + padding;
    assert Uint32(check) + Uint32(check) + Strings(fields) + padding == Uint32(check) + (Uint32(check) + tail);
    hide Uint32, ReadUint32, Strings, ReadStrings;
    Uint32IsRead(check, Uint32(check) + tail);
    Uint32IsRead(check, tail);
    StringsAreRead(fields, padding);
  }

  /** Both sections are read back field by field. */
  lemma SectionsAreRead(methods: seq<seq<Byte>>, publicKey: seq<Byte>, seed: seq<Byte>, comment: seq<Byte>,
      checkint: nat)
    requires |publicKey| == |seed| == 32 && |comment| < TWO_TO_THE_32
    ensures var body := PrivateBody(publicKey, seed, comment, checkint);
            ReadSections(methods, 1, PublicBlob(publicKey), Padded(body)) ==
            Some(Contents(methods, 1, [KEY_TYPE, publicKey], checkint % TWO_TO_THE_32, checkint % TWO_TO_THE_32,
                          [KEY_TYPE, publicKey, seed + publicKey, comment], Padding(PaddingLength(|body|))))
  {
    var body := PrivateBody(publicKey, seed, comment, checkint);
    var fields := [KEY_TYPE, publicKey, seed + publicKey, comment];
    assert Padded(body) == Uint32(checkint) + Uint32(checkint) + Strings(fields) + Padding(PaddingLength(|body|));
    hide PublicBlob, PrivateBody, Padded, Strings, ReadStrings, Uint32, ReadUint32, PaddingLength, Padding;
    BlobIsRead(publicKey);
    SectionIsRead(checkint, fields, Padding(PaddingLength(|body|)));
  }

  lemma {:induction false} StringsLength(parts: seq<seq<Byte>>)
    ensures |Strings(parts)| == 4 * |parts| + TotalLength(parts)
  {
    if parts != [] {
      StringsLength(parts[1..]);
    }
  }

  function TotalLength(parts: seq<seq<Byte>>): nat {
    if parts == [] then 0 else |parts[0]| + TotalLength(parts[1..])
  }

  lemma MagicComesOff(rest: seq<Byte>)
    ensures MAGIC <= MAGIC + rest && (MAGIC + rest)[|MAGIC|..] == rest
  {}

  /** The outer layer of a container, whatever its two sections are. */
  lemma LayersAreRead(blob: seq<Byte>, section: seq<Byte>)
    requires |blob| < TWO_TO_THE_32 && |section| < TWO_TO_THE_32
    ensures ReadContainer(MAGIC + Strings([NONE, NONE, []]) + Uint32(1) + Strings([blob, section])) ==
            ReadSections([NONE, NONE, []], 1, blob, section)
  {
    hide ReadSections, Strings, ReadStrings, Uint32, ReadUint32, Ascii;
    var methods, sections := Strings([NONE, NONE, []]), Strings([blob, section]);
    assert |NONE| == 4 && sections + [] == sections;
    assert MAGIC + methods + Uint32(1) + sections == MAGIC + (methods + (Uint32(1) + sections));
    MagicComesOff(methods + (Uint32(1) + sections));
    StringsAreRead([NONE, NONE, []], Uint32(1) + sections);
    Uint32IsRead(1, sections);
    StringsAreRead([blob, section], []);
    hide MAGIC, NONE;
  }

  /** A whole container is read back, with its padding 1, 2, 3, … and every field
      as it went in. */
  lemma ContainersAreRead(publicKey: seq<Byte>, seed: seq<Byte>, comment: seq<Byte>, checkint: nat)
    requires |publicKey| == |seed| == 32 && |comment| < TWO_TO_THE_32 - 1000
    ensures ReadContainer(Container(publicKey, seed, comment, checkint)) ==
            Some(Contents([NONE, NONE, []], 1, [KEY_TYPE, publicKey], checkint % TWO_TO_THE_32,
              checkint % TWO_TO_THE_32,
                          [KEY_TYPE, publicKey, seed + publicKey, comment],
                          Padding(PaddingLength(|PrivateBody(publicKey, seed, comment, checkint)|))))
  {
    hide PublicBlob, PrivateBody, Padded, ReadSections, ReadContainer, Strings, Uint32, PaddingLength, Padding;
    BodyIsShort(publicKey, seed, comment, checkint);
    LayersAreRead(PublicBlob(publicKey), Padded(PrivateBody(publicKey, seed, comment, checkint)));
    SectionsAreRead([NONE, NONE, []], publicKey, seed, comment, checkint);
  }

  lemma BodyIsShort(publicKey: seq<Byte>, seed: seq<Byte>, comment: seq<Byte>, checkint: nat)
    requires |publicKey| == |seed| == 32 && |comment| < TWO_TO_THE_32 - 1000
    ensures |PublicBlob(publicKey)| < TWO_TO_THE_32
    ensures |Padded(PrivateBody(publicKey, seed, comment, checkint))| < TWO_TO_THE_32
  {
    StringsLength([KEY_TYPE, publicKey]);
    StringsLength([KEY_TYPE, publicKey, seed + publicKey, comment]);
    Lengths(publicKey, seed, comment);
  }

  lemma Lengths(publicKey: seq<Byte>, seed: seq<Byte>, comment: seq<Byte>)
    ensures TotalLength([KEY_TYPE, publicKey]) == 11 + |publicKey|
    ensures TotalLength([KEY_TYPE, publicKey, seed + publicKey, comment]) == 11 + 2 * |publicKey| + |seed| + |comment|
  {
    assert |KEY_TYPE| == 11;
    var two, four := [KEY_TYPE, publicKey], [KEY_TYPE, publicKey, seed + publicKey, comment];
    assert two[1..] == [publicKey] && four[1..][1..][1..] == [comment];
    assert TotalLength([publicKey]) == |publicKey| && TotalLength([comment]) == |comment|;
    assert TotalLength(four[1..][1..]) == |seed + publicKey| + |comment|;
  }
}
