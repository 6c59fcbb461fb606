/** Text as bytes: UTF-8 as in section 3 of RFC 3629. Text is a sequence of Unicode
    scalar values. */
module Utf8 {
  import opened Wrappers
  import opened SshKey

  /** The low six bits behind the mark of a following byte. */
  function Following(n: nat): Byte {
    (0x80 + n % 0x40) as Byte
  }

  function EncodeChar(c: char): (bytes: seq<Byte>)
    ensures 1 <= |bytes| <= 4
  {
    var n := c as nat;
    if n < 0x80 then [n as Byte]
    else if n < 0x800 then [(0xC0 + n / 0x40) as Byte, Following(n)]
    else if n < 0x1_0000 then [(0xE0 + n / 0x1000) as Byte, Following(n / 0x40), Following(n)]
    else [(0xF0 + n / 0x4_0000) as Byte, Following(n / 0x1000), Following(n / 0x40), Following(n)]
  }

  function Encode(text: string): seq<Byte> {
    if text == "" then [] else EncodeChar(text[0]) + Encode(text[1..])
  }

  // --- reading -----------------------------------------------------------------

  /** How many bytes a character takes, by its first one. */
  function Width(first: Byte): nat {
    if first < 0x80 then 1 else if first < 0xE0 then 2 else if first < 0xF0 then 3 else 4
  }

  function HighBits(first: Byte): nat {
    var b := first as nat;
    if b < 0x80 then b else if b < 0xE0 then b % 0x20 else if b < 0xF0 then b % 0x10 else b % 0x08
  }

  function LowBits(b: Byte): nat {
    b as nat % 0x40
  }

  function Value(high: nat, following: seq<Byte>): nat
    decreases |following|
  {
    if following == [] then high else Value(high * 0x40 + LowBits(following[0]), following[1..])
  }

  function ToChar(n: nat): Option<char> {
    if n < 0xD800 || 0xE000 <= n < 0x11_0000 then Some(n as char) else None
  }

  function Decode(bytes: seq<Byte>): Option<string> {
    if bytes == [] then Some("")
    else if |bytes| < Width(bytes[0]) then None
    else
      var width := Width(bytes[0]);
      match ToChar(Value(HighBits(bytes[0]), bytes[1..width]))
      case None => None
      case Some(c) =>
        match Decode(bytes[width..])
        case None => None
        case Some(rest) => Some([c] + rest)
  }

  lemma OneFollows(high: nat, a: Byte)
    ensures Value(high, [a]) == high * 0x40 + LowBits(a)
  {
    assert [a][1..] == [];
  }

  lemma TwoFollow(high: nat, a: Byte, b: Byte)
    ensures Value(high, [a, b]) == (high * 0x40 + LowBits(a)) * 0x40 + LowBits(b)
  {
    assert [a, b][1..] == [b];
    OneFollows(high * 0x40 + LowBits(a), b);
  }

  lemma ThreeFollow(high: nat, a: Byte, b: Byte, c: Byte)
    ensures Value(high, [a, b, c]) == ((high * 0x40 + LowBits(a)) * 0x40 + LowBits(b)) * 0x40 + LowBits(c)
  {
    assert [a, b, c][1..] == [b, c];
    TwoFollow(high * 0x40 + LowBits(a), b, c);
  }

  lemma FollowingKeepsSixBits(n: nat)
    ensures LowBits(Following(n)) == n % 0x40
  {}

  /** Splitting a number into groups of six bits loses nothing. */
  lemma GroupsOfSix(n: nat)
    ensures n / 0x40 * 0x40 + n % 0x40 == n
    ensures (n / 0x1000 * 0x40 + n / 0x40 % 0x40) * 0x40 + n % 0x40 == n
    ensures ((n / 0x4_0000 * 0x40 + n / 0x1000 % 0x40) * 0x40 + n / 0x40 % 0x40) * 0x40 + n % 0x40 == n
  {
    assert n / 0x1000 == n / 0x40 / 0x40 && n / 0x4_0000 == n / 0x1000 / 0x40;
  }

  /** The first byte says how many there are, and holds the high bits. */
  lemma FirstByteIsRead(c: char)
    ensures var n, bytes := c as nat, EncodeChar(c);
            && |bytes| == Width(bytes[0])
            && HighBits(bytes[0]) == if n < 0x80 then n else if n < 0x800 then n / 0x40
                                     else if n < 0x1_0000 then n / 0x1000 else n / 0x4_0000
  {
    hide Following;
  }

  lemma CharIsRead(c: char)
    ensures var bytes := EncodeChar(c);
            |bytes| == Width(bytes[0]) && Value(HighBits(bytes[0]), bytes[1..]) == c as nat
  {
    var n, bytes := c as nat, EncodeChar(c);
    FirstByteIsRead(c);
    var high := HighBits(bytes[0]);
    FollowingKeepsSixBits(n);
    FollowingKeepsSixBits(n / 0x40);
    FollowingKeepsSixBits(n / 0x1000);
    hide Following, LowBits, HighBits, Width, Value;
    GroupsOfSix(n);
    if n < 0x80 {
      NoneFollow(high);
      assert bytes[1..] == [];
    } else if n < 0x800 {
      OneFollows(high, Following(n));
      assert bytes[1..] == [Following(n)];
    } else if n < 0x1_0000 {
      TwoFollow(high, Following(n / 0x40), Following(n));
      assert bytes[1..] == [Following(n / 0x40), Following(n)];
    } else {
      ThreeFollow(high, Following(n / 0x1000), Following(n / 0x40), Following(n));
      assert bytes[1..] == [Following(n / 0x1000), Following(n / 0x40), Following(n)];
    }
  }

  lemma NoneFollow(high: nat)
    ensures Value(high, []) == high
  {}

  /** Whatever the text, its bytes give it back. */
  lemma {:induction false} TextIsRead(text: string)
    ensures Decode(Encode(text)) == Some(text)
  {
    if text != "" {
      var first, rest := EncodeChar(text[0]), Encode(text[1..]);
      var bytes := first + rest;
      CharIsRead(text[0]);
      assert bytes[0] == first[0] && bytes[1..|first|] == first[1..] && bytes[|first|..] == rest;
      TextIsRead(text[1..]);
      assert [text[0]] + text[1..] == text;
    }
  }

  /** ASCII is its character codes. */
  lemma {:induction false} AsciiIsItself(text: string)
    requires IsAscii(text)
    ensures Encode(text) == Ascii(text)
  {
    if text != "" {
      AsciiIsItself(text[1..]);
      assert Ascii(text) == [text[0] as int as Byte] + Ascii(text[1..]);
    }
  }
}
