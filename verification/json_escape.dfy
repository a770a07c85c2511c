/**
 Escaping of JSON strings, byte by byte, with the decoder of section 7 of RFC 8259 as its
 inverse.
 */
module JsonString {
  import opened Common

  type Bytes = seq<byte>

  const QUOTE: byte := 0x22
  const BACKSLASH: byte := 0x5c

  // Writing

  function HexDigit(n: byte): byte
    requires n < 16
  {
    if n < 10 then 0x30 + n else 0x61 + (n - 10)
  }

  /** The letter of a two-character escape. */
  function ShortEscape(b: byte): Option<byte> {
    if b == QUOTE then Some(QUOTE)
    else if b == BACKSLASH then Some(BACKSLASH)
    else if b == 0x08 then Some(0x62)
    else if b == 0x0c then Some(0x66)
    else if b == 0x0a then Some(0x6e)
    else if b == 0x0d then Some(0x72)
    else if b == 0x09 then Some(0x74)
    else None
  }

  function EscapeByte(b: byte): Bytes {
    match ShortEscape(b)
    case Some(letter) => [BACKSLASH, letter]
    case None =>
      if b < 0x20 then [BACKSLASH, 0x75, 0x30, 0x30, HexDigit(b / 16), HexDigit(b % 16)] else [b]
  }

  function Escaped(s: Bytes): Bytes {
    if s == [] then [] else EscapeByte(s[0]) + Escaped(s[1..])
  }

  method EscapeCharacter(character: byte) returns (added: Bytes)
    ensures added == EscapeByte(character)
  {
    if character == QUOTE {
      added := [BACKSLASH, QUOTE];
    } else if character == BACKSLASH {
      added := [BACKSLASH, BACKSLASH];
    } else if character == 0x08 {
      added := [BACKSLASH, 0x62];
    } else if character == 0x0c {
      added := [BACKSLASH, 0x66];
    } else if character == 0x0a {
      added := [BACKSLASH, 0x6e];
    } else if character == 0x0d {
      added := [BACKSLASH, 0x72];
    } else if character == 0x09 {
      added := [BACKSLASH, 0x74];
    } else if character < 0x20 {
      added := [BACKSLASH, 0x75, 0x30, 0x30, HexDigit(character / 16), HexDigit(character % 16)];
    } else {
      added := [character];
    }
  }

  lemma {:induction false} EscapedAppend(s: Bytes, b: byte)
    ensures Escaped(s + [b]) == Escaped(s) + EscapeByte(b)
  {
    if s == [] {
      assert s + [b] == [b];
      assert Escaped([b]) == EscapeByte(b) + Escaped([]);
    } else {
      EscapedAppend(s[1..], b);
      assert (s + [b])[1..] == s[1..] + [b];
    }
  }

  method JsonEscape(value: Bytes) returns (output: Bytes)
    ensures output == Escaped(value)
  {
    output := [];
    var i := 0;
    while i < |value|
      invariant 0 <= i <= |value|
      invariant output == Escaped(value[..i])
    {
      var added := EscapeCharacter(value[i]);
      EscapedAppend(value[..i], value[i]);
      assert value[..i + 1] == value[..i] + [value[i]];
      output := output + added;
      i := i + 1;
    }
    assert value[..i] == value;
  }

  // Reading

  function HexValue(b: byte): (v: Option<int>)
    ensures v.Some? ==> 0 <= v.value < 16
  {
    if 0x30 <= b <= 0x39 then Some((b - 0x30) as int)
    else if 0x61 <= b <= 0x66 then Some((b - 0x61) as int + 10)
    else if 0x41 <= b <= 0x46 then Some((b - 0x41) as int + 10)
    else None
  }

  /** The code unit of four hexadecimal digits. */
  function CodeUnit(s: Bytes): (u: Option<int>)
    ensures u.Some? ==> |s| >= 4 && 0 <= u.value < 0x1_0000
  {
    if |s| < 4 then None
    else AppendHex(AppendHex(AppendHex(HexValue(s[0]), HexValue(s[1])), HexValue(s[2])), HexValue(s[3]))
  }

  function AppendHex(n: Option<int>, digit: Option<int>): Option<int> {
    if n.None? || digit.None? then None else Some(n.value * 16 + digit.value)
  }

  /** UTF-8. */
  function Utf8(c: int): Bytes
    requires 0 <= c < 0x11_0000
  {
    if c < 0x80 then [c as byte]
    else if c < 0x800 then [(0xc0 + c / 0x40) as byte, (0x80 + c % 0x40) as byte]
    else if c < 0x1_0000 then
      [(0xe0 + c / 0x1000) as byte, (0x80 + c / 0x40 % 0x40) as byte, (0x80 + c % 0x40) as byte]
    else
      [(0xf0 + c / 0x4_0000) as byte, (0x80 + c / 0x1000 % 0x40) as byte, (0x80 + c / 0x40 % 0x40) as byte,
       (0x80 + c % 0x40) as byte]
  }

  /** What follows a backslash: the bytes meant, and how many characters say so. A surrogate
      pair takes two `\u` escapes. */
  function ReadEscape(s: Bytes): (r: Option<(Bytes, nat)>)
    ensures r.Some? ==> 1 <= r.value.1 <= |s|
  {
    if s == [] then None
    else if s[0] == QUOTE || s[0] == BACKSLASH || s[0] == 0x2f then Some(([s[0]], 1))
    else if s[0] == 0x62 then Some(([0x08], 1))
    else if s[0] == 0x66 then Some(([0x0c], 1))
    else if s[0] == 0x6e then Some(([0x0a], 1))
    else if s[0] == 0x72 then Some(([0x0d], 1))
    else if s[0] == 0x74 then Some(([0x09], 1))
    else if s[0] == 0x75 then ReadUnicode(s[1..])
    else None
  }

  function ReadUnicode(s: Bytes): (r: Option<(Bytes, nat)>)
    ensures r.Some? ==> 1 <= r.value.1 <= |s| + 1
  {
    match CodeUnit(s)
    case None => None
    case Some(u) =>
      if 0xd800 <= u < 0xdc00 then
        if |s| < 6 || s[4] != BACKSLASH || s[5] != 0x75 then None
        else
          match CodeUnit(s[6..])
          case None => None
          case Some(v) =>
            if 0xdc00 <= v < 0xe000 then Some((Utf8(0x1_0000 + (u - 0xd800) * 0x400 + (v - 0xdc00)), 11)) else None
      else if 0xdc00 <= u < 0xe000 then None
      else Some((Utf8(u), 5))
  }

  /** The value of the characters between the quotes of a JSON string, or nothing if they are
      not allowed there. */
  function Unescaped(s: Bytes): Option<Bytes>
    decreases |s|
  {
    if s == [] then Some([])
    else if s[0] == QUOTE || s[0] < 0x20 then None
    else if s[0] == BACKSLASH then
      match ReadEscape(s[1..])
      case None => None
      case Some(e) => Prefixed(e.0, Unescaped(s[1 + e.1..]))
    else Prefixed([s[0]], Unescaped(s[1..]))
  }

  function Prefixed(a: Bytes, b: Option<Bytes>): Option<Bytes> {
    match b
    case None => None
    case Some(v) => Some(a + v)
  }

  /** Where the string that starts here ends: at the first quote that no backslash escapes. */
  function StringEnd(s: Bytes): Option<nat>
    decreases |s|
  {
    if s == [] then None
    else if s[0] == QUOTE then Some(0)
    else
      var n := if s[0] == BACKSLASH then 2 else 1;
      if |s| < n then None
      else
        match StringEnd(s[n..])
        case None => None
        case Some(i) => Some(i + n)
  }

  // The letters

  /** The ASCII code of a character. */
  function Ascii(c: char): byte
    requires c < 128 as char
  {
    c as int as byte
  }

  /** The escapes are those of section 7 of RFC 8259: seven characters have a letter, every
      other control character is written with the four hexadecimal digits of its code, and
      nothing else is changed. */
  lemma EscapesAre(b: byte)
    ensures b == Ascii('"') ==> EscapeByte(b) == [Ascii('\\'), Ascii('"')]
    ensures b == Ascii('\\') ==> EscapeByte(b) == [Ascii('\\'), Ascii('\\')]
    ensures b == 8 ==> EscapeByte(b) == [Ascii('\\'), Ascii('b')]
    ensures b == Ascii('\t') ==> EscapeByte(b) == [Ascii('\\'), Ascii('t')]
    ensures b == Ascii('\n') ==> EscapeByte(b) == [Ascii('\\'), Ascii('n')]
    ensures b == 12 ==> EscapeByte(b) == [Ascii('\\'), Ascii('f')]
    ensures b == Ascii('\r') ==> EscapeByte(b) == [Ascii('\\'), Ascii('r')]
    ensures b < 32 && b !in {8, 9, 10, 12, 13} ==>
      && |EscapeByte(b)| == 6
      && EscapeByte(b)[..4] == [Ascii('\\'), Ascii('u'), Ascii('0'), Ascii('0')]
      && HexValue(EscapeByte(b)[4]) == Some(b as int / 16) && HexValue(EscapeByte(b)[5]) == Some(b as int % 16)
    ensures b >= 32 && b != Ascii('"') && b != Ascii('\\') ==> EscapeByte(b) == [b]
  {
  }

  /** And those are the digits: lower case is written, both cases are read. */
  lemma DigitsAre(b: byte, v: int)
    ensures HexValue(b) == Some(v) <==>
      || (0 <= v <= 9 && b as int == '0' as int + v)
      || (10 <= v <= 15 && (b as int == 'a' as int + v - 10 || b as int == 'A' as int + v - 10))
  {
  }

  // One is the inverse of the other

  lemma HexRoundTrip(b: byte)
    requires b < 0x20
    ensures CodeUnit([0x30, 0x30, HexDigit(b / 16), HexDigit(b % 16)]) == Some(b as int)
  {
    assert HexValue(HexDigit(b / 16)) == Some((b / 16) as int);
    assert HexValue(HexDigit(b % 16)) == Some((b % 16) as int);
  }

  lemma ByteRoundTrip(b: byte, rest: Bytes)
    ensures Unescaped(EscapeByte(b) + rest) == Prefixed([b], Unescaped(rest))
  {
    if ShortEscape(b).Some? {
      ShortRoundTrip(b, ShortEscape(b).value, rest);
    } else if b < 0x20 {
      ControlRoundTrip(b, rest);
    } else {
      PlainRoundTrip(b, rest);
    }
  }

  lemma ShortRoundTrip(b: byte, letter: byte, rest: Bytes)
    requires ShortEscape(b) == Some(letter)
    ensures Unescaped([BACKSLASH, letter] + rest) == Prefixed([b], Unescaped(rest))
  {
    var s := [BACKSLASH, letter] + rest;
    assert s[1..] == [letter] + rest && s[2..] == rest;
    assert ReadEscape([letter] + rest) == Some(([b], 1));
  }

  lemma PlainRoundTrip(b: byte, rest: Bytes)
    requires b >= 0x20 && b != QUOTE && b != BACKSLASH
    ensures Unescaped([b] + rest) == Prefixed([b], Unescaped(rest))
  {
    assert ([b] + rest)[1..] == rest;
  }

  lemma ControlRoundTrip(b: byte, rest: Bytes)
    requires b < 0x20 && ShortEscape(b).None?
    ensures Unescaped(EscapeByte(b) + rest) == Prefixed([b], Unescaped(rest))
  {
    var d := [0x30, 0x30, HexDigit(b / 16), HexDigit(b % 16)];
    var s := EscapeByte(b) + rest;
    HexRoundTrip(b);
    SameCodeUnit(d, rest);
    assert s[1..][1..] == d + rest;
    assert ReadEscape(s[1..]) == Some(([b], 5));
    assert s[6..] == rest;
  }

  lemma SameCodeUnit(d: Bytes, rest: Bytes)
    requires |d| == 4
    ensures CodeUnit(d + rest) == CodeUnit(d)
  {
  }

  /** Every byte string is recovered from its escaped form. */
  lemma {:induction false} EscapeRoundTrip(s: Bytes)
    ensures Unescaped(Escaped(s)) == Some(s)
  {
    if s != [] {
      EscapeRoundTrip(s[1..]);
      ByteRoundTrip(s[0], Escaped(s[1..]));
      assert [s[0]] + s[1..] == s;
    }
  }

  lemma ByteIsSafe(b: byte)
    ensures forall i :: 0 <= i < |EscapeByte(b)| ==> EscapeByte(b)[i] >= 0x20
  {
  }

  /** The output holds no control character. */
  lemma {:induction false} NoControlCharacter(s: Bytes)
    ensures forall i :: 0 <= i < |Escaped(s)| ==> Escaped(s)[i] >= 0x20
  {
    if s != [] {
      NoControlCharacter(s[1..]);
      ByteIsSafe(s[0]);
    }
  }

  lemma EndAfterByte(b: byte, rest: Bytes)
    requires StringEnd(rest).Some?
    ensures StringEnd(EscapeByte(b) + rest) == Some(|EscapeByte(b)| + StringEnd(rest).value)
  {
    if ShortEscape(b).Some? {
      EndAfterShort(ShortEscape(b).value, rest);
    } else if b < 0x20 {
      EndAfterControl(b, rest);
    } else {
      EndAfterPlain([b], rest);
    }
  }

  lemma EndAfterShort(letter: byte, rest: Bytes)
    requires StringEnd(rest).Some?
    ensures StringEnd([BACKSLASH, letter] + rest) == Some(2 + StringEnd(rest).value)
  {
    assert ([BACKSLASH, letter] + rest)[2..] == rest;
  }

  lemma EndAfterControl(b: byte, rest: Bytes)
    requires StringEnd(rest).Some? && b < 0x20 && ShortEscape(b).None?
    ensures StringEnd(EscapeByte(b) + rest) == Some(|EscapeByte(b)| + StringEnd(rest).value)
  {
    var d := [0x30, 0x30, HexDigit(b / 16), HexDigit(b % 16)];
    EndAfterPlain(d, rest);
    EndAfterShort(0x75, d + rest);
    Regrouped([BACKSLASH, 0x75], d, rest);
    assert EscapeByte(b) == [BACKSLASH, 0x75] + d;
  }

  lemma {:induction false} EndAfterPlain(p: Bytes, rest: Bytes)
    requires StringEnd(rest).Some? && forall i :: 0 <= i < |p| ==> p[i] != QUOTE && p[i] != BACKSLASH
    ensures StringEnd(p + rest) == Some(|p| + StringEnd(rest).value)
  {
    if p == [] {
      assert p + rest == rest;
    } else {
      EndAfterPlain(p[1..], rest);
      assert (p + rest)[1..] == p[1..] + rest;
    }
  }

  lemma {:induction false} EndInTail(s: Bytes, tail: Bytes)
    requires StringEnd(tail) == Some(0)
    ensures StringEnd(Escaped(s) + tail) == Some(|Escaped(s)|)
  {
    if s == [] {
      assert Escaped(s) + tail == tail;
    } else {
      EndInTail(s[1..], tail);
      EndAfterByte(s[0], Escaped(s[1..]) + tail);
      Regrouped(EscapeByte(s[0]), Escaped(s[1..]), tail);
    }
  }

  /** No quote in the output ends the string early: whatever the value, a reader of the
      document finds the end of the string at the quote the writer put behind it. */
  lemma EndsWhereWritten(s: Bytes, document: Bytes)
    ensures StringEnd(Escaped(s) + [QUOTE] + document) == Some(|Escaped(s)|)
  {
    EndInTail(s, [QUOTE] + document);
    Regrouped(Escaped(s), [QUOTE], document);
  }
}
