/**
 * The text form of RFC 4122 UUIDs (section 4 of RFC 9562) as the gateway
 * uses it through the google/uuid package: `String` writes the canonical
 * 36-character lower-case form, and `Parse` reads it back.
 */
module Uuid {
  import opened Wrappers
  import opened Text

  type Nibble = n: int | 0 <= n < 16

  /** A UUID as its 32 hexadecimal digits, most significant first. */
  type UUID = s: seq<Nibble> | |s| == 32 witness [0, 0, 0, 0, 0, 0, 0, 0, 0, 0, 0, 0, 0, 0, 0, 0, 0, 0, 0, 0, 0, 0, 0, 0, 0, 0, 0, 0, 0, 0, 0, 0]

  /** The all-zero UUID, which `Parse` returns beside an error. */
  const Nil: UUID := [0, 0, 0, 0, 0, 0, 0, 0, 0, 0, 0, 0, 0, 0, 0, 0, 0, 0, 0, 0, 0, 0, 0, 0, 0, 0, 0, 0, 0, 0, 0, 0]

  predicate IsLowerHexDigit(c: char) {
    '0' <= c <= '9' || 'a' <= c <= 'f'
  }

  /** The lower-case digit for a nibble. */
  function Digit(n: Nibble): (c: char)
    ensures IsLowerHexDigit(c)
  {
    if n < 10 then ('0' as int + n) as char else ('a' as int + n - 10) as char
  }

  /** The value of a hexadecimal digit of either case (the library's `xvalues` table). */
  function HexValue(c: char): (v: Option<Nibble>)
    ensures IsLowerHexDigit(c) ==> v.Some? && Digit(v.value) == c
  {
    if '0' <= c <= '9' then Some(c as int - '0' as int)
    else if 'a' <= c <= 'f' then Some(c as int - 'a' as int + 10)
    else if 'A' <= c <= 'F' then Some(c as int - 'A' as int + 10)
    else None
  }

  lemma HexValueOfDigit(n: Nibble)
    ensures HexValue(Digit(n)) == Some(n)
  {
  }

  /** The positions of the four hyphens in the 8-4-4-4-12 layout. */
  predicate IsHyphenPos(i: int) {
    i == 8 || i == 13 || i == 18 || i == 23
  }

  /** Position in the 36-character text of the j-th hexadecimal digit. */
  function Pos(j: nat): (i: nat)
    requires j < 32
    ensures i < 36 && !IsHyphenPos(i)
  {
    if j < 8 then j else if j < 12 then j + 1 else if j < 16 then j + 2 else if j < 20 then j + 3 else j + 4
  }

  /** The digit written at a non-hyphen position of the 36-character text. */
  function DigitIndex(i: nat): (j: nat)
    requires i < 36 && !IsHyphenPos(i)
    ensures j < 32 && Pos(j) == i
  {
    if i < 8 then i else if i < 13 then i - 1 else if i < 18 then i - 2 else if i < 23 then i - 3 else i - 4
  }

  /** The canonical text form: 36 characters, lower-case hexadecimal digits, and
      hyphens at positions 8, 13, 18 and 23. */
  predicate IsCanonical(s: string) {
    |s| == 36 && forall i :: 0 <= i < 36 ==> if IsHyphenPos(i) then s[i] == '-' else IsLowerHexDigit(s[i])
  }

  /** `UUID.String`: the canonical text of a UUID. */
  function ToString(u: UUID): (s: string)
    ensures IsCanonical(s)
    ensures forall j :: 0 <= j < 32 ==> HexValue(s[Pos(j)]) == Some(u[j])
  {
    var s := seq(36, i requires 0 <= i < 36 => if IsHyphenPos(i) then '-' else Digit(u[DigitIndex(i)]));
    assert forall j :: 0 <= j < 32 ==> s[Pos(j)] == Digit(u[j]) && HexValue(s[Pos(j)]) == Some(u[j]) by {
      forall j | 0 <= j < 32 ensures s[Pos(j)] == Digit(u[j]) && HexValue(s[Pos(j)]) == Some(u[j]) {
        HexValueOfDigit(u[j]);
      }
    }
    s
  }

  datatype ParseError = InvalidLength(length: nat) | InvalidUrnPrefix(prefix: string) | InvalidFormat

  /** What `uuid.Parse` returns: a UUID value and an error, as a Go pair. */
  datatype Parsed = Parsed(id: UUID, err: Option<ParseError>)

  /** Position of the j-th digit in the hyphenated (36) or the bare (32) form. */
  function DigitPos(hyphenated: bool, j: nat): nat
    requires j < 32
  {
    if hyphenated then Pos(j) else j
  }

  /** Every digit position of the form holds a hexadecimal digit. */
  predicate AllHex(s: string, hyphenated: bool)
    requires |s| == if hyphenated then 36 else 32
  {
    forall j :: 0 <= j < 32 ==> HexValue(s[DigitPos(hyphenated, j)]).Some?
  }

  function ValueAt(s: string, i: nat): (n: Nibble)
    requires i < |s| && HexValue(s[i]).Some?
    ensures Some(n) == HexValue(s[i])
  {
    HexValue(s[i]).value
  }

  /** The UUID whose digits are read from the positions of the form. */
  function Digits(s: string, hyphenated: bool): (u: UUID)
    requires |s| == if hyphenated then 36 else 32
    requires AllHex(s, hyphenated)
    ensures forall j :: 0 <= j < 32 ==> Some(u[j]) == HexValue(s[DigitPos(hyphenated, j)])
  {
    var u := seq(32, j requires 0 <= j < 32 => ValueAt(s, DigitPos(hyphenated, j)) as int);
    assert forall j :: 0 <= j < 32 ==> 0 <= u[j] < 16;
    u
  }

  /** The hyphenated layout read from the first 36 characters of `s`; whatever
      follows them is not looked at. */
  function ParseHyphenated(s: string): (p: Parsed)
    requires |s| >= 36
    ensures p.err.Some? ==> p.id == Nil
  {
    var h := s[..36];
    if h[8] != '-' || h[13] != '-' || h[18] != '-' || h[23] != '-' then
      Parsed(Nil, Some(InvalidFormat))
    else if AllHex(h, true) then
      Parsed(Digits(h, true), None)
    else
      Parsed(Nil, Some(InvalidFormat))
  }

  const UrnPrefix := "urn:uuid:"

  /** The number of bytes of a character in UTF-8. */
  function RuneLen(c: char): (n: nat)
    ensures 1 <= n <= 4 && (n == 1 <==> c as int < 0x80)
  {
    if c as int < 0x80 then 1 else if c as int < 0x800 then 2 else if c as int < 0x10000 then 3 else 4
  }

  /** `len(s)` in Go: the number of bytes of the text in UTF-8. */
  function ByteLen(s: string): (n: nat)
    ensures n >= |s|
  {
    if s == [] then 0 else RuneLen(s[0]) + ByteLen(s[1..])
  }

  /** Every character is a single byte in UTF-8. */
  predicate IsAscii(s: string) {
    forall i :: 0 <= i < |s| ==> s[i] as int < 0x80
  }

  /** Text of single-byte characters has as many bytes as characters. */
  lemma {:induction false} AsciiByteLen(s: string)
    requires IsAscii(s)
    ensures ByteLen(s) == |s|
    decreases |s|
  {
    if s != [] {
      assert IsAscii(s[1..]) by {
        forall i | 0 <= i < |s[1..]| ensures s[1..][i] as int < 0x80 {
          assert s[1..][i] == s[i + 1];
        }
      }
      AsciiByteLen(s[1..]);
    }
  }

  /** The first nine characters, or all of a shorter text. */
  function Head9(s: string): string {
    if |s| < 9 then s else s[..9]
  }

  /** `uuid.Parse`, which switches on the length in bytes: the hyphenated 36-byte
      form; the same after a 9-byte "urn:uuid:" of any case (45 bytes); the same
      after any one byte (38 bytes, meant for braces, neither of which is
      checked); and the bare 32-digit form. Digits of either case are accepted.
      Every byte of a multi-byte character is at least 0x80, and each of these
      forms checks some byte of every such character against a hyphen, a hex
      digit or the URN prefix, so text with one never parses. */
  function Parse(s: string): (p: Parsed)
    ensures p.err.Some? ==> p.id == Nil
    ensures p.err.None? ==> IsAscii(s) && |s| in {32, 36, 38, 45}
    ensures p.err.Some? && p.err.value.InvalidLength? ==> p.err.value.length == ByteLen(s)
  {
    if !IsAscii(s) then
      var n := ByteLen(s);
      if n == 45 && !(IsAscii(Head9(s)) && EqualFold(Head9(s), UrnPrefix)) then
        Parsed(Nil, Some(InvalidUrnPrefix(Head9(s))))
      else if n in {32, 36, 38, 45} then
        Parsed(Nil, Some(InvalidFormat))
      else
        Parsed(Nil, Some(InvalidLength(n)))
    else if |s| == 36 then
      ParseHyphenated(s)
    else if |s| == 45 then
      if !EqualFold(s[..9], UrnPrefix) then Parsed(Nil, Some(InvalidUrnPrefix(s[..9])))
      else ParseHyphenated(s[9..])
    else if |s| == 38 then
      ParseHyphenated(s[1..])
    else if |s| == 32 then
      if AllHex(s, false) then
        Parsed(Digits(s, false), None)
      else
        Parsed(Nil, Some(InvalidFormat))
    else
      AsciiByteLen(s);
      Parsed(Nil, Some(InvalidLength(|s|)))
  }

  /** The bare 32-digit text of a UUID, the other form `Parse` accepts. */
  function ToBareString(u: UUID): (s: string)
    ensures |s| == 32 && forall i :: 0 <= i < 32 ==> IsLowerHexDigit(s[i])
  {
    seq(32, j requires 0 <= j < 32 => Digit(u[j]))
  }

  /** The bare text of a UUID parses back to it without error, although it is
      not canonical text. */
  lemma ParseBareString(u: UUID)
    ensures Parse(ToBareString(u)) == Parsed(u, None)
    ensures !IsCanonical(ToBareString(u))
  {
    var s := ToBareString(u);
    forall j | 0 <= j < 32 ensures HexValue(s[DigitPos(false, j)]) == Some(u[j]) {
      HexValueOfDigit(u[j]);
    }
    assert AllHex(s, false);
  }

  /** A hyphenated text with any one single-byte character before it and any
      one after it (the braced form `{...}`, for one) parses to the UUID of the
      text inside, without error; it is not canonical text. */
  lemma ParseBraced(u: UUID, open: char, close: char)
    requires open as int < 0x80 && close as int < 0x80
    ensures Parse([open] + ToString(u) + [close]) == Parsed(u, None)
    ensures !IsCanonical([open] + ToString(u) + [close])
  {
    var s := [open] + ToString(u) + [close];
    assert s[1..][..36] == ToString(u);
    ParseToString(u);
  }

  /** With a multi-byte character in front, the same text is 39 bytes or more,
      so the parser reports an error of length. */
  lemma ParseMultibyteBraced(u: UUID, open: char, close: char)
    requires open as int >= 0x80 && close as int < 0x80
    ensures Parse([open] + ToString(u) + [close]).err == Some(InvalidLength(ByteLen([open] + ToString(u) + [close])))
    ensures ByteLen([open] + ToString(u) + [close]) > 38
  {
    var s := [open] + ToString(u) + [close];
    var t := ToString(u) + [close];
    assert s[1..] == t;
    assert IsAscii(t);
    AsciiByteLen(t);
    assert ByteLen(s) == RuneLen(open) + 37;
  }

  /** The URN form "urn:uuid:" + text parses to the UUID of the text, without
      error; it is not canonical text. */
  lemma ParseUrn(u: UUID)
    ensures Parse(UrnPrefix + ToString(u)) == Parsed(u, None)
    ensures !IsCanonical(UrnPrefix + ToString(u))
  {
    var s := UrnPrefix + ToString(u);
    assert s[..9] == UrnPrefix;
    assert s[9..][..36] == ToString(u);
    ParseToString(u);
  }

  /** Round trip: the canonical text of a UUID parses back to that UUID. */
  lemma ParseToString(u: UUID)
    ensures Parse(ToString(u)) == Parsed(u, None)
  {
    var s := ToString(u);
    assert s[..36] == s;
    var p := Parse(s);
    assert p.err.None?;
    assert p.id == u;
  }

  /** Every canonical text is the text of the UUID it parses to. */
  lemma ToStringParse(s: string)
    requires IsCanonical(s)
    ensures Parse(s).err.None? && ToString(Parse(s).id) == s
  {
    assert s[..36] == s;
    assert AllHex(s, true);
    var u := Parse(s).id;
    var t := ToString(u);
    forall i | 0 <= i < 36 ensures t[i] == s[i] {
      if !IsHyphenPos(i) {
        var j := DigitIndex(i);
        assert DigitPos(true, j) == i;
        assert HexValue(t[i]) == Some(u[j]) == HexValue(s[i]);
        assert Digit(u[j]) == s[i];
      }
    }
  }

  /** The gateway's test `uuid.Parse(p).String() == p` holds exactly for the
      canonical texts, whatever error the parse reports. */
  lemma {:induction false} RoundTripIffCanonical(s: string)
    ensures ToString(Parse(s).id) == s <==> IsCanonical(s)
  {
    if IsCanonical(s) {
      ToStringParse(s);
    }
  }
}
