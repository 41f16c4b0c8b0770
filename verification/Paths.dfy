/** Reversible escaping of operating-system paths, and abbreviation of the home directory. */
module Paths {
  import opened Types

  type Byte = b: int | 0 <= b < 256

  /** Text is a sequence of Unicode scalar values. */
  type Text = seq<nat>

  const NEWLINE: Byte := 0x0A
  const TAB: Byte := 0x09
  const RETURN: Byte := 0x0D
  const SLASH: Byte := 0x2F
  const BACKSLASH: Byte := 0x5C
  const TILDE: Byte := 0x7E

  // ----- UTF-8, as section 4 of RFC 3629 defines it

  predicate IsScalar(c: nat) {
    c < 0x11_0000 && !(0xD800 <= c < 0xE000)
  }

  /** The value without its lowest six bits, and those bits as a continuation byte. */
  function Upper(c: nat): nat { c / 0x40 }

  function Lowest(c: nat): Byte { 0x80 + c % 0x40 }

  function Utf8(c: nat): seq<Byte>
    requires IsScalar(c)
  {
    if c < 0x80 then [c]
    else if c < 0x800 then [0xC0 + Upper(c), Lowest(c)]
    else if c < 0x1_0000 then [0xE0 + Upper(Upper(c)), Lowest(Upper(c)), Lowest(c)]
    else [0xF0 + Upper(Upper(Upper(c))), Lowest(Upper(Upper(c))), Lowest(Upper(c)), Lowest(c)]
  }

  /**
   * What a byte string starts with: one character, bytes that are no character, or a character cut short by the end.
   */
  datatype Unit = Scalar(value: nat, length: nat) | Malformed(length: nat) | Truncated

  predicate Continues(b: Byte) { 0x80 <= b < 0xC0 }

  function Width(lead: Byte): nat {
    if lead < 0x80 then 1
    else if 0xC2 <= lead < 0xE0 then 2
    else if 0xE0 <= lead < 0xF0 then 3
    else if 0xF0 <= lead < 0xF5 then 4
    else 0
  }

  /** The second byte excludes overlong forms, surrogates, and values beyond U+10FFFF. */
  predicate SecondFits(lead: Byte, second: Byte) {
    if lead == 0xE0 then 0xA0 <= second < 0xC0
    else if lead == 0xED then 0x80 <= second < 0xA0
    else if lead == 0xF0 then 0x90 <= second < 0xC0
    else if lead == 0xF4 then 0x80 <= second < 0x90
    else Continues(second)
  }

  function Join2(a: int, b: int): int { (a - 0xC0) * 0x40 + (b - 0x80) }

  function Join3(a: int, b: int, c: int): int { (a - 0xE0) * 0x1000 + (b - 0x80) * 0x40 + (c - 0x80) }

  function Join4(a: int, b: int, c: int, d: int): int {
    (a - 0xF0) * 0x4_0000 + (b - 0x80) * 0x1000 + (c - 0x80) * 0x40 + (d - 0x80)
  }

  function First(b: seq<Byte>): (u: Unit)
    requires b != []
    ensures u.Scalar? ==> IsScalar(u.value) && 1 <= u.length <= |b| && u.length <= 4
    ensures u.Malformed? ==> 1 <= u.length <= |b|
  {
    var w := Width(b[0]);
    if w == 0 then Malformed(1)
    else if w == 1 then Scalar(b[0], 1)
    else if |b| < 2 then Truncated
    else if !SecondFits(b[0], b[1]) then Malformed(1)
    else if w == 2 then Scalar(Join2(b[0], b[1]), 2)
    else if |b| < 3 then Truncated
    else if !Continues(b[2]) then Malformed(2)
    else if w == 3 then Scalar(Join3(b[0], b[1], b[2]), 3)
    else if |b| < 4 then Truncated
    else if !Continues(b[3]) then Malformed(3)
    else Scalar(Join4(b[0], b[1], b[2], b[3]), 4)
  }

  // ----- escaping

  function HexDigit(n: nat): nat
    requires n < 16
  {
    if n < 10 then 0x30 + n else 0x61 + (n - 10)
  }

  function LowerHex(n: nat): Text {
    if n < 16 then [HexDigit(n)] else LowerHex(n / 16) + [HexDigit(n % 16)]
  }

  /** A backslash, an x and two hexadecimal digits. */
  function EscapedByte(b: Byte): Text {
    [BACKSLASH, 0x78, HexDigit(b / 16), HexDigit(b % 16)]
  }

  predicate IsControl(c: nat) {
    c < 0x20 || 0x7F <= c < 0xA0
  }

  function EscapedChar(c: nat): Text {
    if c == BACKSLASH then [BACKSLASH, BACKSLASH]
    else if c == NEWLINE then [BACKSLASH, 0x6E]
    else if c == RETURN then [BACKSLASH, 0x72]
    else if c == TAB then [BACKSLASH, 0x74]
    else if IsControl(c) && c < 0x80 then EscapedByte(c)
    else if IsControl(c) then [BACKSLASH, 0x75, 0x7B] + LowerHex(c) + [0x7D]
    else [c]
  }

  function EscapedBytes(b: seq<Byte>): Text {
    if b == [] then [] else EscapedByte(b[0]) + EscapedBytes(b[1..])
  }

  function EscapedChars(cs: seq<nat>): Text {
    if cs == [] then [] else EscapedChar(cs[0]) + EscapedChars(cs[1..])
  }

  /** Characters are escaped as characters, bytes outside any character one by one. */
  function Escaped(b: seq<Byte>): Text {
    if b == [] then []
    else
      match First(b)
      case Scalar(c, n) => EscapedChar(c) + Escaped(b[n..])
      case Malformed(n) => EscapedBytes(b[..n]) + Escaped(b[n..])
      case Truncated => EscapedBytes(b)
  }

  // ----- the loops of the program

  /** The characters of the longest valid prefix, and its length in bytes. */
  function ValidChars(b: seq<Byte>): seq<nat> {
    if b == [] || !First(b).Scalar? then [] else [First(b).value] + ValidChars(b[First(b).length..])
  }

  function ValidUpTo(b: seq<Byte>): (n: nat)
    ensures n <= |b|
  {
    if b == [] || !First(b).Scalar? then 0 else First(b).length + ValidUpTo(b[First(b).length..])
  }

  /** The valid prefix ends at the end, or where no character starts. */
  lemma {:induction false} ValidPrefixIsLongest(b: seq<Byte>)
    ensures ValidUpTo(b) < |b| ==> !First(b[ValidUpTo(b)..]).Scalar?
    decreases |b|
  {
    if b != [] && First(b).Scalar? {
      var tail := b[First(b).length..];
      ValidPrefixIsLongest(tail);
      assert tail[ValidUpTo(tail)..] == b[ValidUpTo(b)..];
    } else {
      assert b[0..] == b;
    }
  }

  lemma Assoc<T>(a: seq<T>, b: seq<T>, c: seq<T>)
    ensures a + b + c == a + (b + c)
  {
  }

  lemma {:induction false} ValidPrefixEscapes(b: seq<Byte>)
    ensures Escaped(b) == EscapedChars(ValidChars(b)) + Escaped(b[ValidUpTo(b)..])
  {
    if b != [] && First(b).Scalar? {
      var c, k := First(b).value, First(b).length;
      var tail := b[k..];
      ValidPrefixEscapes(tail);
      assert tail[ValidUpTo(tail)..] == b[ValidUpTo(b)..];
      assert ([c] + ValidChars(tail))[1..] == ValidChars(tail);
      Assoc(EscapedChar(c), EscapedChars(ValidChars(tail)), Escaped(tail[ValidUpTo(tail)..]));
    } else {
      assert b[0..] == b;
    }
  }

  method EscapeValid(cs: seq<nat>, escaped0: Text) returns (escaped: Text)
    ensures escaped == escaped0 + EscapedChars(cs)
  {
    escaped := escaped0;
    assert cs[0..] == cs;
    for i := 0 to |cs|
      invariant escaped + EscapedChars(cs[i..]) == escaped0 + EscapedChars(cs)
    {
      assert cs[i..][1..] == cs[i + 1..];
      Assoc(escaped, EscapedChar(cs[i]), EscapedChars(cs[i + 1..]));
      escaped := escaped + EscapedChar(cs[i]);
    }
  }

  method EscapeInvalid(invalid: seq<Byte>, escaped0: Text) returns (escaped: Text)
    ensures escaped == escaped0 + EscapedBytes(invalid)
  {
    escaped := escaped0;
    assert invalid[0..] == invalid;
    for i := 0 to |invalid|
      invariant escaped + EscapedBytes(invalid[i..]) == escaped0 + EscapedBytes(invalid)
    {
      assert invalid[i..][1..] == invalid[i + 1..];
      Assoc(escaped, EscapedByte(invalid[i]), EscapedBytes(invalid[i + 1..]));
      escaped := escaped + EscapedByte(invalid[i]);
    }
  }

  /** The bytes escaped one by one in front of what is left, when a byte string does not start with a character. */
  function InvalidLength(b: seq<Byte>): (n: nat)
    requires b != [] && !First(b).Scalar?
    ensures 1 <= n <= |b|
  {
    if First(b).Malformed? then First(b).length else |b|
  }

  lemma InvalidEscapes(b: seq<Byte>)
    requires b != [] && !First(b).Scalar?
    ensures Escaped(b) == EscapedBytes(b[..InvalidLength(b)]) + Escaped(b[InvalidLength(b)..])
  {
    if First(b).Truncated? {
      assert b[..|b|] == b && b[|b|..] == [];
    }
  }

  method EscapeOs(value: seq<Byte>) returns (escaped: Text)
    ensures escaped == Escaped(value)
  {
    escaped := [];
    var remaining := value;
    while remaining != []
      invariant escaped + Escaped(remaining) == Escaped(value)
      decreases |remaining|
    {
      ghost var before, left := escaped, remaining;
      ValidPrefixEscapes(left);
      ValidPrefixIsLongest(left);
      var valid := ValidUpTo(remaining);
      escaped := EscapeValid(ValidChars(remaining), escaped);
      Assoc(before, EscapedChars(ValidChars(left)), Escaped(left[valid..]));
      remaining := remaining[valid..];
      if remaining != [] {
        before, left := escaped, remaining;
        InvalidEscapes(left);
        var length := InvalidLength(remaining);
        escaped := EscapeInvalid(remaining[..length], escaped);
        Assoc(before, EscapedBytes(left[..length]), Escaped(left[length..]));
        remaining := remaining[length..];
      }
    }
  }

  // ----- a decoder

  function HexValue(d: nat): (v: Option<nat>)
    ensures v.Some? ==> v.value < 16
  {
    if 0x30 <= d < 0x3A then Some(d - 0x30) else if 0x61 <= d < 0x67 then Some(d - 0x61 + 10) else None
  }

  /** The bytes a token of escaped text stands for, and the token's length. */
  datatype Token = Token(bytes: seq<Byte>, length: nat)

  function FirstToken(t: Text): (r: Option<Token>)
    requires t != []
    ensures r.Some? ==> 1 <= r.value.length <= |t|
  {
    if t[0] != BACKSLASH then
      if IsScalar(t[0]) then Some(Token(Utf8(t[0]), 1)) else None
    else if |t| < 2 then None
    else if t[1] == BACKSLASH then Some(Token([BACKSLASH], 2))
    else if t[1] == 0x6E then Some(Token([NEWLINE], 2))
    else if t[1] == 0x72 then Some(Token([RETURN], 2))
    else if t[1] == 0x74 then Some(Token([TAB], 2))
    else if t[1] == 0x78 && |t| >= 4 && HexValue(t[2]).Some? && HexValue(t[3]).Some? then
      Some(Token([HexValue(t[2]).value * 16 + HexValue(t[3]).value], 4))
    else if t[1] == 0x75 && |t| >= 6 && HexValue(t[3]).Some? && HexValue(t[4]).Some? then
      Some(Token(Utf8(HexValue(t[3]).value * 16 + HexValue(t[4]).value), 6))
    else None
  }

  function Unescaped(t: Text): Option<seq<Byte>> {
    if t == [] then Some([])
    else if FirstToken(t).None? then None
    else
      var token := FirstToken(t).value;
      match Unescaped(t[token.length..])
      case None => None
      case Some(rest) => Some(token.bytes + rest)
  }

  function Prefixed(bytes: seq<Byte>, rest: Option<seq<Byte>>): Option<seq<Byte>> {
    if rest.None? then None else Some(bytes + rest.value)
  }

  // ----- encoding and decoding of single characters

  lemma DecodedIsEncoded2(a: Byte, b: Byte)
    requires 0xC2 <= a < 0xE0 && Continues(b)
    ensures var c := Join2(a, b); IsScalar(c) && Utf8(c) == [a, b]
  {
  }

  lemma Recombined(q: nat, b: Byte)
    requires Continues(b)
    ensures Upper(q * 0x40 + (b - 0x80)) == q && Lowest(q * 0x40 + (b - 0x80)) == b
  {
  }

  lemma DecodedIsEncoded3(a: Byte, b: Byte, d: Byte)
    requires 0xE0 <= a < 0xF0 && SecondFits(a, b) && Continues(d)
    ensures var c := Join3(a, b, d); IsScalar(c) && Utf8(c) == [a, b, d]
  {
    var high := (a - 0xE0) * 0x40 + (b - 0x80);
    assert Join3(a, b, d) == high * 0x40 + (d - 0x80);
    Recombined(high, d);
    Recombined(a - 0xE0, b);
  }

  lemma DecodedIsEncoded4(a: Byte, b: Byte, d: Byte, e: Byte)
    requires 0xF0 <= a < 0xF5 && SecondFits(a, b) && Continues(d) && Continues(e)
    ensures var c := Join4(a, b, d, e); IsScalar(c) && Utf8(c) == [a, b, d, e]
  {
    var top := (a - 0xF0) * 0x40 + (b - 0x80);
    var high := top * 0x40 + (d - 0x80);
    assert Join4(a, b, d, e) == high * 0x40 + (e - 0x80);
    Recombined(high, e);
    Recombined(top, d);
    Recombined(a - 0xF0, b);
  }

  /** A decoded character encodes to the bytes it was decoded from. */
  lemma DecodedIsEncoded(b: seq<Byte>)
    requires b != [] && First(b).Scalar?
    ensures Utf8(First(b).value) == b[..First(b).length]
  {
    match First(b).length
    case 1 =>
    case 2 => DecodedIsEncoded2(b[0], b[1]);
    case 3 => DecodedIsEncoded3(b[0], b[1], b[2]);
    case _ => DecodedIsEncoded4(b[0], b[1], b[2], b[3]);
  }

  lemma Split(c: nat)
    ensures c == Upper(c) * 0x40 + (Lowest(c) - 0x80) && Continues(Lowest(c))
  {
  }

  lemma EncodedIsDecoded3(c: nat)
    requires 0x800 <= c < 0x1_0000 && IsScalar(c)
    ensures var u := Utf8(c); SecondFits(u[0], u[1]) && Continues(u[2]) && Join3(u[0], u[1], u[2]) == c
  {
    Split(c);
    Split(Upper(c));
  }

  lemma EncodedIsDecoded4(c: nat)
    requires 0x1_0000 <= c && IsScalar(c)
    ensures var u := Utf8(c);
            SecondFits(u[0], u[1]) && Continues(u[2]) && Continues(u[3]) && Join4(u[0], u[1], u[2], u[3]) == c
  {
    Split(c);
    Split(Upper(c));
    Split(Upper(Upper(c)));
  }

  lemma FirstLooksAtUnit(u: seq<Byte>, s: seq<Byte>)
    requires u != [] && Width(u[0]) == |u|
    ensures First(u + s) == First(u)
  {
  }

  /** An encoded character is decoded again, whatever follows it. */
  lemma EncodedIsDecoded(c: nat, s: seq<Byte>)
    requires IsScalar(c)
    ensures First(Utf8(c) + s) == Scalar(c, |Utf8(c)|)
  {
    FirstLooksAtUnit(Utf8(c), s);
    if c >= 0x1_0000 {
      EncodedIsDecoded4(c);
    } else if c >= 0x800 {
      EncodedIsDecoded3(c);
    }
  }

  // ----- the round trip

  lemma HexDigitValue(n: nat)
    requires n < 16
    ensures HexValue(HexDigit(n)) == Some(n) && !IsControl(HexDigit(n))
  {
  }

  lemma ByteToken(b: Byte, s: Text)
    ensures FirstToken(EscapedByte(b) + s) == Some(Token([b], 4))
  {
    var t := EscapedByte(b) + s;
    assert t[..4] == EscapedByte(b);
    HexDigitValue(b / 16);
    HexDigitValue(b % 16);
    assert t[2] == HexDigit(b / 16) && t[3] == HexDigit(b % 16);
    assert b / 16 * 16 + b % 16 == b;
  }

  lemma CharToken(c: nat, s: Text)
    requires IsScalar(c)
    ensures FirstToken(EscapedChar(c) + s) == Some(Token(Utf8(c), |EscapedChar(c)|))
  {
    var t := EscapedChar(c) + s;
    assert t[..|EscapedChar(c)|] == EscapedChar(c);
    if IsControl(c) && c < 0x80 && c != NEWLINE && c != RETURN && c != TAB {
      ByteToken(c, s);
    } else if IsControl(c) && c >= 0x80 {
      assert LowerHex(c / 16) == [HexDigit(c / 16)];
      assert LowerHex(c) == [HexDigit(c / 16), HexDigit(c % 16)];
      HexDigitValue(c / 16);
      HexDigitValue(c % 16);
      assert t[3] == HexDigit(c / 16) && t[4] == HexDigit(c % 16);
    }
  }

  lemma UnescapedToken(token: Text, bytes: seq<Byte>, s: Text)
    requires token != [] && FirstToken(token + s) == Some(Token(bytes, |token|))
    ensures Unescaped(token + s) == Prefixed(bytes, Unescaped(s))
  {
    assert (token + s)[|token|..] == s;
  }

  lemma PrefixedTwice(b: seq<Byte>, n: nat, rest: Option<seq<Byte>>)
    requires n <= |b|
    ensures Prefixed(b[..n], Prefixed(b[n..], rest)) == Prefixed(b, rest)
  {
    if rest.Some? { assert b[..n] + (b[n..] + rest.value) == b + rest.value; }
  }

  /** A token and what follows it decode piecewise. */
  lemma UnescapedStep(b: seq<Byte>, n: nat, e: Text, r: Text, s: Text)
    requires n <= |b|
    requires Unescaped(e + (r + s)) == Prefixed(b[..n], Unescaped(r + s))
    requires Unescaped(r + s) == Prefixed(b[n..], Unescaped(s))
    ensures Unescaped(e + r + s) == Prefixed(b, Unescaped(s))
  {
    Assoc(e, r, s);
    PrefixedTwice(b, n, Unescaped(s));
  }

  lemma UnescapedNothing(s: Text)
    ensures Unescaped([] + s) == Prefixed([], Unescaped(s))
  {
    assert [] + s == s;
    if Unescaped(s).Some? { assert [] + Unescaped(s).value == Unescaped(s).value; }
  }

  lemma {:induction false} UnescapedBytes(b: seq<Byte>, s: Text)
    ensures Unescaped(EscapedBytes(b) + s) == Prefixed(b, Unescaped(s))
  {
    if b == [] {
      UnescapedNothing(s);
    } else {
      var r := EscapedBytes(b[1..]);
      ByteToken(b[0], r + s);
      UnescapedToken(EscapedByte(b[0]), [b[0]], r + s);
      UnescapedBytes(b[1..], s);
      assert b[..1] == [b[0]];
      UnescapedStep(b, 1, EscapedByte(b[0]), r, s);
    }
  }

  /** Escaped bytes decode to themselves in front of any text. */
  lemma {:induction false} UnescapedPrefix(b: seq<Byte>, s: Text)
    ensures Unescaped(Escaped(b) + s) == Prefixed(b, Unescaped(s))
    decreases |b|, 1
  {
    if b == [] {
      UnescapedNothing(s);
    } else if First(b).Scalar? {
      UnescapedCharacter(b, s);
    } else {
      var n := InvalidLength(b);
      var r := Escaped(b[n..]);
      InvalidEscapes(b);
      UnescapedBytes(b[..n], r + s);
      UnescapedPrefix(b[n..], s);
      UnescapedStep(b, n, EscapedBytes(b[..n]), r, s);
    }
  }

  lemma {:induction false} UnescapedCharacter(b: seq<Byte>, s: Text)
    requires b != [] && First(b).Scalar?
    ensures Unescaped(Escaped(b) + s) == Prefixed(b, Unescaped(s))
    decreases |b|, 0
  {
    var c, n := First(b).value, First(b).length;
    var r := Escaped(b[n..]);
    DecodedIsEncoded(b);
    CharToken(c, r + s);
    UnescapedToken(EscapedChar(c), Utf8(c), r + s);
    UnescapedPrefix(b[n..], s);
    UnescapedStep(b, n, EscapedChar(c), r, s);
  }

  /** The decoder recovers the exact bytes of any path, valid UTF-8 or not. */
  lemma EscapingIsReversible(b: seq<Byte>)
    ensures Unescaped(Escaped(b)) == Some(b)
  {
    UnescapedPrefix(b, []);
    assert Escaped(b) + [] == Escaped(b) && b + [] == b;
  }

  lemma {:induction false} EscapedBytesPrintable(b: seq<Byte>)
    ensures forall c :: c in EscapedBytes(b) ==> !IsControl(c)
  {
    if b != [] {
      EscapedBytesPrintable(b[1..]);
      HexDigitValue(b[0] / 16);
      HexDigitValue(b[0] % 16);
    }
  }

  lemma CharPrintable(c: nat)
    ensures forall x :: x in EscapedChar(c) ==> !IsControl(x)
  {
    if IsControl(c) {
      HexDigitValue(c / 16);
      HexDigitValue(c % 16);
      assert c >= 16 ==> LowerHex(c / 16) == [HexDigit(c / 16)];
      assert c >= 16 ==> LowerHex(c) == [HexDigit(c / 16), HexDigit(c % 16)];
    }
  }

  /** Escaped text holds no control character of any kind. */
  lemma {:induction false} EscapedIsPrintable(b: seq<Byte>)
    ensures forall c :: c in Escaped(b) ==> !IsControl(c)
    decreases |b|
  {
    if b != [] {
      match First(b)
      case Scalar(c, n) => CharPrintable(c); EscapedIsPrintable(b[n..]);
      case Malformed(n) => EscapedBytesPrintable(b[..n]); EscapedIsPrintable(b[n..]);
      case Truncated => EscapedBytesPrintable(b);
    }
  }

  // ----- the home prefix

  predicate StartsWith(t: Text, p: Text) {
    p <= t
  }

  /** Works on escaped text only, as the program does. */
  function FormatOperationalPath(path: seq<Byte>, home: Option<seq<Byte>>): Text {
    var escaped := Escaped(path);
    if home.None? || home.value == [] then escaped
    else
      var escapedHome := Escaped(home.value);
      if escaped == escapedHome then [TILDE]
      else if escapedHome == [SLASH] then
        if StartsWith(escaped, [SLASH]) then [TILDE, SLASH] + escaped[1..] else escaped
      else if StartsWith(escaped, escapedHome) && StartsWith(escaped[|escapedHome|..], [SLASH]) then
        [TILDE, SLASH] + escaped[|escapedHome| + 1..]
      else escaped
  }

  lemma SlashFirst(b: seq<Byte>)
    ensures Escaped([SLASH] + b) == [SLASH] + Escaped(b)
  {
    assert ([SLASH] + b)[1..] == b;
  }

  /**
   * What a byte string starts with is the same when a slash follows, except that a cut character is complete garbage.
   */
  lemma FirstBeforeSlash(a: seq<Byte>, b: seq<Byte>)
    requires a != []
    ensures First(a + ([SLASH] + b)) == if First(a).Truncated? then Malformed(|a|) else First(a)
  {
  }

  function UnitLength(b: seq<Byte>): (n: nat)
    requires b != []
    ensures 1 <= n <= |b|
  {
    if First(b).Scalar? then First(b).length else InvalidLength(b)
  }

  function UnitText(b: seq<Byte>): Text
    requires b != []
  {
    if First(b).Scalar? then EscapedChar(First(b).value) else EscapedBytes(b[..UnitLength(b)])
  }

  lemma EscapedStep(b: seq<Byte>)
    requires b != []
    ensures Escaped(b) == UnitText(b) + Escaped(b[UnitLength(b)..])
  {
    if !First(b).Scalar? { InvalidEscapes(b); }
  }

  lemma UnitBeforeSlash(a: seq<Byte>, b: seq<Byte>)
    requires a != []
    ensures UnitLength(a + ([SLASH] + b)) == UnitLength(a) && UnitText(a + ([SLASH] + b)) == UnitText(a)
  {
    FirstBeforeSlash(a, b);
    assert (a + ([SLASH] + b))[..UnitLength(a)] == a[..UnitLength(a)];
  }

  /** The first unit is escaped alike with and without what follows the slash. */
  lemma StepBeforeSlash(a: seq<Byte>, b: seq<Byte>)
    requires a != []
    ensures Escaped(a + ([SLASH] + b)) == UnitText(a) + Escaped(a[UnitLength(a)..] + ([SLASH] + b))
  {
    var whole, n := a + ([SLASH] + b), UnitLength(a);
    UnitBeforeSlash(a, b);
    EscapedStep(whole);
    assert whole[n..] == a[n..] + ([SLASH] + b);
  }

  lemma SlashStep(whole: Text, part: Text, unit: Text, rest: Text, end: Text)
    requires whole == unit + (rest + end) && part == unit + rest
    ensures whole == part + end
  {
    Assoc(unit, rest, end);
  }

  /** A slash is a character of its own after any bytes, even after a character cut short. */
  lemma {:induction false} EscapedAroundSlash(a: seq<Byte>, b: seq<Byte>)
    ensures Escaped(a + ([SLASH] + b)) == Escaped(a) + ([SLASH] + Escaped(b))
    decreases |a|
  {
    SlashFirst(b);
    if a == [] {
      assert a + ([SLASH] + b) == [SLASH] + b;
    } else {
      var rest := a[UnitLength(a)..];
      EscapedAroundSlash(rest, b);
      EscapedStep(a);
      StepBeforeSlash(a, b);
      SlashStep(Escaped(a + ([SLASH] + b)), Escaped(a), UnitText(a), Escaped(rest), [SLASH] + Escaped(b));
    }
  }

  lemma SlashIsItsOwnToken(t: Text)
    ensures Unescaped([SLASH] + t) == Prefixed([SLASH], Unescaped(t))
  {
    assert FirstToken([SLASH] + t) == Some(Token([SLASH], 1));
    UnescapedToken([SLASH], [SLASH], t);
  }

  /** Escaped text continues an escaped home with a slash only where the bytes do. */
  lemma EscapedPrefixIsBytePrefix(path: seq<Byte>, home: seq<Byte>, t: Text)
    requires Escaped(path) == Escaped(home) + ([SLASH] + t)
    ensures home + [SLASH] <= path
  {
    EscapingIsReversible(path);
    UnescapedPrefix(home, [SLASH] + t);
    SlashIsItsOwnToken(t);
    var rest := Unescaped(t).value;
    assert path == home + ([SLASH] + rest);
    Assoc(home, [SLASH], rest);
  }

  lemma EscapedIsInjective(a: seq<Byte>, b: seq<Byte>)
    requires Escaped(a) == Escaped(b)
    ensures a == b
  {
    EscapingIsReversible(a);
    EscapingIsReversible(b);
  }

  lemma SlashAlone()
    ensures Escaped([SLASH]) == [SLASH]
  {
    assert [SLASH][1..] == [];
    assert Escaped([]) == [];
    assert First([SLASH]) == Scalar(SLASH, 1);
  }

  lemma AbbreviatedWhereBytesContinue(path: seq<Byte>, home: seq<Byte>)
    requires home + [SLASH] <= path
    ensures Escaped(path) == Escaped(home) + ([SLASH] + Escaped(path[|home| + 1..]))
  {
    var rest := path[|home| + 1..];
    assert path == home + ([SLASH] + rest);
    EscapedAroundSlash(home, rest);
  }

  lemma SplitAt(t: Text, p: Text, rest: Text)
    requires t == p + ([SLASH] + rest)
    ensures p <= t && t[|p|..] == [SLASH] + rest && t[|p| + 1..] == rest && t != p
  {
  }

  lemma Rejoin(t: Text, p: Text)
    requires StartsWith(t, p) && StartsWith(t[|p|..], [SLASH])
    ensures t == p + ([SLASH] + t[|p| + 1..])
  {
  }

  /** For a home that is not empty or `/`, abbreviation follows the bytes of the path, not its escaped text. */
  lemma HomeIsAbbreviatedExactly(path: seq<Byte>, home: seq<Byte>)
    requires home != [] && home != [SLASH]
    ensures path == home ==> FormatOperationalPath(path, Some(home)) == [TILDE]
    ensures home + [SLASH] <= path ==>
              FormatOperationalPath(path, Some(home)) == [TILDE, SLASH] + Escaped(path[|home| + 1..])
    ensures path != home && !(home + [SLASH] <= path) ==> FormatOperationalPath(path, Some(home)) == Escaped(path)
  {
    var escaped, escapedHome := Escaped(path), Escaped(home);
    SlashAlone();
    if escapedHome == [SLASH] { EscapedIsInjective(home, [SLASH]); }
    if escaped == escapedHome { EscapedIsInjective(path, home); }
    if home + [SLASH] <= path {
      AbbreviatedWhereBytesContinue(path, home);
      SplitAt(escaped, escapedHome, Escaped(path[|home| + 1..]));
    }
    if StartsWith(escaped, escapedHome) && StartsWith(escaped[|escapedHome|..], [SLASH]) {
      Rejoin(escaped, escapedHome);
      EscapedPrefixIsBytePrefix(path, home, escaped[|escapedHome| + 1..]);
    }
  }

  /** With `/` as home, every absolute path is abbreviated and nothing else is. */
  lemma RootHomeIsAbbreviatedExactly(path: seq<Byte>)
    ensures path == [SLASH] ==> FormatOperationalPath(path, Some([SLASH])) == [TILDE]
    ensures path != [SLASH] && [SLASH] <= path
            ==> FormatOperationalPath(path, Some([SLASH])) == [TILDE, SLASH] + Escaped(path[1..])
    ensures !([SLASH] <= path) ==> FormatOperationalPath(path, Some([SLASH])) == Escaped(path)
  {
    SlashAlone();
    var escaped := Escaped(path);
    if escaped == [SLASH] { EscapedIsInjective(path, [SLASH]); }
    if [SLASH] <= path {
      assert [] + [SLASH] == [SLASH];
      AbbreviatedWhereBytesContinue(path, []);
      SplitAt(escaped, [], Escaped(path[1..]));
    }
    if StartsWith(escaped, [SLASH]) {
      assert escaped[0..] == escaped;
      Rejoin(escaped, []);
      EscapedPrefixIsBytePrefix(path, [], escaped[1..]);
      assert [] + [SLASH] == [SLASH];
    }
  }
}
