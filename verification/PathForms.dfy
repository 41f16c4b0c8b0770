/** What escaping leaves alone, and the exact form of what it does not. */
module PathForms {
  import opened Types
  import opened Paths

  // ----- one step of escaping, without reference to the decoder

  /** Some character is encoded at the start of the bytes. */
  ghost predicate StartsWithCharacter(b: seq<Byte>) {
    exists c :: IsScalar(c) && Utf8(c) <= b
  }

  lemma FirstFindsCharacter(b: seq<Byte>, c: nat)
    requires IsScalar(c) && Utf8(c) <= b
    ensures b != [] && First(b) == Scalar(c, |Utf8(c)|)
  {
    EncodedIsDecoded(c, b[|Utf8(c)|..]);
    assert Utf8(c) + b[|Utf8(c)|..] == b;
  }

  lemma CharacterIsFound(b: seq<Byte>)
    requires b != []
    ensures First(b).Scalar? <==> StartsWithCharacter(b)
  {
    if First(b).Scalar? {
      DecodedIsEncoded(b);
      assert IsScalar(First(b).value) && Utf8(First(b).value) <= b;
    }
    if c :| IsScalar(c) && Utf8(c) <= b { FirstFindsCharacter(b, c); }
  }

  /** A continuation byte starts no character. */
  lemma ContinuationStep(b: seq<Byte>)
    requires b != [] && Continues(b[0])
    ensures Escaped(b) == EscapedByte(b[0]) + Escaped(b[1..])
  {
    assert EscapedBytes(b[..1]) == EscapedByte(b[0]) + EscapedBytes(b[..1][1..]);
    assert b[..1][1..] == [];
    assert EscapedByte(b[0]) + [] == EscapedByte(b[0]);
  }

  lemma OneByte(b: seq<Byte>)
    requires b != []
    ensures EscapedBytes(b[..1]) == EscapedByte(b[0])
  {
    assert b[..1][1..] == [];
    assert EscapedByte(b[0]) + [] == EscapedByte(b[0]);
  }

  lemma MoreBytes(b: seq<Byte>, n: nat)
    requires 1 <= n <= |b|
    ensures EscapedBytes(b[..n]) == EscapedByte(b[0]) + EscapedBytes(b[1..][..n - 1])
  {
    assert b[..n][1..] == b[1..][..n - 1];
  }

  /** Bytes that only continue are escaped one by one, whatever follows them. */
  lemma {:induction false} ContinuationsStep(b: seq<Byte>, n: nat)
    requires n <= |b| && forall i :: 0 <= i < n ==> Continues(b[i])
    ensures Escaped(b) == EscapedBytes(b[..n]) + Escaped(b[n..])
    decreases n
  {
    if n == 0 {
      assert b[..0] == [] && b[0..] == b;
    } else {
      ContinuationStep(b);
      ContinuationsStep(b[1..], n - 1);
      assert b[1..][n - 1..] == b[n..];
      MoreBytes(b, n);
      Assoc(EscapedByte(b[0]), EscapedBytes(b[1..][..n - 1]), Escaped(b[n..]));
    }
  }

  lemma InvalidContinues(b: seq<Byte>)
    requires b != [] && !First(b).Scalar?
    ensures forall i :: 1 <= i < InvalidLength(b) ==> Continues(b[i])
  {
  }

  /**
   * Escaping goes through the bytes character by character: where a character is encoded its escape is written, and
   * elsewhere exactly one byte is escaped.
   */
  lemma EscapedStepwise(b: seq<Byte>)
    requires b != []
    ensures forall c :: IsScalar(c) && Utf8(c) <= b ==> Escaped(b) == EscapedChar(c) + Escaped(b[|Utf8(c)|..])
    ensures !StartsWithCharacter(b) ==> Escaped(b) == EscapedByte(b[0]) + Escaped(b[1..])
  {
    forall c | IsScalar(c) && Utf8(c) <= b ensures Escaped(b) == EscapedChar(c) + Escaped(b[|Utf8(c)|..]) {
      FirstFindsCharacter(b, c);
    }
    CharacterIsFound(b);
    if !First(b).Scalar? {
      var n := InvalidLength(b);
      InvalidEscapes(b);
      InvalidContinues(b);
      MoreBytes(b, n);
      ContinuationsStep(b[1..], n - 1);
      assert b[1..][n - 1..] == b[n..];
      Assoc(EscapedByte(b[0]), EscapedBytes(b[1..][..n - 1]), Escaped(b[n..]));
    }
  }

  // ----- the form of an escape

  predicate NeedsEscape(c: nat) {
    c == 0x5C || c < 0x20 || 0x7F <= c < 0xA0
  }

  /**
   * A character is escaped exactly when it is a backslash or a control; backslash, newline, return and tab take two
   * characters, the other controls of ASCII four, those above six.
   */
  lemma CharacterForms(c: nat)
    requires IsScalar(c)
    ensures EscapedChar(c) == [c] <==> !NeedsEscape(c)
    ensures NeedsEscape(c) ==> EscapedChar(c)[0] == BACKSLASH
    ensures |EscapedChar(c)| == if !NeedsEscape(c) then 1
                                else if c == 0x5C || c == 0x0A || c == 0x0D || c == 0x09 then 2
                                else if c < 0x80 then 4 else 6
  {
    if c >= 0x80 && NeedsEscape(c) {
      assert LowerHex(c / 16) == [HexDigit(c / 16)];
      assert LowerHex(c) == [HexDigit(c / 16), HexDigit(c % 16)];
    }
  }

  function Encoded(cs: seq<nat>): seq<Byte>
    requires forall i :: 0 <= i < |cs| ==> IsScalar(cs[i])
  {
    if cs == [] then [] else Utf8(cs[0]) + Encoded(cs[1..])
  }

  /** Valid text is escaped character by character. */
  lemma {:induction false} TextIsEscaped(cs: seq<nat>)
    requires forall i :: 0 <= i < |cs| ==> IsScalar(cs[i])
    ensures Escaped(Encoded(cs)) == EscapedChars(cs)
  {
    if cs != [] {
      var b := Encoded(cs);
      TextIsEscaped(cs[1..]);
      assert Utf8(cs[0]) <= b && b[|Utf8(cs[0])|..] == Encoded(cs[1..]);
      EscapedStepwise(b);
    }
  }

  /** Valid text without backslashes and controls is its own escaped form, and no other text is. */
  lemma {:induction false} PlainTextIsKept(cs: seq<nat>)
    requires forall i :: 0 <= i < |cs| ==> IsScalar(cs[i])
    ensures EscapedChars(cs) == cs <==> forall i :: 0 <= i < |cs| ==> !NeedsEscape(cs[i])
    ensures |EscapedChars(cs)| >= |cs|
  {
    if cs != [] {
      PlainTextIsKept(cs[1..]);
      CharacterForms(cs[0]);
      var e, rest := EscapedChar(cs[0]), EscapedChars(cs[1..]);
      assert cs == [cs[0]] + cs[1..];
      if NeedsEscape(cs[0]) {
        assert |EscapedChars(cs)| > |cs|;
      } else {
        assert (e + rest)[1..] == rest;
        if forall i :: 0 <= i < |cs[1..]| ==> !NeedsEscape(cs[1..][i]) {
          forall i | 0 <= i < |cs| ensures !NeedsEscape(cs[i]) {
            if i > 0 { assert cs[i] == cs[1..][i - 1]; }
          }
        }
        if forall i :: 0 <= i < |cs| ==> !NeedsEscape(cs[i]) {
          assert forall i :: 0 <= i < |cs[1..]| ==> cs[1..][i] == cs[i + 1];
        }
      }
    }
  }

  /** So a path of plain text is shown as it is. */
  lemma PlainPathIsKept(cs: seq<nat>)
    requires forall i :: 0 <= i < |cs| ==> IsScalar(cs[i])
    ensures Escaped(Encoded(cs)) == cs <==> forall i :: 0 <= i < |cs| ==> !NeedsEscape(cs[i])
  {
    TextIsEscaped(cs);
    PlainTextIsKept(cs);
  }
}
