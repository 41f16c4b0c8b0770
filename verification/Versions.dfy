/** Version cores of any length: parsing, and comparison by length and bytes as comparison of numbers. */
module Versions {
  import opened Types

  // ----- splitting and joining at full stops

  predicate DotFree(s: string) { '.' !in s }

  function Split(s: string): (parts: seq<string>)
    ensures |parts| >= 1
  {
    if s == "" then [""]
    else
      var rest := Split(s[1..]);
      if s[0] == '.' then [""] + rest else [[s[0]] + rest[0]] + rest[1..]
  }

  function Join(parts: seq<string>): string
    requires parts != []
  {
    if |parts| == 1 then parts[0] else parts[0] + "." + Join(parts[1..])
  }

  lemma {:induction false} JoinUndoesSplit(s: string)
    ensures Join(Split(s)) == s
  {
    if s != "" {
      var rest := Split(s[1..]);
      JoinUndoesSplit(s[1..]);
      if s[0] == '.' {
        assert ([""] + rest)[1..] == rest;
        assert s == "" + "." + s[1..];
      } else {
        assert ([[s[0]] + rest[0]] + rest[1..])[1..] == rest[1..];
        assert s == [s[0]] + s[1..];
        if |rest| > 1 {
          assert Join(rest) == rest[0] + "." + Join(rest[1..]);
          assert [s[0]] + rest[0] + "." + Join(rest[1..]) == [s[0]] + (rest[0] + "." + Join(rest[1..]));
        }
      }
    }
  }

  lemma {:induction false} SplitBeforeDot(p: string, t: string)
    requires DotFree(p)
    ensures Split(p + "." + t) == [p] + Split(t)
  {
    var s := p + "." + t;
    if p == "" {
      assert s[1..] == t;
    } else {
      assert p == [p[0]] + p[1..];
      assert p[0] in p && forall c :: c in p[1..] ==> c in p;
      SplitBeforeDot(p[1..], t);
      assert s[1..] == p[1..] + "." + t;
    }
  }

  lemma {:induction false} SplitWithoutDot(p: string)
    requires DotFree(p)
    ensures Split(p) == [p]
  {
    if p != "" {
      assert p[0] in p && forall c :: c in p[1..] ==> c in p;
      SplitWithoutDot(p[1..]);
      assert p == [p[0]] + p[1..];
    }
  }

  lemma {:induction false} SplitUndoesJoin(parts: seq<string>)
    requires parts != [] && forall p :: p in parts ==> DotFree(p)
    ensures Split(Join(parts)) == parts
  {
    if |parts| == 1 {
      SplitWithoutDot(parts[0]);
    } else {
      SplitUndoesJoin(parts[1..]);
      SplitBeforeDot(parts[0], Join(parts[1..]));
      assert parts == [parts[0]] + parts[1..];
    }
  }

  // ----- canonical decimals

  predicate IsDigit(c: char) { '0' <= c <= '9' }

  function NormalizeInteger(s: string): Option<string> {
    if s == "" || (exists c :: c in s && !IsDigit(c)) || (|s| > 1 && s[0] == '0') then None else Some(s)
  }

  predicate Canonical(s: string) { NormalizeInteger(s).Some? }

  function DigitValue(c: char): nat {
    if IsDigit(c) then (c - '0') as nat else 0
  }

  predicate Digits(s: string) { forall c :: c in s ==> IsDigit(c) }

  function Pow10(n: nat): (p: nat)
    ensures p >= 1
  {
    if n == 0 then 1 else 10 * Pow10(n - 1)
  }

  /** The number a string of digits denotes. */
  function Value(s: string): nat {
    if s == "" then 0 else DigitValue(s[0]) * Pow10(|s| - 1) + Value(s[1..])
  }

  datatype Ordering = Less | Equal | Greater {
    function Then(next: Ordering): Ordering { if Equal? then next else this }
  }

  function CompareNumbers(a: int, b: int): Ordering {
    if a < b then Less else if a == b then Equal else Greater
  }

  function CompareBytes(a: string, b: string): Ordering {
    if a == "" then (if b == "" then Equal else Less)
    else if b == "" then Greater
    else CompareNumbers(a[0] as int, b[0] as int).Then(CompareBytes(a[1..], b[1..]))
  }

  function CompareComponents(a: string, b: string): Ordering {
    CompareNumbers(|a|, |b|).Then(CompareBytes(a, b))
  }

  lemma Scaled(a: nat, b: nat, p: nat)
    requires a <= b
    ensures a * p <= b * p
    ensures a < b ==> a * p + p <= b * p
  {
    assert b * p - a * p == (b - a) * p;
    if a < b { assert (b - a) * p == p + (b - a - 1) * p; }
  }

  lemma {:induction false} ValueBound(s: string)
    requires Digits(s)
    ensures Value(s) < Pow10(|s|)
  {
    if s != "" {
      ValueBound(s[1..]);
      var p, d := Pow10(|s| - 1), DigitValue(s[0]);
      assert s[0] in s && d <= 9;
      assert d * p <= 9 * p by { Scaled(d, 9, p); }
    }
  }

  lemma {:induction false} Pow10Grows(m: nat, n: nat)
    requires m <= n
    ensures Pow10(m) <= Pow10(n)
    decreases n
  {
    if m < n { Pow10Grows(m, n - 1); }
  }

  lemma CanonicalDigits(s: string)
    requires Canonical(s)
    ensures Digits(s) && s != ""
  {
  }

  /** A canonical decimal of more than one digit is at least the power of ten of its length. */
  lemma CanonicalIsLarge(s: string)
    requires Canonical(s) && |s| > 1
    ensures Value(s) >= Pow10(|s| - 1)
  {
    CanonicalDigits(s);
    var p, d := Pow10(|s| - 1), DigitValue(s[0]);
    assert s[0] in s && d >= 1;
    Scaled(1, d, p);
  }

  lemma {:induction false} SameLengthCompares(a: string, b: string)
    requires Digits(a) && Digits(b) && |a| == |b|
    ensures CompareBytes(a, b) == CompareNumbers(Value(a), Value(b))
  {
    if a != "" {
      var p, x, y := Pow10(|a| - 1), DigitValue(a[0]), DigitValue(b[0]);
      SameLengthCompares(a[1..], b[1..]);
      ValueBound(a[1..]);
      ValueBound(b[1..]);
      if x < y { Scaled(x, y, p); } else if y < x { Scaled(y, x, p); }
    }
  }

  lemma ShorterIsLess(a: string, b: string)
    requires Canonical(a) && Canonical(b) && |a| < |b|
    ensures Value(a) < Value(b)
  {
    CanonicalDigits(a);
    CanonicalIsLarge(b);
    ValueBound(a);
    Pow10Grows(|a|, |b| - 1);
  }

  /** Length first, then bytes, orders canonical decimals of any length exactly as the numbers they denote. */
  lemma ComponentsCompareAsNumbers(a: string, b: string)
    requires Canonical(a) && Canonical(b)
    ensures CompareComponents(a, b) == CompareNumbers(Value(a), Value(b))
  {
    CanonicalDigits(a);
    CanonicalDigits(b);
    if |a| < |b| { ShorterIsLess(a, b); }
    else if |b| < |a| { ShorterIsLess(b, a); }
    else { SameLengthCompares(a, b); }
  }

  lemma {:induction false} EqualBytes(a: string, b: string)
    requires CompareBytes(a, b) == Equal
    ensures a == b
  {
    if a != "" {
      EqualBytes(a[1..], b[1..]);
      assert a == [a[0]] + a[1..] && b == [b[0]] + b[1..];
    }
  }

  /** Different canonical decimals denote different numbers. */
  lemma CanonicalIsUnique(a: string, b: string)
    requires Canonical(a) && Canonical(b) && Value(a) == Value(b)
    ensures a == b
  {
    ComponentsCompareAsNumbers(a, b);
    EqualBytes(a, b);
  }

  function Numeral(n: nat): string {
    if n < 10 then [('0' as nat + n) as char] else Numeral(n / 10) + [('0' as nat + n % 10) as char]
  }

  lemma {:induction false} ValueOfOneMore(s: string, c: char)
    ensures Value(s + [c]) == 10 * Value(s) + DigitValue(c)
  {
    if s == "" {
      assert s + [c] == [c] && [c][1..] == "";
      assert Value([c]) == DigitValue(c) * Pow10(0) + Value([c][1..]);
    } else {
      var t := s + [c];
      assert t[0] == s[0] && t[1..] == s[1..] + [c];
      ValueOfOneMore(s[1..], c);
      assert Pow10(|s|) == 10 * Pow10(|s| - 1);
      assert DigitValue(s[0]) * Pow10(|s|) == 10 * (DigitValue(s[0]) * Pow10(|s| - 1));
    }
  }

  lemma {:induction false} NumeralDenotes(n: nat)
    ensures Value(Numeral(n)) == n && Digits(Numeral(n)) && Numeral(n) != ""
    ensures n > 0 ==> Numeral(n)[0] != '0'
  {
    if n < 10 {
      var c := ('0' as nat + n) as char;
      ValueOfOneMore("", c);
      assert "" + [c] == [c];
    } else {
      NumeralDenotes(n / 10);
      ValueOfOneMore(Numeral(n / 10), ('0' as nat + n % 10) as char);
    }
  }

  lemma NumeralIsCanonical(n: nat)
    ensures Canonical(Numeral(n))
  {
    NumeralDenotes(n);
  }

  /** Every number is denoted by exactly one canonical decimal, and every canonical decimal by its number. */
  lemma NumeralsAreCanonical(n: nat, s: string)
    ensures Canonical(Numeral(n)) && Value(Numeral(n)) == n
    ensures Canonical(s) <==> s == Numeral(Value(s))
  {
    NumeralDenotes(n);
    NumeralIsCanonical(n);
    NumeralIsCanonical(Value(s));
    NumeralDenotes(Value(s));
    if Canonical(s) { CanonicalIsUnique(s, Numeral(Value(s))); }
  }

  // ----- version cores

  function NormalizeSemverCore(s: string): Option<string> {
    var parts := Split(s);
    if |parts| != 3 || exists p :: p in parts && NormalizeInteger(p).None? then None else Some(Join(parts))
  }

  datatype NumericVersion = NumericVersion(normalized: string, components: seq<string>)

  function Parse(s: string): Option<NumericVersion> {
    if NormalizeSemverCore(s).None? then None
    else
      var normalized := NormalizeSemverCore(s).value;
      var parts := Split(normalized);
      if |parts| < 3 then None else Some(NumericVersion(normalized, parts[..3]))
  }

  /** The first component that differs decides. */
  function CompareTriples(a: seq<string>, b: seq<string>): Ordering
    requires |a| == |b| == 3
  {
    CompareComponents(a[0], b[0]).Then(CompareComponents(a[1], b[1])).Then(CompareComponents(a[2], b[2]))
  }

  /** Whether a version is at least the given minimum, which must itself be a version core. */
  function IsAtLeast(v: NumericVersion, minimum: string): bool
    requires Parse(minimum).Some? && |v.components| == 3 && |Parse(minimum).value.components| == 3
  {
    CompareTriples(v.components, Parse(minimum).value.components) != Less
  }

  ghost predicate IsCore(s: string, a: string, b: string, c: string) {
    s == a + "." + b + "." + c && Canonical(a) && Canonical(b) && Canonical(c)
  }

  lemma CanonicalIsDotFree(s: string)
    requires Canonical(s)
    ensures DotFree(s)
  {
    assert !IsDigit('.');
  }

  lemma JoinThree(a: string, b: string, c: string)
    ensures Join([a, b, c]) == a + "." + b + "." + c
  {
    assert [a, b, c][1..] == [b, c] && [b, c][1..] == [c];
    assert Join([b, c]) == b + "." + c;
    assert a + "." + (b + "." + c) == a + "." + b + "." + c;
  }

  /** Exactly the texts of three canonical decimals joined by full stops are parsed, to those decimals. */
  lemma ParsesExactlyCores(s: string, a: string, b: string, c: string)
    ensures IsCore(s, a, b, c) <==> Parse(s) == Some(NumericVersion(s, [a, b, c]))
  {
    if IsCore(s, a, b, c) {
      CanonicalIsDotFree(a);
      CanonicalIsDotFree(b);
      CanonicalIsDotFree(c);
      JoinThree(a, b, c);
      SplitUndoesJoin([a, b, c]);
      assert [a, b, c][..3] == [a, b, c];
    }
    if Parse(s) == Some(NumericVersion(s, [a, b, c])) {
      JoinUndoesSplit(s);
      var parts := Split(s);
      assert parts[..3] == parts && parts == [a, b, c];
      JoinThree(a, b, c);
      assert a in parts && b in parts && c in parts;
    }
  }

  lemma ParsedIsCore(s: string) returns (a: string, b: string, c: string)
    requires Parse(s).Some?
    ensures IsCore(s, a, b, c) && Parse(s) == Some(NumericVersion(s, [a, b, c]))
  {
    JoinUndoesSplit(s);
    var parts := Split(s);
    a, b, c := parts[0], parts[1], parts[2];
    assert parts == [a, b, c] && parts[..3] == parts;
    assert a in parts && b in parts && c in parts;
    JoinThree(a, b, c);
  }

  /** Lexicographic order on triples of numbers. */
  predicate AtLeast(a: nat, b: nat, c: nat, x: nat, y: nat, z: nat) {
    a > x || (a == x && (b > y || (b == y && c >= z)))
  }

  lemma LexicographicOrder(a: nat, b: nat, c: nat, x: nat, y: nat, z: nat)
    ensures CompareNumbers(a, x).Then(CompareNumbers(b, y)).Then(CompareNumbers(c, z)) != Less
            <==> AtLeast(a, b, c, x, y, z)
  {
  }

  lemma TriplesCompare(v: seq<string>, m: seq<string>)
    requires |v| == 3 && |m| == 3
    requires forall i :: 0 <= i < 3 ==> CompareComponents(v[i], m[i]) == CompareNumbers(Value(v[i]), Value(m[i]))
    ensures CompareTriples(v, m) != Less
            <==> AtLeast(Value(v[0]), Value(v[1]), Value(v[2]), Value(m[0]), Value(m[1]), Value(m[2]))
  {
    LexicographicOrder(Value(v[0]), Value(v[1]), Value(v[2]), Value(m[0]), Value(m[1]), Value(m[2]));
  }

  lemma ComparesTriples(v: NumericVersion, minimum: string, m: NumericVersion)
    requires Parse(minimum) == Some(m) && |v.components| == 3 && |m.components| == 3
    ensures IsAtLeast(v, minimum) <==> CompareTriples(v.components, m.components) != Less
  {
  }

  lemma ParsedIsCanonical(s: string)
    requires Parse(s).Some?
    ensures var v := Parse(s).value;
            && v.normalized == s && |v.components| == 3
            && Canonical(v.components[0]) && Canonical(v.components[1]) && Canonical(v.components[2])
  {
    var a, b, c := ParsedIsCore(s);
  }

  /** The check is the numeric order on major, minor and patch, however many digits they have. */
  lemma AtLeastIsNumeric(s: string, minimum: string)
    requires Parse(s).Some? && Parse(minimum).Some?
    ensures var v, m := Parse(s).value, Parse(minimum).value;
            && |v.components| == 3 && |m.components| == 3
            && (IsAtLeast(v, minimum)
                <==> AtLeast(Value(v.components[0]), Value(v.components[1]), Value(v.components[2]),
                             Value(m.components[0]), Value(m.components[1]), Value(m.components[2])))
  {
    var v, m := Parse(s).value.components, Parse(minimum).value.components;
    ParsedIsCanonical(s);
    ParsedIsCanonical(minimum);
    ComponentsCompareAsNumbers(v[0], m[0]);
    ComponentsCompareAsNumbers(v[1], m[1]);
    ComponentsCompareAsNumbers(v[2], m[2]);
    ComparesTriples(Parse(s).value, minimum, Parse(minimum).value);
    TriplesCompare(v, m);
  }
}
