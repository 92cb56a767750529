/**
 * The handful of JavaScript built-ins that the finance tracker's core relies on,
 * stated exactly: `parseInt` (radix 10 and 16), `Math.round`, the `\s` character
 * class, `Number.prototype.toString` on non-negative integers, `padStart`,
 * `startsWith` and the `<` comparison of strings.
 */
module JsBuiltins {

  datatype Option<+T> = None | Some(value: T)

  /** The outcome of an operation that either returns a value or throws an `Error`
      with a message. */
  datatype Result<+T> = Ok(value: T) | Err(message: string)

  /** A `Uint8Array` element. */
  type byte = x: int | 0 <= x < 256

  /** The characters matched by the regular-expression class `\s`, which are also the
      ones `parseInt` and `parseFloat` skip: WhiteSpace and LineTerminator of ECMA-262. */
  predicate IsWhitespace(c: char) {
    c == '\t' || c == '\n' || c == '\U{000B}' || c == '\U{000C}' || c == '\r' || c == ' ' ||
    c == '\U{00A0}' || c == '\U{1680}' || ('\U{2000}' <= c <= '\U{200A}') ||
    c == '\U{2028}' || c == '\U{2029}' || c == '\U{202F}' || c == '\U{205F}' || c == '\U{3000}' ||
    c == '\U{FEFF}'
  }

  /** `s.replace(/\s/g, '')`. */
  function RemoveWhitespace(s: string): (r: string)
    ensures |r| <= |s|
    ensures forall i :: 0 <= i < |r| ==> !IsWhitespace(r[i])
    ensures (forall i :: 0 <= i < |s| ==> !IsWhitespace(s[i])) ==> r == s
  {
    if s == [] then [] else NonWhitespace(s[0]) + RemoveWhitespace(s[1..])
  }

  /** What `RemoveWhitespace` keeps of one character. */
  function NonWhitespace(c: char): (r: string)
    ensures |r| <= 1 && (r == [] <==> IsWhitespace(c)) && (r != [] ==> r[0] == c)
  {
    if IsWhitespace(c) then [] else [c]
  }

  lemma {:induction false} RemoveWhitespaceAppend(a: string, b: string)
    ensures RemoveWhitespace(a + b) == RemoveWhitespace(a) + RemoveWhitespace(b)
  {
    if a == [] {
      assert a + b == b;
    } else {
      var head := NonWhitespace(a[0]);
      assert (a + b)[0] == a[0] && (a + b)[1..] == a[1..] + b;
      assert RemoveWhitespace(a + b) == head + RemoveWhitespace(a[1..] + b);
      RemoveWhitespaceAppend(a[1..], b);
      assert head + (RemoveWhitespace(a[1..]) + RemoveWhitespace(b))
          == (head + RemoveWhitespace(a[1..])) + RemoveWhitespace(b);
    }
  }

  /** A JavaScript number: a finite value (kept exact), an infinity or `NaN`. */
  datatype Number = NaN | Finite(value: real) | Infinity | NegInfinity

  /** `x <= c` for a finite constant `c`; every comparison with `NaN` is false. */
  predicate AtMost(x: Number, c: real) {
    match x
    case NaN => false
    case Finite(v) => v <= c
    case Infinity => false
    case NegInfinity => true
  }

  /** `x > c` for a finite constant `c`. */
  predicate Exceeds(x: Number, c: real) {
    match x
    case NaN => false
    case Finite(v) => v > c
    case Infinity => true
    case NegInfinity => false
  }

  /** `a / b`: division by zero gives a signed infinity, or `NaN` for `0 / 0`. */
  function Divide(a: real, b: real): (r: Number)
    ensures b != 0.0 ==> r == Finite(a / b)
    ensures b == 0.0 ==> (r.NaN? <==> a == 0.0) && (r == Infinity <==> a > 0.0) && (r == NegInfinity <==> a < 0.0)
  {
    if b != 0.0 then Finite(a / b)
    else if a > 0.0 then Infinity
    else if a < 0.0 then NegInfinity
    else NaN
  }

  /** `\d` without the `u` flag: the ASCII digits only. */
  predicate IsDigit(c: char) {
    '0' <= c <= '9'
  }

  predicate AllDigits(s: string) {
    forall i :: 0 <= i < |s| ==> IsDigit(s[i])
  }

  function DigitValue(c: char): nat
    requires IsDigit(c)
  {
    c as int - '0' as int
  }

  function DigitChar(d: nat): (c: char)
    requires d < 10
    ensures IsDigit(c) && DigitValue(c) == d
  {
    ('0' as int + d) as char
  }

  /** The value of a string of decimal digits, most significant first. */
  function DecimalValue(s: string): nat
    requires AllDigits(s)
  {
    if s == [] then 0 else 10 * DecimalValue(s[..|s| - 1]) + DigitValue(s[|s| - 1])
  }

  /** `String(n)` for a non-negative integer: its shortest decimal numeral. */
  function NatToString(n: nat): (s: string)
    ensures |s| >= 1 && AllDigits(s)
    ensures DecimalValue(s) == n
    ensures |s| > 1 ==> s[0] != '0'
  {
    if n < 10 then [DigitChar(n)]
    else
      var p := NatToString(n / 10);
      assert (p + [DigitChar(n % 10)])[..|p|] == p;
      p + [DigitChar(n % 10)]
  }

  function Pow10(k: nat): (p: nat)
    ensures p >= 1
  {
    if k == 0 then 1 else 10 * Pow10(k - 1)
  }

  /** A numeral written by `NatToString` for a number below 10^k has at most k digits. */
  lemma {:induction false} NatToStringLength(n: nat, k: nat)
    requires 1 <= k && n < Pow10(k)
    ensures |NatToString(n)| <= k
  {
    if n >= 10 {
      NatToStringLength(n / 10, k - 1);
    }
  }

  /** A numeral of k digits is below 10^k, and at least 10^(k-1) without a leading zero. */
  lemma {:induction false} DecimalValueBounds(s: string)
    requires AllDigits(s)
    ensures DecimalValue(s) < Pow10(|s|)
    ensures |s| > 0 && s[0] != '0' ==> DecimalValue(s) >= Pow10(|s| - 1)
  {
    if s != [] {
      var n := |s| - 1;
      DecimalValueBounds(s[..n]);
      if n == 0 {
        assert s[..n] == [];
      }
    }
  }

  /** Equal-length digit strings with the same value are equal. */
  lemma {:induction false} DecimalValueInjective(a: string, b: string)
    requires AllDigits(a) && AllDigits(b) && |a| == |b|
    requires DecimalValue(a) == DecimalValue(b)
    ensures a == b
  {
    if a != [] {
      var n := |a| - 1;
      assert DigitValue(a[n]) == DecimalValue(a) % 10 && DigitValue(b[n]) == DecimalValue(b) % 10;
      DecimalValueInjective(a[..n], b[..n]);
      assert a == a[..n] + [a[n]] && b == b[..n] + [b[n]];
    }
  }

  /** The value of two numerals written one after the other. */
  lemma {:induction false} DecimalValueAppend(a: string, b: string)
    requires AllDigits(a) && AllDigits(b)
    ensures AllDigits(a + b)
    ensures DecimalValue(a + b) == DecimalValue(a) * Pow10(|b|) + DecimalValue(b)
  {
    if b == [] {
      assert a + b == a;
    } else {
      var n := |b| - 1;
      DecimalValueAppend(a, b[..n]);
      assert (a + b)[..|a + b| - 1] == a + b[..n];
      assert (a + b)[|a + b| - 1] == b[n];
      ShiftDigit(DecimalValue(a), Pow10(n), DecimalValue(b[..n]), DigitValue(b[n]));
    }
  }

  lemma ShiftDigit(x: int, p: int, y: int, d: int)
    ensures 10 * (x * p + y) + d == x * (10 * p) + (10 * y + d)
  {
  }

  /** Leading zeros do not change the value of a numeral. */
  lemma {:induction false} DecimalValueZeroPad(k: nat, s: string)
    requires AllDigits(s)
    ensures AllDigits(seq(k, _ => '0') + s)
    ensures DecimalValue(seq(k, _ => '0') + s) == DecimalValue(s)
  {
    var z: string := seq(k, _ => '0');
    if s == [] {
      assert z + s == z;
      DecimalValueOfZeros(k);
    } else {
      var n := |s| - 1;
      DecimalValueZeroPad(k, s[..n]);
      assert (z + s)[..|z + s| - 1] == z + s[..n];
    }
  }

  lemma {:induction false} DecimalValueOfZeros(k: nat)
    ensures AllDigits(seq(k, _ => '0'))
    ensures DecimalValue(seq(k, _ => '0')) == 0
  {
    if k > 0 {
      DecimalValueOfZeros(k - 1);
      assert seq(k, _ => '0')[..k - 1] == seq(k - 1, _ => '0');
    }
  }

  /** `str.padStart(width, fill)`. */
  function PadStart(s: string, width: nat, fill: char): (r: string)
    ensures |r| == if |s| < width then width else |s|
    ensures |s| < width ==> r == seq(width - |s|, _ => fill) + s
    ensures |s| >= width ==> r == s
  {
    if |s| < width then seq(width - |s|, _ => fill) + s else s
  }

  /** `Math.round(x)`: the nearest integer, halves rounded towards +infinity. */
  function Round(x: real): (r: int)
    ensures r as real - 0.5 <= x < r as real + 0.5
  {
    (x + 0.5).Floor
  }

  lemma RoundMonotone(x: real, y: real)
    requires x <= y
    ensures Round(x) <= Round(y)
  {
  }

  /** Rounding a whole number changes nothing. */
  lemma RoundInt(n: int)
    ensures Round(n as real) == n
  {
  }

  /** `a.startsWith(prefix)`. */
  predicate StartsWith(a: string, prefix: string) {
    |prefix| <= |a| && a[..|prefix|] == prefix
  }

  /** The relational operator `a < b` on strings: lexicographic order of the characters. */
  predicate LexLess(a: string, b: string)
    decreases |a|
  {
    if b == [] then false
    else if a == [] then true
    else if a[0] != b[0] then a[0] < b[0]
    else LexLess(a[1..], b[1..])
  }

  /** `a <= b` on strings: lexicographically not greater. */
  predicate LexLessEq(a: string, b: string) {
    a == b || LexLess(a, b)
  }

  lemma {:induction false} LexLessIrreflexive(a: string)
    ensures !LexLess(a, a)
  {
    if a != [] { LexLessIrreflexive(a[1..]); }
  }

  lemma {:induction false} LexLessTotal(a: string, b: string)
    ensures a == b || LexLess(a, b) || LexLess(b, a)
    decreases |a|
  {
    if a != [] && b != [] && a[0] == b[0] {
      LexLessTotal(a[1..], b[1..]);
      if a[1..] == b[1..] {
        assert a == [a[0]] + a[1..] && b == [b[0]] + b[1..];
      }
    }
  }

  lemma {:induction false} LexLessAsymmetric(a: string, b: string)
    requires LexLess(a, b)
    ensures !LexLess(b, a)
    decreases |a|
  {
    if a != [] && a[0] == b[0] { LexLessAsymmetric(a[1..], b[1..]); }
  }

  // ---------------------------------------------------------------------------
  // parseInt

  datatype Radix = Ten | Sixteen

  predicate IsRadixDigit(c: char, radix: Radix) {
    match radix
    case Ten => IsDigit(c)
    case Sixteen => IsDigit(c) || ('a' <= c <= 'f') || ('A' <= c <= 'F')
  }

  function RadixBase(radix: Radix): nat {
    match radix
    case Ten => 10
    case Sixteen => 16
  }

  function RadixDigitValue(c: char, radix: Radix): (v: nat)
    requires IsRadixDigit(c, radix)
    ensures v < RadixBase(radix)
  {
    if IsDigit(c) then DigitValue(c)
    else if 'a' <= c <= 'f' then c as int - 'a' as int + 10
    else c as int - 'A' as int + 10
  }

  /** The longest prefix of `s` made of digits of the radix. */
  function DigitPrefix(s: string, radix: Radix): (p: string)
    ensures |p| <= |s| && p == s[..|p|]
    ensures forall i :: 0 <= i < |p| ==> IsRadixDigit(p[i], radix)
    ensures |p| < |s| ==> !IsRadixDigit(s[|p|], radix)
  {
    if s != [] && IsRadixDigit(s[0], radix) then [s[0]] + DigitPrefix(s[1..], radix) else []
  }

  function RadixValue(s: string, radix: Radix): nat
    requires forall i :: 0 <= i < |s| ==> IsRadixDigit(s[i], radix)
  {
    if s == [] then 0
    else RadixBase(radix) * RadixValue(s[..|s| - 1], radix) + RadixDigitValue(s[|s| - 1], radix)
  }

  /** Where `parseInt` is in its input: skipping white space, at the optional sign,
      at the optional `0x` of radix 16, or at the digits. */
  datatype ParsePhase = Blank | Sign | Prefix(negative: bool) | Digits(negative: bool)

  function PhaseRank(phase: ParsePhase): nat {
    match phase
    case Blank => 3
    case Sign => 2
    case Prefix(_) => 1
    case Digits(_) => 0
  }

  /** `parseInt(s, radix)`; `None` stands for `NaN`. */
  function ParseInt(s: string, radix: Radix): Option<int> {
    ParseFrom(s, radix, Blank)
  }

  /** The rest of `parseInt` from a phase on: white space is skipped, then one `-` or
      `+`, then (radix 16 only) a `0x` or `0X`; the longest run of digits that follows
      is the magnitude, and no digit at all gives `NaN`. */
  function ParseFrom(s: string, radix: Radix, phase: ParsePhase): Option<int>
    decreases |s|, PhaseRank(phase)
  {
    match phase
    case Blank =>
      if s != [] && IsWhitespace(s[0]) then ParseFrom(s[1..], radix, Blank)
      else ParseFrom(s, radix, Sign)
    case Sign =>
      if s != [] && s[0] == '-' then ParseFrom(s[1..], radix, Prefix(true))
      else if s != [] && s[0] == '+' then ParseFrom(s[1..], radix, Prefix(false))
      else ParseFrom(s, radix, Prefix(false))
    case Prefix(negative) =>
      if radix == Sixteen && |s| >= 2 && s[0] == '0' && (s[1] == 'x' || s[1] == 'X')
      then ParseFrom(s[2..], radix, Digits(negative))
      else ParseFrom(s, radix, Digits(negative))
    case Digits(negative) =>
      var digits := DigitPrefix(s, radix);
      if digits == [] then None
      else
        var magnitude: int := RadixValue(digits, radix);
        Some(if negative then -magnitude else magnitude)
  }

  /** Storing a number into a `Uint8Array`: `NaN` becomes 0, anything else is taken modulo 256. */
  function ToUint8(n: Option<int>): (r: byte)
    ensures n.None? ==> r == 0
    ensures n.Some? ==> (n.value - r) % 256 == 0
    ensures n.Some? && 0 <= n.value < 256 ==> r == n.value
  {
    match n
    case None => 0
    case Some(v) => v % 256
  }

  lemma {:induction false} DecimalValueIsRadixValue(s: string)
    requires AllDigits(s)
    ensures forall i :: 0 <= i < |s| ==> IsRadixDigit(s[i], Ten)
    ensures RadixValue(s, Ten) == DecimalValue(s)
  {
    if s != [] { DecimalValueIsRadixValue(s[..|s| - 1]); }
  }

  lemma DigitPrefixOfDigits(s: string, radix: Radix)
    requires forall i :: 0 <= i < |s| ==> IsRadixDigit(s[i], radix)
    ensures DigitPrefix(s, radix) == s
  {
    if s != [] {
      DigitPrefixOfDigits(s[1..], radix);
      assert s == [s[0]] + s[1..];
    }
  }

  /** `parseInt` of a string made only of digits of the radix (and, in radix 16, not
      starting with `0x`) is the value of those digits. */
  lemma ParseIntOfDigits(s: string, radix: Radix)
    requires s != [] && forall i :: 0 <= i < |s| ==> IsRadixDigit(s[i], radix)
    requires radix == Sixteen ==> |s| < 2 || (s[1] != 'x' && s[1] != 'X')
    ensures ParseInt(s, radix) == Some(RadixValue(s, radix))
  {
    var c := s[0];
    assert IsRadixDigit(c, radix);
    assert '0' <= c <= 'f';
    assert !IsWhitespace(c) && c != '-' && c != '+';
    assert ParseInt(s, radix) == ParseFrom(s, radix, Sign) == ParseFrom(s, radix, Prefix(false));
    assert ParseFrom(s, radix, Prefix(false)) == ParseFrom(s, radix, Digits(false));
    DigitPrefixOfDigits(s, radix);
  }

  /** `parseInt` of text whose first character is a minus sign is `NaN` or not positive. */
  lemma ParseIntOfMinus(s: string, radix: Radix)
    requires s != [] && s[0] == '-'
    ensures ParseInt(s, radix).None? || ParseInt(s, radix).value <= 0
  {
    assert !IsWhitespace(s[0]);
    assert ParseInt(s, radix) == ParseFrom(s, radix, Sign) == ParseFrom(s[1..], radix, Prefix(true));
    var t := s[1..];
    if radix == Sixteen && |t| >= 2 && t[0] == '0' && (t[1] == 'x' || t[1] == 'X') {
      assert ParseFrom(t, radix, Prefix(true)) == ParseFrom(t[2..], radix, Digits(true));
    } else {
      assert ParseFrom(t, radix, Prefix(true)) == ParseFrom(t, radix, Digits(true));
    }
  }

  /** `parseInt` of two hex digits, the second not an `x`. */
  lemma ParseIntOfHexPair(hi: char, lo: char)
    requires IsRadixDigit(hi, Sixteen) && IsRadixDigit(lo, Sixteen) && lo != 'x' && lo != 'X'
    ensures ParseInt([hi, lo], Sixteen)
            == Some(16 * RadixDigitValue(hi, Sixteen) + RadixDigitValue(lo, Sixteen))
  {
    var s := [hi, lo];
    assert s[0] == hi && s[1] == lo;
    ParseIntOfDigits(s, Sixteen);
    RadixValueOfPair(hi, lo, Sixteen);
    assert RadixValue(s, Sixteen) == 16 * RadixDigitValue(hi, Sixteen) + RadixDigitValue(lo, Sixteen);
  }

  /** The value of a two-digit numeral. */
  lemma RadixValueOfPair(hi: char, lo: char, radix: Radix)
    requires IsRadixDigit(hi, radix) && IsRadixDigit(lo, radix)
    ensures RadixValue([hi, lo], radix)
            == RadixBase(radix) * RadixDigitValue(hi, radix) + RadixDigitValue(lo, radix)
  {
    var s := [hi, lo];
    assert s[..1] == [hi] && [hi][..0] == [];
    assert RadixValue([hi], radix) == RadixDigitValue(hi, radix);
  }

  /** Parsing a decimal numeral written by `NatToString` gives the number back. */
  lemma ParseIntOfNatToString(n: nat)
    ensures ParseInt(NatToString(n), Ten) == Some(n)
  {
    var s := NatToString(n);
    DecimalValueIsRadixValue(s);
    ParseIntOfDigits(s, Ten);
  }
}
