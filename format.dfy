/**
 * The XAF amount formatter and parser: `formatCurrencyXAF` on its standard path
 * (thousands grouped with no-break spaces, an optional sign, an optional ` XAF`
 * suffix), `formatCurrencyWithType`, and the cleaning parser `parseCurrencyXAF`.
 *
 * `Intl.NumberFormat('fr-FR')` is specified directly by the grouping it produces once
 * its separators are replaced by U+00A0; the compact path is not modelled.
 */
module Format {
  import opened JsBuiltins

  /** U+00A0 NO-BREAK SPACE. */
  const Nbsp: char := '\U{00A0}'

  /** The currency suffix `' XAF'`. */
  const XafSuffix: string := [Nbsp] + "XAF"

  // ---------------------------------------------------------------------------
  // Grouping

  /** Digits in groups of three from the right, separated by single no-break spaces:
      exactly the positions at a multiple of four from the end hold a separator. */
  predicate Grouped(s: string) {
    && |s| > 0 && IsDigit(s[0])
    && forall i :: 0 <= i < |s| ==> (s[i] == Nbsp <==> (|s| - i) % 4 == 0) && (s[i] != Nbsp ==> IsDigit(s[i]))
  }

  /** A non-negative integer as `Intl.NumberFormat('fr-FR', { maximumFractionDigits: 0 })`
      writes it, with every separator turned into U+00A0. */
  function GroupDigits(n: nat): (s: string)
    ensures Grouped(s)
    ensures AllDigits(RemoveWhitespace(s)) && DecimalValue(RemoveWhitespace(s)) == n
    ensures n == 0 ==> s == "0"
    ensures n > 0 ==> s[0] != '0'
  {
    if n < 1000 then
      SmallGroup(n);
      NatToString(n)
    else
      var head := GroupDigits(n / 1000);
      var tail := PadStart(NatToString(n % 1000), 3, '0');
      LowGroup(n % 1000);
      GroupedAppend(head, tail);
      GroupedValue(head, tail);
      head + [Nbsp] + tail
  }

  /** Below 1000 the numeral is a single group. */
  lemma SmallGroup(n: nat)
    requires n < 1000
    ensures Grouped(NatToString(n)) && RemoveWhitespace(NatToString(n)) == NatToString(n)
  {
    var d := NatToString(n);
    NatToStringLength(n, 3);
    assert Pow10(3) == 1000;
    assert forall i :: 0 <= i < |d| ==> !IsWhitespace(d[i]);
  }

  /** The last three digits, zero-padded. */
  lemma LowGroup(r: nat)
    requires r < 1000
    ensures var tail := PadStart(NatToString(r), 3, '0');
      |tail| == 3 && AllDigits(tail) && DecimalValue(tail) == r
  {
    var low := NatToString(r);
    assert Pow10(3) == 1000;
    NatToStringLength(r, 3);
    DecimalValueZeroPad(3 - |low|, low);
  }

  lemma GroupedAppend(head: string, tail: string)
    requires Grouped(head) && |tail| == 3 && AllDigits(tail)
    ensures Grouped(head + [Nbsp] + tail)
  {
    var s := head + [Nbsp] + tail;
    forall i | 0 <= i < |s|
      ensures (s[i] == Nbsp <==> (|s| - i) % 4 == 0) && (s[i] != Nbsp ==> IsDigit(s[i]))
    {
      if i < |head| {
        assert s[i] == head[i] && (|s| - i) % 4 == (|head| - i) % 4;
      } else if i > |head| {
        assert s[i] == tail[i - |head| - 1];
      }
    }
  }

  lemma GroupedValue(head: string, tail: string)
    requires AllDigits(RemoveWhitespace(head)) && |tail| == 3 && AllDigits(tail)
    ensures AllDigits(RemoveWhitespace(head + [Nbsp] + tail))
    ensures DecimalValue(RemoveWhitespace(head + [Nbsp] + tail)) == DecimalValue(RemoveWhitespace(head)) * 1000 + DecimalValue(tail)
  {
    StripSeparator(head, tail);
    DecimalValueAppend(RemoveWhitespace(head), tail);
    assert Pow10(3) == 1000;
  }

  /** Removing the spaces drops the separator before a group of digits. */
  lemma StripSeparator(head: string, tail: string)
    requires AllDigits(tail)
    ensures RemoveWhitespace(head + [Nbsp] + tail) == RemoveWhitespace(head) + tail
  {
    assert forall i :: 0 <= i < |tail| ==> !IsWhitespace(tail[i]);
    var t := [Nbsp] + tail;
    assert t[0] == Nbsp && t[1..] == tail && NonWhitespace(Nbsp) == [];
    assert RemoveWhitespace(t) == tail;
    assert head + [Nbsp] + tail == head + t;
    RemoveWhitespaceAppend(head, t);
  }

  // ---------------------------------------------------------------------------
  // Formatting

  /** The options of the standard path; `compact` is assumed off. */
  datatype FormatOptions = FormatOptions(showCurrency: bool, sign: bool)

  /** `{}`: with the currency, without a `+`. */
  const DefaultOptions: FormatOptions := FormatOptions(true, false)

  function Abs(n: int): nat {
    if n < 0 then -n else n
  }

  /** The sign written before the digits of a rounded amount. */
  function SignPrefix(rounded: int, sign: bool): string {
    if rounded < 0 then "-" else if sign && rounded > 0 then "+" else ""
  }

  function CurrencySuffix(showCurrency: bool): string {
    if showCurrency then XafSuffix else ""
  }

  /** `formatCurrencyXAF(amount, { showCurrency, sign })` on the non-compact path. */
  function FormatCurrencyXaf(amount: Number, options: FormatOptions): (s: string)
    ensures !amount.Finite? ==> s == if options.showCurrency then "0" + XafSuffix else "0"
    ensures |s| > 0
    ensures options.showCurrency <==> |s| >= 4 && s[|s| - 4..] == XafSuffix
    ensures amount.Finite? ==> (s[0] == '-' <==> Round(amount.value) < 0)
    ensures amount.Finite? ==> (s[0] == '+' <==> options.sign && Round(amount.value) > 0)
    ensures amount.Finite? && Round(amount.value) == 0 ==> s == if options.showCurrency then "0" + XafSuffix else "0"
  {
    if !amount.Finite? then
      if options.showCurrency then "0" + XafSuffix else "0"
    else
      var rounded := Round(amount.value);
      var withSpaces := GroupDigits(Abs(rounded));
      var result := SignPrefix(rounded, options.sign) + withSpaces;
      assert result[|result| - 1] == withSpaces[|withSpaces| - 1];
      assert result[0] == if SignPrefix(rounded, options.sign) == "" then withSpaces[0] else SignPrefix(rounded, options.sign)[0];
      SuffixShape(result, options.showCurrency);
      result + CurrencySuffix(options.showCurrency)
  }

  /** The suffix is there exactly when asked for, behind a string not ending in `F`. */
  lemma SuffixShape(result: string, showCurrency: bool)
    requires |result| > 0 && result[|result| - 1] != 'F'
    ensures var s := result + CurrencySuffix(showCurrency);
      && s[0] == result[0]
      && (showCurrency <==> |s| >= 4 && s[|s| - 4..] == XafSuffix)
  {
    var s := result + CurrencySuffix(showCurrency);
    if showCurrency {
      assert s[|s| - 4..] == XafSuffix;
    } else if |s| >= 4 {
      assert s[|s| - 4..][3] == result[|result| - 1];
    }
  }

  datatype EntryType = Income | Expense

  datatype Formatted = Formatted(formatted: string, className: string)

  function NumberAbs(x: Number): Number {
    match x
    case Finite(v) => Finite(if v < 0.0 then -v else v)
    case NegInfinity => Infinity
    case _ => x
  }

  function Negate(x: Number): Number {
    match x
    case Finite(v) => Finite(-v)
    case Infinity => NegInfinity
    case NegInfinity => Infinity
    case NaN => NaN
  }

  /** `formatCurrencyWithType(amount, type)`: expenses shown as `-|amount|` in red,
      incomes as `+|amount|` in green, always with the sign option and the currency. */
  function FormatCurrencyWithType(amount: Number, entryType: EntryType): (r: Formatted)
    ensures r.className == if entryType == Income then "text-green-600" else "text-red-600"
    ensures |r.formatted| >= 4 && r.formatted[|r.formatted| - 4..] == XafSuffix
  {
    var displayAmount := if entryType == Expense then Negate(NumberAbs(amount)) else NumberAbs(amount);
    Formatted(FormatCurrencyXaf(displayAmount, FormatOptions(true, true)),
              if entryType == Income then "text-green-600" else "text-red-600")
  }

  /** An income is shown with `+` exactly when its absolute value rounds above zero,
      an expense with `-` exactly when its negated absolute value rounds below zero; the
      opposite sign never appears. */
  lemma WithTypeSign(v: real, entryType: EntryType)
    ensures var a := if v < 0.0 then -v else v;
      var f := FormatCurrencyWithType(Finite(v), entryType).formatted;
      && (entryType == Income ==> (f[0] == '+' <==> Round(a) > 0) && f[0] != '-')
      && (entryType == Expense ==> (f[0] == '-' <==> Round(-a) < 0) && f[0] != '+')
  {
    var a := if v < 0.0 then -v else v;
    RoundMonotone(0.0, a);
    RoundMonotone(-a, 0.0);
    RoundInt(0);
  }

  /** The sign of the input never matters. */
  lemma WithTypeIgnoresSign(v: real, entryType: EntryType)
    ensures FormatCurrencyWithType(Finite(v), entryType) == FormatCurrencyWithType(Finite(-v), entryType)
  {
    assert NumberAbs(Finite(v)) == NumberAbs(Finite(-v));
  }

  // ---------------------------------------------------------------------------
  // Parsing

  predicate IsX(c: char) { c == 'X' || c == 'x' }

  predicate NoX(s: string) {
    forall i :: 0 <= i < |s| ==> !IsX(s[i])
  }

  /** The first three characters spell `XAF` in any case. */
  predicate StartsWithXaf(s: string) {
    |s| >= 3 && IsX(s[0]) && (s[1] == 'A' || s[1] == 'a') && (s[2] == 'F' || s[2] == 'f')
  }

  /** `s.replace(/XAF/gi, '')`: matches removed left to right, without overlap. */
  function RemoveXaf(s: string): (r: string)
    ensures |r| <= |s|
    decreases |s|
  {
    if s == [] then []
    else if StartsWithXaf(s) then RemoveXaf(s[3..])
    else [s[0]] + RemoveXaf(s[1..])
  }

  lemma {:induction false} RemoveXafAppend(a: string, b: string)
    requires NoX(a)
    ensures RemoveXaf(a + b) == a + RemoveXaf(b)
  {
    if a == [] {
      assert a + b == b;
    } else {
      assert (a + b)[0] == a[0] && (a + b)[1..] == a[1..] + b;
      RemoveXafAppend(a[1..], b);
    }
  }

  /** The characters `[\d,-]` that the cleaning keeps. */
  predicate IsNumericChar(c: char) {
    IsDigit(c) || c == ',' || c == '-'
  }

  /** `s.replace(/[^\d,-]/g, '')`. */
  function KeepNumeric(s: string): (r: string)
    ensures |r| <= |s|
    ensures forall i :: 0 <= i < |r| ==> IsNumericChar(r[i])
    ensures (forall i :: 0 <= i < |s| ==> IsNumericChar(s[i])) ==> r == s
  {
    if s == [] then [] else (if IsNumericChar(s[0]) then [s[0]] else []) + KeepNumeric(s[1..])
  }

  lemma {:induction false} KeepNumericAppend(a: string, b: string)
    ensures KeepNumeric(a + b) == KeepNumeric(a) + KeepNumeric(b)
  {
    if a == [] {
      assert a + b == b;
    } else {
      assert (a + b)[0] == a[0] && (a + b)[1..] == a[1..] + b;
      KeepNumericAppend(a[1..], b);
    }
  }

  /** `s.replace(',', '.')`: only the first comma becomes a decimal point. */
  function ReplaceFirstComma(s: string): (r: string)
    ensures |r| == |s|
    ensures (forall i :: 0 <= i < |s| ==> s[i] != ',') ==> r == s
    ensures forall i :: 0 <= i < |s| ==> r[i] == s[i] || (s[i] == ',' && r[i] == '.')
  {
    if s == [] then []
    else if s[0] == ',' then "." + s[1..]
    else [s[0]] + ReplaceFirstComma(s[1..])
  }

  /** The four cleaning steps of `parseCurrencyXAF`. */
  function Clean(s: string): (c: string)
    ensures forall i :: 0 <= i < |c| ==> IsNumericChar(c[i]) || c[i] == '.'
  {
    ReplaceFirstComma(KeepNumeric(RemoveWhitespace(RemoveXaf(s))))
  }

  /** `parseFloat` on a cleaned string, which holds only digits, `-`, `,` and `.`:
      an optional minus sign, integer digits, then an optional point and fraction digits,
      with at least one digit in all; `None` stands for `NaN`. */
  function ParseCleaned(s: string): (r: Option<real>)
    requires forall i :: 0 <= i < |s| ==> IsNumericChar(s[i]) || s[i] == '.'
    ensures r.Some? ==> exists i :: 0 <= i < |s| && IsDigit(s[i])
  {
    var negative := s != [] && s[0] == '-';
    var body := if negative then s[1..] else s;
    var whole := DigitPrefix(body, Ten);
    var rest := body[|whole|..];
    var fraction := if rest != [] && rest[0] == '.' then DigitPrefix(rest[1..], Ten) else [];
    if whole == [] && fraction == [] then None
    else
      var magnitude := Magnitude(RadixValue(whole, Ten), RadixValue(fraction, Ten), |fraction|);
      assert whole != [] ==> body[0] == whole[0];
      assert whole == [] ==> rest == body && rest[1..][0] == fraction[0];
      Some(if negative then -magnitude else magnitude)
  }

  /** The value of a decimal numeral with integer part `whole` and `places` fraction digits
      of value `fraction`. */
  function Magnitude(whole: nat, fraction: nat, places: nat): (r: real)
    ensures places == 0 ==> r == (whole + fraction) as real
    ensures whole as real <= r
  {
    whole as real + fraction as real / Pow10(places) as real
  }

  /** A bare numeral, possibly preceded by a minus sign, parses to its value. */
  lemma ParseCleanedNumeral(s: string, negative: bool, d: string)
    requires d != [] && AllDigits(d) && s == (if negative then "-" else "") + d
    ensures forall i :: 0 <= i < |s| ==> IsNumericChar(s[i])
    ensures ParseCleaned(s) == Some(if negative then -(DecimalValue(d) as real) else DecimalValue(d) as real)
  {
    assert (if s != [] && s[0] == '-' then s[1..] else s) == d;
    DigitPrefixOfDigits(d, Ten);
    DecimalValueIsRadixValue(d);
    assert d[|d|..] == [];
  }

  /** `parseCurrencyXAF(s)`; `None` stands for `null`. */
  function ParseCurrencyXaf(s: string): (r: Option<int>)
    ensures s == "" ==> r.None?
    ensures r.Some? ==> ParseCleaned(Clean(s)).Some? && r.value == Round(ParseCleaned(Clean(s)).value)
    ensures r.None? && s != "" ==> ParseCleaned(Clean(s)).None?
  {
    if s == "" then None
    else
      match ParseCleaned(Clean(s))
      case None => None
      case Some(parsed) => Some(Round(parsed))
  }

  /** A finite amount whose value is an integer is written as its sign, its digit groups
      and the suffix. */
  lemma FormatInteger(n: int, options: FormatOptions)
    ensures FormatCurrencyXaf(Finite(n as real), options)
      == SignPrefix(n, options.sign) + GroupDigits(Abs(n)) + CurrencySuffix(options.showCurrency)
  {
    RoundInt(n);
  }

  /** Removing `XAF` and the spaces from a sign, digit groups and a suffix leaves the sign
      and the digits. */
  lemma StripParts(sign: string, g: string, showCurrency: bool)
    requires sign == "" || sign == "-" || sign == "+"
    requires Grouped(g)
    ensures RemoveWhitespace(RemoveXaf(sign + g + CurrencySuffix(showCurrency))) == sign + RemoveWhitespace(g)
  {
    var result := sign + g;
    var suffix := CurrencySuffix(showCurrency);
    SignedGroupsNoX(sign, g);
    RemoveXafAppend(result, suffix);
    SuffixCleaned(showCurrency);
    BlankTail(result, RemoveXaf(suffix));
    SignKept(sign, g);
  }

  /** Appending text that is all blank does not change what removing the spaces keeps. */
  lemma BlankTail(a: string, b: string)
    requires RemoveWhitespace(b) == []
    ensures RemoveWhitespace(a + b) == RemoveWhitespace(a)
  {
    RemoveWhitespaceAppend(a, b);
    assert RemoveWhitespace(a) + [] == RemoveWhitespace(a);
  }

  /** A sign character is not a space. */
  lemma SignKept(sign: string, g: string)
    requires sign == "" || sign == "-" || sign == "+"
    ensures RemoveWhitespace(sign + g) == sign + RemoveWhitespace(g)
  {
    if sign != "" {
      assert |sign| == 1 && !IsWhitespace(sign[0]);
    }
    assert RemoveWhitespace(sign) == sign;
    RemoveWhitespaceAppend(sign, g);
  }

  /** A sign and digit groups hold no `X`. */
  lemma SignedGroupsNoX(sign: string, g: string)
    requires sign == "" || sign == "-" || sign == "+"
    requires Grouped(g)
    ensures NoX(sign + g)
  {
    var result := sign + g;
    assert forall i :: 0 <= i < |result| ==> result[i] == '-' || result[i] == '+' || result[i] == Nbsp || IsDigit(result[i]);
  }

  /** All that is left of the suffix is blank. */
  lemma SuffixCleaned(showCurrency: bool)
    ensures RemoveWhitespace(RemoveXaf(CurrencySuffix(showCurrency))) == []
  {
    if showCurrency {
      RemoveXafAppend([Nbsp], "XAF");
      assert RemoveXaf("XAF") == RemoveXaf("XAF"[3..]);
      assert RemoveXaf(XafSuffix) == [Nbsp];
    }
  }

  /** The cleaned formatted amount: a minus sign for a negative amount, then the digits. */
  lemma CleanFormatted(n: int, options: FormatOptions)
    ensures var d := RemoveWhitespace(GroupDigits(Abs(n)));
      Clean(FormatCurrencyXaf(Finite(n as real), options)) == (if n < 0 then "-" else "") + d
  {
    var g := GroupDigits(Abs(n));
    var sign := SignPrefix(n, options.sign);
    FormatInteger(n, options);
    StripParts(sign, g, options.showCurrency);
    CleanDigits(sign, RemoveWhitespace(g));
  }

  /** Keeping the numeric characters of a sign and a numeral drops a `+`; the result has no
      comma to replace. */
  lemma CleanDigits(sign: string, d: string)
    requires sign == "" || sign == "-" || sign == "+"
    requires AllDigits(d)
    ensures ReplaceFirstComma(KeepNumeric(sign + d)) == (if sign == "-" then "-" else "") + d
  {
    KeepNumericAppend(sign, d);
    assert KeepNumeric(sign) == (if sign == "-" then "-" else "");
    var kept := (if sign == "-" then "-" else "") + d;
    assert forall i :: 0 <= i < |kept| ==> kept[i] != ',';
  }

  /** Parsing the standard formatted string of an integer gives the integer back. */
  lemma ParseFormatted(n: int, options: FormatOptions)
    ensures ParseCurrencyXaf(FormatCurrencyXaf(Finite(n as real), options)) == Some(n)
  {
    var s := FormatCurrencyXaf(Finite(n as real), options);
    var d := RemoveWhitespace(GroupDigits(Abs(n)));
    FormattedDigits(n, options);
    ParseOfCleanedInteger(s, n, d);
  }

  /** The cleaned formatted amount is the minus sign, if any, and the numeral of `|n|`. */
  lemma FormattedDigits(n: int, options: FormatOptions)
    ensures var d := RemoveWhitespace(GroupDigits(Abs(n)));
      && Clean(FormatCurrencyXaf(Finite(n as real), options)) == (if n < 0 then "-" else "") + d
      && d != [] && AllDigits(d) && DecimalValue(d) == Abs(n)
  {
    CleanFormatted(n, options);
    NonEmptyDigits(GroupDigits(Abs(n)));
  }

  /** A string that cleans to the sign and the numeral of an integer parses to it. */
  lemma ParseOfCleanedInteger(s: string, n: int, d: string)
    requires d != [] && AllDigits(d) && DecimalValue(d) == Abs(n)
    requires Clean(s) == (if n < 0 then "-" else "") + d
    ensures ParseCurrencyXaf(s) == Some(n)
  {
    ParseOfCleaned(s, n < 0, d);
    assert (if n < 0 then -(DecimalValue(d) as real) else DecimalValue(d) as real) == n as real;
    RoundInt(n);
  }

  /** A string that cleans to a numeral, possibly negative, parses to its value. */
  lemma ParseOfCleaned(s: string, negative: bool, d: string)
    requires d != [] && AllDigits(d) && Clean(s) == (if negative then "-" else "") + d
    ensures ParseCurrencyXaf(s) == Some(Round(if negative then -(DecimalValue(d) as real) else DecimalValue(d) as real))
  {
    if s == "" {
      CleanEmpty();
      assert false;
    }
    ParseCleanedNumeral(Clean(s), negative, d);
  }

  lemma CleanEmpty()
    ensures Clean("") == ""
  {
  }

  /** Digit groups keep at least one digit. */
  lemma NonEmptyDigits(g: string)
    requires Grouped(g)
    ensures RemoveWhitespace(g) != []
  {
    assert !IsWhitespace(g[0]);
    assert RemoveWhitespace(g) == NonWhitespace(g[0]) + RemoveWhitespace(g[1..]);
  }

  // ---------------------------------------------------------------------------
  // Examples from the formatter's tests

  lemma Numeral500()
    ensures NatToString(500) == "500" && NatToString(501) == "501" && NatToString(38) == "38"
  {
    assert NatToString(5) == "5" && NatToString(3) == "3";
    assert NatToString(50) == "50";
  }

  /** `1500` is written `1 500 XAF`. */
  lemma FormatThousands()
    ensures FormatCurrencyXaf(Finite(1500.0), DefaultOptions) == "1" + [Nbsp] + "500" + XafSuffix
  {
    Numeral500();
    RoundInt(1500);
    FormatOfRounded(1500.0, DefaultOptions);
    GroupThousands(1500, 1, 500);
    assert NatToString(1) == "1";
    assert GroupDigits(1500) == "1" + [Nbsp] + "500";
  }

  /** `1500.6` rounds to `1 501 XAF`. */
  lemma FormatRounds()
    ensures FormatCurrencyXaf(Finite(1500.6), DefaultOptions) == "1" + [Nbsp] + "501" + XafSuffix
  {
    Numeral500();
    assert Round(1500.6) == 1501;
    FormatOfRounded(1500.6, DefaultOptions);
    GroupThousands(1501, 1, 501);
    assert NatToString(1) == "1";
    assert GroupDigits(1501) == "1" + [Nbsp] + "501";
  }

  /** A finite amount is written as the sign, the digit groups and the suffix of its
      rounded value. */
  lemma FormatOfRounded(x: real, options: FormatOptions)
    ensures FormatCurrencyXaf(Finite(x), options)
      == SignPrefix(Round(x), options.sign) + GroupDigits(Abs(Round(x))) + CurrencySuffix(options.showCurrency)
  {
  }

  /** A four- to six-digit amount is its thousands, a separator and three digits. */
  lemma GroupThousands(n: nat, k: nat, r: nat)
    requires n == 1000 * k + r && 1 <= k < 1000 && r < 1000 && |NatToString(r)| == 3
    ensures GroupDigits(n) == NatToString(k) + [Nbsp] + NatToString(r)
  {
    assert n >= 1000 && n / 1000 == k && n % 1000 == r;
    SmallGroup(k);
  }

  /** Zero never has a sign, and a non-finite amount is shown as zero. */
  lemma FormatZero()
    ensures FormatCurrencyXaf(Finite(0.0), FormatOptions(true, true)) == "0" + XafSuffix
    ensures FormatCurrencyXaf(NaN, DefaultOptions) == "0" + XafSuffix
  {
    RoundInt(0);
  }

  /** A numeral with a decimal comma, such as `1500,50`, is read as a decimal fraction
      and rounded half up. */
  lemma ParseDecimalComma(whole: string, fraction: string)
    requires AllDigits(whole) && AllDigits(fraction) && (whole != [] || fraction != [])
    ensures ParseCurrencyXaf(whole + "," + fraction)
      == Some(Round(Magnitude(DecimalValue(whole), DecimalValue(fraction), |fraction|)))
  {
    CleanDecimalComma(whole, fraction);
    ParseCleanedDecimal(whole, fraction);
  }

  /** Cleaning keeps the digits and turns the decimal comma into a point. */
  lemma CleanDecimalComma(whole: string, fraction: string)
    requires AllDigits(whole) && AllDigits(fraction)
    ensures Clean(whole + "," + fraction) == whole + "." + fraction
  {
    var s := whole + "," + fraction;
    assert forall i :: 0 <= i < |s| ==> IsNumericChar(s[i]) && !IsX(s[i]) && !IsWhitespace(s[i]);
    RemoveXafAppend(s, []);
    assert s + [] == s;
    assert s == whole + ("," + fraction);
    ReplaceFirstCommaAfter(whole, "," + fraction);
  }

  /** `parseFloat` reads integer digits, a point and fraction digits. */
  lemma ParseCleanedDecimal(whole: string, fraction: string)
    requires AllDigits(whole) && AllDigits(fraction) && (whole != [] || fraction != [])
    ensures forall i :: 0 <= i < |whole + "." + fraction| ==> IsNumericChar((whole + "." + fraction)[i]) || (whole + "." + fraction)[i] == '.'
    ensures ParseCleaned(whole + "." + fraction)
      == Some(Magnitude(DecimalValue(whole), DecimalValue(fraction), |fraction|))
  {
    var c := whole + "." + fraction;
    var rest := "." + fraction;
    assert c == whole + rest;
    DigitPrefixStops(whole, rest);
    DigitPrefixOfDigits(fraction, Ten);
    assert c != [] && c[0] != '-';
    assert c[|whole|..] == rest && rest[1..] == fraction;
    ParsePointed(c, whole, fraction);
    DecimalValueIsRadixValue(whole);
    DecimalValueIsRadixValue(fraction);
  }

  /** An unsigned cleaned string whose digit prefix is `whole`, followed by a point and
      the digits `fraction`, has the value they spell. */
  lemma ParsePointed(c: string, whole: string, fraction: string)
    requires forall i :: 0 <= i < |c| ==> IsNumericChar(c[i]) || c[i] == '.'
    requires c != [] && c[0] != '-' && DigitPrefix(c, Ten) == whole && (whole != [] || fraction != [])
    requires c[|whole|..] == "." + fraction && DigitPrefix(fraction, Ten) == fraction
    ensures ParseCleaned(c) == Some(Magnitude(RadixValue(whole, Ten), RadixValue(fraction, Ten), |fraction|))
  {
    assert ("." + fraction)[1..] == fraction;
  }

  lemma {:induction false} ReplaceFirstCommaAfter(a: string, b: string)
    requires forall i :: 0 <= i < |a| ==> a[i] != ','
    ensures ReplaceFirstComma(a + b) == a + ReplaceFirstComma(b)
  {
    if a == [] {
      assert a + b == b;
    } else {
      var t := a[1..];
      ConsSplit(a, b);
      ReplaceFirstCommaAfter(t, b);
      ReplaceFirstCommaCons(a[0], t + b);
      ConsSplit(a, ReplaceFirstComma(b));
    }
  }

  lemma ConsSplit(a: string, b: string)
    requires a != []
    ensures a + b == [a[0]] + (a[1..] + b)
    ensures forall i :: 0 <= i < |a[1..]| ==> a[1..][i] == a[i + 1]
  {
  }

  lemma ReplaceFirstCommaCons(c: char, u: string)
    requires c != ','
    ensures ReplaceFirstComma([c] + u) == [c] + ReplaceFirstComma(u)
  {
    assert ([c] + u)[1..] == u;
  }

  /** The digit prefix stops at the first non-digit. */
  lemma {:induction false} DigitPrefixStops(digits: string, rest: string)
    requires AllDigits(digits) && (rest == [] || !IsDigit(rest[0]))
    ensures DigitPrefix(digits + rest, Ten) == digits
  {
    if digits == [] {
      assert digits + rest == rest;
    } else {
      assert (digits + rest)[0] == digits[0] && (digits + rest)[1..] == digits[1..] + rest;
      DigitPrefixStops(digits[1..], rest);
    }
  }

  /** Text without digits is not an amount. */
  lemma ParseRejects()
    ensures ParseCurrencyXaf("abc") == None
    ensures ParseCurrencyXaf("XAF") == None
  {
    CleanLetters();
    CleanCurrencyWord();
    NothingToParse("abc");
    NothingToParse("XAF");
  }

  lemma NothingToParse(s: string)
    requires s != "" && Clean(s) == ""
    ensures ParseCurrencyXaf(s) == None
  {
  }

  lemma CleanLetters()
    ensures Clean("abc") == ""
  {
    var abc := "abc";
    assert forall i :: 0 <= i < |abc| ==> !IsX(abc[i]) && !IsWhitespace(abc[i]) && !IsNumericChar(abc[i]);
    RemoveXafAppend(abc, []);
    assert abc + [] == abc;
    KeepNumericNone(abc);
  }

  /** Text without a digit, a comma or a minus sign keeps nothing. */
  lemma {:induction false} KeepNumericNone(s: string)
    requires forall i :: 0 <= i < |s| ==> !IsNumericChar(s[i])
    ensures KeepNumeric(s) == []
  {
    if s != [] {
      KeepNumericNone(s[1..]);
    }
  }

  lemma CleanCurrencyWord()
    ensures Clean("XAF") == ""
  {
    assert RemoveXaf("XAF") == RemoveXaf("XAF"[3..]);
  }
}
