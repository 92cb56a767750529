/**
 * Identifier generation and validation (`src/utils/id.ts`).
 *
 * The three identifier formats are anchored regular expressions built from
 * runs of one character class. `Matches` is a small reference reading of such
 * an expression; `IsValidId` is defined with it, and the positional shape of
 * each format is proved equivalent to it. The generators take the clock
 * reading and the text of `Math.random().toString(36)` as parameters.
 */
module Id {
  import opened JsBuiltins

  /** `[a-z0-9]` */
  predicate IsLowerAlnum(c: char) {
    ('a' <= c <= 'z') || IsDigit(c)
  }

  predicate AllLowerAlnum(s: string) {
    forall i :: 0 <= i < |s| ==> IsLowerAlnum(s[i])
  }

  /** A character class of a pattern: `\d` or `[a-z0-9]`. */
  datatype CharClass = Digit | LowerAlnum

  predicate InClass(cls: CharClass, c: char) {
    match cls
    case Digit => IsDigit(c)
    case LowerAlnum => IsLowerAlnum(c)
  }

  /** One piece of an anchored pattern: a class repeated `n` times, or literal text. */
  datatype Segment = Run(cls: CharClass, n: nat) | Text(text: string)

  function SegmentLength(g: Segment): nat {
    match g
    case Run(_, n) => n
    case Text(t) => |t|
  }

  /** The text `s[..SegmentLength(g)]` matches the segment. */
  predicate SegmentMatches(g: Segment, s: string)
    requires |s| == SegmentLength(g)
  {
    match g
    case Run(cls, _) => forall i :: 0 <= i < |s| ==> InClass(cls, s[i])
    case Text(t) => s == t
  }

  /** An anchored pattern `^...$` without alternation. */
  type Pattern = seq<Segment>

  function PatternLength(p: Pattern): nat {
    if p == [] then 0 else SegmentLength(p[0]) + PatternLength(p[1..])
  }

  /** `new RegExp(p).test(s)` for an anchored pattern of fixed repetitions. */
  predicate Matches(p: Pattern, s: string)
    decreases |p|
  {
    if p == [] then s == []
    else
      var n := SegmentLength(p[0]);
      n <= |s| && SegmentMatches(p[0], s[..n]) && Matches(p[1..], s[n..])
  }

  /** A matching string has exactly the pattern's length. */
  lemma {:induction false} MatchesLength(p: Pattern, s: string)
    requires Matches(p, s)
    ensures |s| == PatternLength(p)
    decreases |p|
  {
    if p != [] {
      MatchesLength(p[1..], s[SegmentLength(p[0])..]);
    }
  }

  /** `^\d{13}_[a-z0-9]{6}$` */
  const TimestampPattern: Pattern := [Run(Digit, 13), Text("_"), Run(LowerAlnum, 6)]

  /** `^\d{8}_\d{6}_[a-z0-9]{3}$` */
  const TransactionPattern: Pattern := [Run(Digit, 8), Text("_"), Run(Digit, 6), Text("_"), Run(LowerAlnum, 3)]

  /** `^EXTRA_\d{8}_[a-z0-9]{3}$` */
  const ExtraPattern: Pattern := [Text("EXTRA_"), Run(Digit, 8), Text("_"), Run(LowerAlnum, 3)]

  /** `isValidId`: a non-empty string matching one of the three formats. */
  predicate IsValidId(id: string) {
    id != "" && (Matches(TimestampPattern, id) || Matches(TransactionPattern, id) || Matches(ExtraPattern, id))
  }

  /** The positional shape of a timestamp identifier. */
  predicate TimestampShape(id: string) {
    |id| == 20 && AllDigits(id[..13]) && id[13] == '_' && AllLowerAlnum(id[14..])
  }

  /** The positional shape of a transaction identifier. */
  predicate TransactionShape(id: string) {
    |id| == 19 && AllDigits(id[..8]) && id[8] == '_' && AllDigits(id[9..15]) && id[15] == '_'
    && AllLowerAlnum(id[16..])
  }

  /** The positional shape of an extra-income identifier. */
  predicate ExtraShape(id: string) {
    |id| == 18 && id[..6] == "EXTRA_" && AllDigits(id[6..14]) && id[14] == '_' && AllLowerAlnum(id[15..])
  }

  /** Matching a pattern of one segment. */
  lemma MatchesOne(g: Segment, s: string)
    ensures Matches([g], s) <==> |s| == SegmentLength(g) && SegmentMatches(g, s)
  {
    assert [g][1..] == [];
    if |s| >= SegmentLength(g) {
      assert s[..SegmentLength(g)] == s <==> |s| == SegmentLength(g);
    }
  }

  /** Matching a segment followed by the rest of a pattern. */
  lemma MatchesCons(g: Segment, p: Pattern, s: string)
    ensures Matches([g] + p, s) <==>
      SegmentLength(g) <= |s| && SegmentMatches(g, s[..SegmentLength(g)]) && Matches(p, s[SegmentLength(g)..])
  {
    assert ([g] + p)[0] == g && ([g] + p)[1..] == p;
  }

  lemma TimestampMatches(id: string)
    ensures Matches(TimestampPattern, id) <==> TimestampShape(id)
  {
    var tail := [Run(LowerAlnum, 6)];
    assert TimestampPattern == [Run(Digit, 13)] + ([Text("_")] + tail);
    MatchesCons(Run(Digit, 13), [Text("_")] + tail, id);
    if |id| >= 13 {
      var t := id[13..];
      MatchesCons(Text("_"), tail, t);
      if |t| >= 1 {
        MatchesOne(Run(LowerAlnum, 6), t[1..]);
        assert t[..1] == "_" <==> id[13] == '_';
        assert t[1..] == id[14..];
      }
    }
  }

  lemma TransactionMatches(id: string)
    ensures Matches(TransactionPattern, id) <==> TransactionShape(id)
  {
    var p4 := [Run(LowerAlnum, 3)];
    var p3 := [Text("_")] + p4;
    var p2 := [Run(Digit, 6)] + p3;
    var p1 := [Text("_")] + p2;
    assert TransactionPattern == [Run(Digit, 8)] + p1;
    MatchesCons(Run(Digit, 8), p1, id);
    if |id| >= 8 {
      var t1 := id[8..];
      MatchesCons(Text("_"), p2, t1);
      if |t1| >= 1 {
        assert t1[..1] == "_" <==> id[8] == '_';
        var t2 := t1[1..];
        MatchesCons(Run(Digit, 6), p3, t2);
        if |t2| >= 6 {
          assert t2[..6] == id[9..15];
          var t3 := t2[6..];
          MatchesCons(Text("_"), p4, t3);
          if |t3| >= 1 {
            assert t3[..1] == "_" <==> id[15] == '_';
            MatchesOne(Run(LowerAlnum, 3), t3[1..]);
            assert t3[1..] == id[16..];
          }
        }
      }
    }
  }

  lemma ExtraMatches(id: string)
    ensures Matches(ExtraPattern, id) <==> ExtraShape(id)
  {
    var p3 := [Run(LowerAlnum, 3)];
    var p2 := [Text("_")] + p3;
    var p1 := [Run(Digit, 8)] + p2;
    assert ExtraPattern == [Text("EXTRA_")] + p1;
    MatchesCons(Text("EXTRA_"), p1, id);
    if |id| >= 6 {
      var t1 := id[6..];
      MatchesCons(Run(Digit, 8), p2, t1);
      if |t1| >= 8 {
        assert t1[..8] == id[6..14];
        var t2 := t1[8..];
        MatchesCons(Text("_"), p3, t2);
        if |t2| >= 1 {
          assert t2[..1] == "_" <==> id[14] == '_';
          MatchesOne(Run(LowerAlnum, 3), t2[1..]);
          assert t2[1..] == id[15..];
        }
      }
    }
  }

  /** The three formats have lengths 20, 19 and 18, so an identifier has exactly one of them. */
  lemma FormatsDisjoint(id: string)
    ensures !(Matches(TimestampPattern, id) && Matches(TransactionPattern, id))
    ensures !(Matches(TimestampPattern, id) && Matches(ExtraPattern, id))
    ensures !(Matches(TransactionPattern, id) && Matches(ExtraPattern, id))
  {
    TimestampMatches(id);
    TransactionMatches(id);
    ExtraMatches(id);
  }

  /** `isValidId` rejects the empty string and accepts exactly the three shapes. */
  lemma ValidIdShapes(id: string)
    ensures IsValidId(id) <==> TimestampShape(id) || TransactionShape(id) || ExtraShape(id)
    ensures !IsValidId("")
  {
    TimestampMatches(id);
    TransactionMatches(id);
    ExtraMatches(id);
  }

  /** `String.prototype.substring(start, end)` with `start <= end`: both ends are clamped to the length. */
  function Substring(s: string, start: nat, end: nat): (r: string)
    requires start <= end
    ensures |r| == (if end <= |s| then end - start else if start <= |s| then |s| - start else 0)
    ensures forall i :: 0 <= i < |r| ==> r[i] == s[start + i]
  {
    var e := if end <= |s| then end else |s|;
    var b := if start <= e then start else e;
    s[b..e]
  }

  /** The random part after the `0.` of `Math.random().toString(36)`: lower-case base-36 digits. */
  predicate RandomDigits(randomText: string) {
    forall i :: 2 <= i < |randomText| ==> IsLowerAlnum(randomText[i])
  }

  /** `generateId`: the millisecond clock in decimal, `_`, and up to six random base-36 digits. */
  function GenerateId(timestamp: nat, randomText: string): (id: string)
    ensures |NatToString(timestamp)| < |id| <= |NatToString(timestamp)| + 7
    ensures id[..|NatToString(timestamp)|] == NatToString(timestamp)
    ensures id[|NatToString(timestamp)|] == '_'
  {
    NatToString(timestamp) + "_" + Substring(randomText, 2, 8)
  }

  /** A numeral of n with 10^(k-1) <= n < 10^k has exactly k digits. */
  lemma NatToStringDigits(n: nat, k: nat)
    requires 1 <= k && Pow10(k - 1) <= n < Pow10(k)
    ensures |NatToString(n)| == k
  {
    NatToStringLength(n, k);
    var s := NatToString(n);
    DecimalValueBounds(s);
    if |s| < k {
      Pow10Monotone(|s|, k - 1);
    }
  }

  lemma {:induction false} Pow10Monotone(i: nat, j: nat)
    requires i <= j
    ensures Pow10(i) <= Pow10(j)
    decreases j
  {
    if i < j {
      Pow10Monotone(i, j - 1);
    }
  }

  /** With a 13-digit clock and at least six random digits, `generateId` gives a valid identifier. */
  lemma GenerateIdValid(timestamp: nat, randomText: string)
    requires Pow10(12) <= timestamp < Pow10(13)
    requires RandomDigits(randomText) && |randomText| >= 8
    ensures IsValidId(GenerateId(timestamp, randomText))
  {
    var id := GenerateId(timestamp, randomText);
    NatToStringDigits(timestamp, 13);
    assert TimestampShape(id) by {
      assert id[..13] == NatToString(timestamp);
      assert id[14..] == Substring(randomText, 2, 8);
    }
    ValidIdShapes(id);
  }

  /** `Math.random()` may return 0.5, whose base-36 text is `0.i`: the identifier then has a
      one-character random part and `isValidId` rejects it. */
  lemma GenerateIdShortRandom()
    ensures !IsValidId(GenerateId(1703123456789, "0.i"))
  {
    var id := GenerateId(1703123456789, "0.i");
    assert |Substring("0.i", 2, 8)| == 1;
    NatToStringDigits(1703123456789, 13) by {
      Pow10Values();
    }
    assert |id| == 15;
    ValidIdShapes(id);
  }

  lemma Pow10Values()
    ensures Pow10(12) == 1000000000000 && Pow10(13) == 10000000000000
  {
    assert Pow10(1) == 10 && Pow10(2) == 100 && Pow10(3) == 1000 && Pow10(4) == 10000;
    assert Pow10(6) == 1000000 && Pow10(9) == 1000000000;
  }

  /** `padEnd(width, fill)` */
  function PadEnd(s: string, width: nat, fill: char): (r: string)
    ensures |r| == if |s| < width then width else |s|
    ensures r[..|s|] == s
    ensures forall i :: |s| <= i < |r| ==> r[i] == fill
  {
    if |s| < width then s + seq(width - |s|, _ => fill) else s
  }

  /** `generateId` with the random part padded with `0` to six characters. */
  function GenerateIdCorrected(timestamp: nat, randomText: string): (id: string)
    ensures |id| == |NatToString(timestamp)| + 7
    ensures id[..|NatToString(timestamp)|] == NatToString(timestamp)
    ensures id[|NatToString(timestamp)|] == '_'
  {
    NatToString(timestamp) + "_" + PadEnd(Substring(randomText, 2, 8), 6, '0')
  }

  /** Whatever `Math.random()` returns, the padded identifier is valid for a 13-digit clock. */
  lemma GenerateIdCorrectedValid(timestamp: nat, randomText: string)
    requires Pow10(12) <= timestamp < Pow10(13)
    requires RandomDigits(randomText)
    ensures IsValidId(GenerateIdCorrected(timestamp, randomText))
  {
    var id := GenerateIdCorrected(timestamp, randomText);
    NatToStringDigits(timestamp, 13);
    var r := PadEnd(Substring(randomText, 2, 8), 6, '0');
    assert AllLowerAlnum(r) by {
      forall i | 0 <= i < |r| ensures IsLowerAlnum(r[i]) {
        if i < |Substring(randomText, 2, 8)| {
          assert r[i] == r[..|Substring(randomText, 2, 8)|][i];
        }
      }
    }
    assert TimestampShape(id) by {
      assert id[..13] == NatToString(timestamp);
      assert id[14..] == r;
    }
    ValidIdShapes(id);
  }

  /** `toISOString().slice(0, 10).replace(/-/g, '')`: the date part without its dashes. */
  function CompactDate(isoText: string): (date: string)
    ensures |date| <= 10
    ensures forall i :: 0 <= i < |date| ==> date[i] != '-'
  {
    RemoveDashes(Substring(isoText, 0, 10))
  }

  function RemoveDashes(s: string): (r: string)
    ensures |r| <= |s|
    ensures forall i :: 0 <= i < |r| ==> r[i] != '-'
    ensures (forall i :: 0 <= i < |s| ==> s[i] != '-') ==> r == s
  {
    if s == [] then []
    else if s[0] == '-' then RemoveDashes(s[1..])
    else [s[0]] + RemoveDashes(s[1..])
  }

  /** `YYYY-MM-DD`, the date part of an ISO timestamp with a four-digit year. */
  predicate IsoDate(isoText: string) {
    |isoText| >= 10 && AllDigits(isoText[..4]) && isoText[4] == '-' && AllDigits(isoText[5..7])
    && isoText[7] == '-' && AllDigits(isoText[8..10])
  }

  lemma CompactIsoDate(isoText: string)
    requires IsoDate(isoText)
    ensures CompactDate(isoText) == isoText[..4] + isoText[5..7] + isoText[8..10]
  {
    var a, b, c := isoText[..4], isoText[5..7], isoText[8..10];
    assert Substring(isoText, 0, 10) == a + "-" + b + "-" + c;
    assert a + "-" + b + "-" + c == a + ("-" + (b + ("-" + c)));
    NoDashInDigits(a);
    NoDashInDigits(b);
    NoDashInDigits(c);
    RemoveDashesAppend(a, "-" + (b + ("-" + c)));
    RemoveDashesAppend("-", b + ("-" + c));
    RemoveDashesAppend(b, "-" + c);
    RemoveDashesAppend("-", c);
    assert RemoveDashes("-") == [];
  }

  lemma NoDashInDigits(s: string)
    requires AllDigits(s)
    ensures RemoveDashes(s) == s
  {
    assert forall i :: 0 <= i < |s| ==> s[i] != '-' by {
      forall i | 0 <= i < |s| ensures s[i] != '-' {
        assert IsDigit(s[i]);
      }
    }
  }

  lemma {:induction false} RemoveDashesAppend(a: string, b: string)
    ensures RemoveDashes(a + b) == RemoveDashes(a) + RemoveDashes(b)
  {
    if a == [] {
      assert a + b == b;
    } else {
      assert (a + b)[0] == a[0] && (a + b)[1..] == a[1..] + b;
      RemoveDashesAppend(a[1..], b);
    }
  }

  /** `generateExtraIncomeId`: `EXTRA_`, the compact UTC date, `_`, up to three random base-36 digits. */
  function GenerateExtraIncomeId(isoText: string, randomText: string): (id: string)
    ensures 7 <= |id| <= 6 + 10 + 1 + 3
    ensures id[..6] == "EXTRA_"
  {
    "EXTRA_" + CompactDate(isoText) + "_" + Substring(randomText, 2, 5)
  }

  /** With a four-digit-year date and at least three random digits, the identifier is valid. */
  lemma GenerateExtraIncomeIdValid(isoText: string, randomText: string)
    requires IsoDate(isoText)
    requires RandomDigits(randomText) && |randomText| >= 5
    ensures IsValidId(GenerateExtraIncomeId(isoText, randomText))
  {
    var id := GenerateExtraIncomeId(isoText, randomText);
    CompactIsoDate(isoText);
    var date := CompactDate(isoText);
    assert |date| == 8 && AllDigits(date) by {
      assert date == isoText[..4] + isoText[5..7] + isoText[8..10];
      assert forall i :: 0 <= i < 4 ==> date[i] == isoText[..4][i];
      assert forall i :: 4 <= i < 6 ==> date[i] == isoText[5..7][i - 4];
      assert forall i :: 6 <= i < 8 ==> date[i] == isoText[8..10][i - 6];
    }
    assert ExtraShape(id) by {
      assert id[6..14] == date;
      assert id[15..] == Substring(randomText, 2, 5);
    }
    ValidIdShapes(id);
  }

  /** The same short random text `0.i` makes an invalid extra-income identifier, whatever the date. */
  lemma GenerateExtraIncomeIdShortRandom(isoText: string)
    requires IsoDate(isoText)
    ensures !IsValidId(GenerateExtraIncomeId(isoText, "0.i"))
  {
    var id := GenerateExtraIncomeId(isoText, "0.i");
    CompactIsoDate(isoText);
    assert |CompactDate(isoText)| == 8;
    assert |Substring("0.i", 2, 5)| == 1;
    assert |id| == 16;
    ValidIdShapes(id);
  }

  /** `generateExtraIncomeId` with the random part padded with `0` to three characters. */
  function GenerateExtraIncomeIdCorrected(isoText: string, randomText: string): (id: string)
    ensures |id| == 6 + |CompactDate(isoText)| + 1 + 3
    ensures id[..6] == "EXTRA_"
  {
    "EXTRA_" + CompactDate(isoText) + "_" + PadEnd(Substring(randomText, 2, 5), 3, '0')
  }

  lemma GenerateExtraIncomeIdCorrectedValid(isoText: string, randomText: string)
    requires IsoDate(isoText)
    requires RandomDigits(randomText)
    ensures IsValidId(GenerateExtraIncomeIdCorrected(isoText, randomText))
  {
    var id := GenerateExtraIncomeIdCorrected(isoText, randomText);
    CompactIsoDate(isoText);
    var date := CompactDate(isoText);
    assert |date| == 8 && AllDigits(date) by {
      assert date == isoText[..4] + isoText[5..7] + isoText[8..10];
      assert forall i :: 0 <= i < 4 ==> date[i] == isoText[..4][i];
      assert forall i :: 4 <= i < 6 ==> date[i] == isoText[5..7][i - 4];
      assert forall i :: 6 <= i < 8 ==> date[i] == isoText[8..10][i - 6];
    }
    var s := Substring(randomText, 2, 5);
    var r := PadEnd(s, 3, '0');
    assert AllLowerAlnum(r) by {
      forall i | 0 <= i < |r| ensures IsLowerAlnum(r[i]) {
        if i < |s| {
          assert r[i] == r[..|s|][i];
        }
      }
    }
    assert ExtraShape(id) by {
      assert id[6..14] == date;
      assert id[15..] == r;
    }
    ValidIdShapes(id);
  }

  /** `generateTransactionId`: the compact UTC date, `_`, the local time `HHMMSS`, `_`, and up to
      three random base-36 digits. `timeText` is the text of `toTimeString()`. */
  function GenerateTransactionId(isoText: string, timeText: string, randomText: string): (id: string)
    ensures |id| <= 10 + 1 + 8 + 1 + 3
  {
    CompactDate(isoText) + "_" + RemoveColons(Substring(timeText, 0, 8)) + "_" + Substring(randomText, 2, 5)
  }

  function RemoveColons(s: string): (r: string)
    ensures |r| <= |s|
    ensures forall i :: 0 <= i < |r| ==> r[i] != ':'
  {
    if s == [] then []
    else if s[0] == ':' then RemoveColons(s[1..])
    else [s[0]] + RemoveColons(s[1..])
  }

  /** `HH:MM:SS`, the start of `toTimeString()`. */
  predicate TimeOfDay(timeText: string) {
    |timeText| >= 8 && AllDigits(timeText[..2]) && timeText[2] == ':' && AllDigits(timeText[3..5])
    && timeText[5] == ':' && AllDigits(timeText[6..8])
  }

  lemma CompactTime(timeText: string)
    requires TimeOfDay(timeText)
    ensures RemoveColons(Substring(timeText, 0, 8)) == timeText[..2] + timeText[3..5] + timeText[6..8]
  {
    var a, b, c := timeText[..2], timeText[3..5], timeText[6..8];
    assert Substring(timeText, 0, 8) == a + (":" + (b + (":" + c)));
    NoColonInDigits(a);
    NoColonInDigits(b);
    NoColonInDigits(c);
    RemoveColonsAppend(a, ":" + (b + (":" + c)));
    RemoveColonsAppend(":", b + (":" + c));
    RemoveColonsAppend(b, ":" + c);
    RemoveColonsAppend(":", c);
    assert RemoveColons(":") == [];
  }

  lemma NoColonInDigits(s: string)
    requires AllDigits(s)
    ensures RemoveColons(s) == s
    decreases |s|
  {
    if s != [] {
      assert IsDigit(s[0]);
      assert AllDigits(s[1..]) by {
        assert forall i :: 0 <= i < |s[1..]| ==> s[1..][i] == s[i + 1];
      }
      NoColonInDigits(s[1..]);
      assert s == [s[0]] + s[1..];
    }
  }

  lemma {:induction false} RemoveColonsAppend(a: string, b: string)
    ensures RemoveColons(a + b) == RemoveColons(a) + RemoveColons(b)
  {
    if a == [] {
      assert a + b == b;
    } else {
      assert (a + b)[0] == a[0] && (a + b)[1..] == a[1..] + b;
      RemoveColonsAppend(a[1..], b);
    }
  }

  /** With an ISO date, a `HH:MM:SS` time and at least three random digits, the transaction
      identifier is valid. */
  lemma GenerateTransactionIdValid(isoText: string, timeText: string, randomText: string)
    requires IsoDate(isoText) && TimeOfDay(timeText)
    requires RandomDigits(randomText) && |randomText| >= 5
    ensures IsValidId(GenerateTransactionId(isoText, timeText, randomText))
  {
    var id := GenerateTransactionId(isoText, timeText, randomText);
    CompactIsoDate(isoText);
    CompactTime(timeText);
    var date := CompactDate(isoText);
    var time := RemoveColons(Substring(timeText, 0, 8));
    assert |date| == 8 && AllDigits(date) by {
      assert forall i :: 0 <= i < 4 ==> date[i] == isoText[..4][i];
      assert forall i :: 4 <= i < 6 ==> date[i] == isoText[5..7][i - 4];
      assert forall i :: 6 <= i < 8 ==> date[i] == isoText[8..10][i - 6];
    }
    assert |time| == 6 && AllDigits(time) by {
      assert forall i :: 0 <= i < 2 ==> time[i] == timeText[..2][i];
      assert forall i :: 2 <= i < 4 ==> time[i] == timeText[3..5][i - 2];
      assert forall i :: 4 <= i < 6 ==> time[i] == timeText[6..8][i - 4];
    }
    assert TransactionShape(id) by {
      assert id[..8] == date;
      assert id[9..15] == time;
      assert id[16..] == Substring(randomText, 2, 5);
    }
    ValidIdShapes(id);
  }
}
