/** The additive-string calculator: `calculateString` splits its input on '+',
    trims every segment, reads it with JavaScript's `parseInt` and adds the
    numbers up, counting a segment that is not a number as 0. */
module Calculator {
  import opened Optional

  // ---------------------------------------------------------------------------
  // String.prototype.trim
  // ---------------------------------------------------------------------------

  /** The characters JavaScript's `trim` and `parseInt` skip: the WhiteSpace
      code points (tab, vertical tab, form feed, ZWNBSP and every Space_Separator)
      and the LineTerminator code points. */
  predicate IsWhiteSpace(c: char) {
    || c == '\t' || c == '\U{B}' || c == '\U{C}' || c == '\U{FEFF}'
    || c == ' ' || c == '\U{A0}' || c == '\U{1680}' || ('\U{2000}' <= c <= '\U{200A}')
    || c == '\U{202F}' || c == '\U{205F}' || c == '\U{3000}'
    || c == '\n' || c == '\r' || c == '\U{2028}' || c == '\U{2029}'
  }

  /** How many white-space characters `s` starts with. */
  function LeadingSpace(s: string): (n: nat)
    ensures n <= |s|
    ensures forall i :: 0 <= i < n ==> IsWhiteSpace(s[i])
    ensures n < |s| ==> !IsWhiteSpace(s[n])
  {
    if |s| > 0 && IsWhiteSpace(s[0]) then 1 + LeadingSpace(s[1..]) else 0
  }

  /** How many white-space characters `s` ends with. */
  function TrailingSpace(s: string): (n: nat)
    ensures n <= |s|
    ensures forall i :: |s| - n <= i < |s| ==> IsWhiteSpace(s[i])
    ensures n < |s| ==> !IsWhiteSpace(s[|s| - n - 1])
  {
    if |s| > 0 && IsWhiteSpace(s[|s| - 1]) then 1 + TrailingSpace(s[..|s| - 1]) else 0
  }

  /** `s.trim()`: `s` without its leading and trailing white space. */
  function Trim(s: string): string {
    var lead := LeadingSpace(s);
    if lead == |s| then [] else s[lead..|s| - TrailingSpace(s)]
  }

  // ---------------------------------------------------------------------------
  // parseInt(string) with no radix argument
  // ---------------------------------------------------------------------------

  predicate IsDecimalDigit(c: char) {
    '0' <= c <= '9'
  }

  /** A digit of the given radix; `parseInt` without a radix uses 10, or 16
      after a "0x" / "0X" prefix. */
  predicate IsRadixDigit(c: char, radix: nat) {
    if radix == 16 then IsDecimalDigit(c) || 'a' <= c <= 'f' || 'A' <= c <= 'F'
    else IsDecimalDigit(c)
  }

  function DigitValue(c: char): nat {
    if IsDecimalDigit(c) then c as nat - '0' as nat
    else if 'a' <= c <= 'f' then c as nat - 'a' as nat + 10
    else if 'A' <= c <= 'F' then c as nat - 'A' as nat + 10
    else 0
  }

  /** The longest prefix of `s` made of digits of `radix`. */
  function DigitPrefix(s: string, radix: nat): (r: string)
    ensures |r| <= |s| && r == s[..|r|]
    ensures forall i :: 0 <= i < |r| ==> IsRadixDigit(r[i], radix)
    ensures |r| < |s| ==> !IsRadixDigit(s[|r|], radix)
  {
    if |s| > 0 && IsRadixDigit(s[0], radix) then [s[0]] + DigitPrefix(s[1..], radix) else []
  }

  /** The number a string of digits denotes, most significant digit first. */
  function DigitsValue(digits: string, radix: nat): nat {
    if digits == [] then 0
    else DigitsValue(digits[..|digits| - 1], radix) * radix + DigitValue(digits[|digits| - 1])
  }

  /** The magnitude `parseInt` reads once white space and sign are gone: a
      "0x" or "0X" prefix switches to base 16, then the longest run of digits
      counts; no digits at all is NaN, here `None`. */
  function ParseMagnitude(u: string): Option<nat> {
    if |u| >= 2 && u[0] == '0' && (u[1] == 'x' || u[1] == 'X') then
      var digits := DigitPrefix(u[2..], 16);
      if digits == [] then None else Some(DigitsValue(digits, 16))
    else
      var digits := DigitPrefix(u, 10);
      if digits == [] then None else Some(DigitsValue(digits, 10))
  }

  /** `parseInt(s)`: skip leading white space, read an optional sign, then the
      magnitude. A negative zero is just 0 here. */
  function ParseInt(s: string): Option<int> {
    var start := LeadingSpace(s);
    var signed := start < |s| && (s[start] == '-' || s[start] == '+');
    var negative := start < |s| && s[start] == '-';
    match ParseMagnitude(s[if signed then start + 1 else start..])
    case None => None
    case Some(m) => Some(if negative then -(m as int) else m as int)
  }

  // ---------------------------------------------------------------------------
  // str.split('+') and its inverse, pieces.join('+')
  // ---------------------------------------------------------------------------

  /** `pieces.join('+')`. */
  function Join(pieces: seq<string>): string {
    if |pieces| == 0 then []
    else if |pieces| == 1 then pieces[0]
    else pieces[0] + "+" + Join(pieces[1..])
  }

  predicate NoPlus(s: string) {
    forall i :: 0 <= i < |s| ==> s[i] != '+'
  }

  /** The position of the first '+' in `s`. */
  function FirstPlus(s: string): (k: nat)
    requires !NoPlus(s)
    ensures k < |s| && s[k] == '+'
    ensures forall i :: 0 <= i < k ==> s[i] != '+'
  {
    if s[0] == '+' then 0 else 1 + FirstPlus(s[1..])
  }

  /** `s.split('+')`: the text before the first '+', then the split of the
      rest; a string without '+' is a single piece. */
  function Split(s: string): (r: seq<string>)
    ensures |r| >= 1
  {
    if NoPlus(s) then [s]
    else
      var k := FirstPlus(s);
      [s[..k]] + Split(s[k + 1..])
  }

  // ---------------------------------------------------------------------------
  // calculateString
  // ---------------------------------------------------------------------------

  /** One segment's contribution: `parseInt(segment.trim())`, or 0 for NaN. */
  function SegmentValue(segment: string): int {
    match ParseInt(Trim(segment))
    case None => 0
    case Some(n) => n
  }

  /** The `reduce` over the segments: from the left, starting at 0, adding
      `value` of each segment. */
  function SumBy(segments: seq<string>, value: string -> int): int {
    if segments == [] then 0
    else SumBy(segments[..|segments| - 1], value) + value(segments[|segments| - 1])
  }

  /** `calculateString(str)`: 0 for the empty string, otherwise the sum of
      the segments between the '+' signs. */
  function CalculateString(s: string): int {
    if s == [] then 0 else SumBy(Split(s), SegmentValue)
  }

  // ---------------------------------------------------------------------------
  // Properties of split
  // ---------------------------------------------------------------------------

  /** Every piece of a split is free of '+'. */
  lemma {:induction false} SplitPiecesNoPlus(s: string)
    ensures forall i :: 0 <= i < |Split(s)| ==> NoPlus(Split(s)[i])
    decreases |s|
  {
    if !NoPlus(s) {
      var k := FirstPlus(s);
      SplitPiecesNoPlus(s[k + 1..]);
      assert NoPlus(s[..k]);
    }
  }

  /** Joining the pieces of a split with '+' gives back the string. */
  lemma {:induction false} JoinSplit(s: string)
    ensures Join(Split(s)) == s
    decreases |s|
  {
    if !NoPlus(s) {
      var k := FirstPlus(s);
      JoinSplit(s[k + 1..]);
      var rest := Split(s[k + 1..]);
      assert Split(s)[1..] == rest;
      assert s == s[..k] + "+" + s[k + 1..];
    }
  }

  lemma FirstPlusConcat(a: string, b: string)
    ensures !NoPlus(a + "+" + b)
    ensures FirstPlus(a + "+" + b) == if NoPlus(a) then |a| else FirstPlus(a)
  {
    var s := a + "+" + b;
    assert s[|a|] == '+';
    if !NoPlus(a) {
      var j := FirstPlus(a);
      assert s[j] == a[j];
    }
  }

  lemma SplitConcatNoPlus(a: string, b: string)
    requires NoPlus(a)
    ensures Split(a + "+" + b) == [a] + Split(b)
  {
    var s := a + "+" + b;
    FirstPlusConcat(a, b);
    assert s[..|a|] == a;
    assert s[|a| + 1..] == b;
  }

  lemma SplitConcatStep(a: string, b: string)
    requires !NoPlus(a)
    ensures Split(a + "+" + b) == [a[..FirstPlus(a)]] + Split(a[FirstPlus(a) + 1..] + "+" + b)
  {
    var s := a + "+" + b;
    var k := FirstPlus(a);
    FirstPlusConcat(a, b);
    assert s[..k] == a[..k];
    assert s[k + 1..] == a[k + 1..] + "+" + b;
  }

  /** Splitting around a '+' is the concatenation of the two sides' splits. */
  lemma {:induction false} SplitConcat(a: string, b: string)
    ensures Split(a + "+" + b) == Split(a) + Split(b)
    decreases |a|
  {
    if NoPlus(a) {
      SplitConcatNoPlus(a, b);
    } else {
      var k := FirstPlus(a);
      SplitConcatStep(a, b);
      SplitConcat(a[k + 1..], b);
      var first, p, q := a[..k], Split(a[k + 1..]), Split(b);
      assert [first] + (p + q) == ([first] + p) + q;
    }
  }

  /** Split undoes Join: '+'-free pieces come back exactly. */
  lemma {:induction false} SplitJoin(pieces: seq<string>)
    requires |pieces| >= 1
    requires forall i :: 0 <= i < |pieces| ==> NoPlus(pieces[i])
    ensures Split(Join(pieces)) == pieces
  {
    if |pieces| > 1 {
      SplitJoin(pieces[1..]);
      SplitConcatNoPlus(pieces[0], Join(pieces[1..]));
      assert [pieces[0]] + pieces[1..] == pieces;
    }
  }

  // ---------------------------------------------------------------------------
  // Properties of calculateString
  // ---------------------------------------------------------------------------

  lemma {:induction false} SumByAppend(a: seq<string>, b: seq<string>, value: string -> int)
    ensures SumBy(a + b, value) == SumBy(a, value) + SumBy(b, value)
  {
    if b == [] {
      assert a + b == a;
    } else {
      var c := a + b;
      SumByAppend(a, b[..|b| - 1], value);
      assert c[..|c| - 1] == a + b[..|b| - 1];
    }
  }

  /** The empty-string guard agrees with splitting: "" splits into one
      empty segment, which is worth 0. */
  lemma CalculateBySplit(s: string)
    ensures CalculateString(s) == SumBy(Split(s), SegmentValue)
  {
    if s == [] {
      assert Split(s) == [[]];
      assert SumBy([[]], SegmentValue) == SumBy([], SegmentValue) + SegmentValue([]);
    }
  }

  /** The split homomorphism: the value of "a+b" is the value of a plus the
      value of b, for all strings a and b. */
  lemma CalculateConcat(a: string, b: string)
    ensures CalculateString(a + "+" + b) == CalculateString(a) + CalculateString(b)
  {
    CalculateBySplit(a);
    CalculateBySplit(b);
    CalculateBySplit(a + "+" + b);
    SplitConcat(a, b);
    SumByAppend(Split(a), Split(b), SegmentValue);
  }

  /** A trailing '+' does not change the value. */
  lemma TrailingPlusNeutral(a: string)
    ensures CalculateString(a + "+") == CalculateString(a)
  {
    CalculateConcat(a, "");
    assert a + "+" + "" == a + "+";
  }

  predicate NoDecimalDigit(s: string) {
    forall i :: 0 <= i < |s| ==> !IsDecimalDigit(s[i])
  }

  lemma ParseIntWithoutDigits(s: string)
    requires NoDecimalDigit(s)
    ensures ParseInt(s) == None
  {
    var start := LeadingSpace(s);
    var k := if start < |s| && (s[start] == '-' || s[start] == '+') then start + 1 else start;
    if k < |s| {
      assert s[k..][0] == s[k];
    }
  }

  lemma {:induction false} SplitKeepsNoDigit(s: string)
    requires NoDecimalDigit(s)
    ensures forall i :: 0 <= i < |Split(s)| ==> NoDecimalDigit(Split(s)[i])
    decreases |s|
  {
    if !NoPlus(s) {
      var k := FirstPlus(s);
      SplitKeepsNoDigit(s[k + 1..]);
      assert NoDecimalDigit(s[..k]);
    }
  }

  /** A segment without a decimal digit is NaN after trimming, so it counts 0. */
  lemma SegmentWithoutDigits(segment: string)
    requires NoDecimalDigit(segment)
    ensures SegmentValue(segment) == 0
  {
    var t := Trim(segment);
    assert NoDecimalDigit(t) by {
      forall i | 0 <= i < |t| ensures !IsDecimalDigit(t[i]) {
        assert t[i] == segment[LeadingSpace(segment) + i];
      }
    }
    ParseIntWithoutDigits(t);
  }

  lemma {:induction false} SumByZero(segments: seq<string>, value: string -> int)
    requires forall i :: 0 <= i < |segments| ==> value(segments[i]) == 0
    ensures SumBy(segments, value) == 0
  {
    if segments != [] {
      SumByZero(segments[..|segments| - 1], value);
    }
  }

  /** A string without a single decimal digit (the empty string, "+", "++",
      "abc+x") sums to 0: every segment is NaN. */
  lemma NoDigitsSumToZero(s: string)
    requires NoDecimalDigit(s)
    ensures CalculateString(s) == 0
  {
    if s != [] {
      var segments := Split(s);
      SplitKeepsNoDigit(s);
      forall i | 0 <= i < |segments| ensures SegmentValue(segments[i]) == 0 {
        SegmentWithoutDigits(segments[i]);
      }
      SumByZero(segments, SegmentValue);
    }
  }

  /** Whenever every segment is NaN after trimming ("x5", "a1+b2", "-+.5",
      as well as all digit-free text), the string sums to 0. */
  lemma AllSegmentsNaNSumToZero(s: string)
    requires forall i :: 0 <= i < |Split(s)| ==> ParseInt(Trim(Split(s)[i])).None?
    ensures CalculateString(s) == 0
  {
    var segments := Split(s);
    forall i | 0 <= i < |segments| ensures SegmentValue(segments[i]) == 0 {
    }
    CalculateBySplit(s);
    SumByZero(segments, SegmentValue);
  }

  // ---------------------------------------------------------------------------
  // Reference: typing numbers separated by '+' yields their sum
  // ---------------------------------------------------------------------------

  function DecimalDigit(d: nat): char
    requires d < 10
  {
    ('0' as nat + d) as char
  }

  /** The decimal numeral of `n`, without leading zeros. */
  function Decimal(n: nat): string {
    if n < 10 then [DecimalDigit(n)] else Decimal(n / 10) + [DecimalDigit(n % 10)]
  }

  /** The numeral of an integer, with a '-' in front when it is negative. */
  function Show(n: int): string {
    if n < 0 then "-" + Decimal(-n) else Decimal(n)
  }

  lemma {:induction false} DecimalFacts(n: nat)
    ensures |Decimal(n)| >= 1
    ensures forall i :: 0 <= i < |Decimal(n)| ==> IsDecimalDigit(Decimal(n)[i])
    ensures DigitsValue(Decimal(n), 10) == n
    ensures |Decimal(n)| >= 2 ==> Decimal(n)[0] != '0'
  {
    if n >= 10 {
      DecimalFacts(n / 10);
      var s := Decimal(n);
      assert s[..|s| - 1] == Decimal(n / 10);
      assert s[0] == Decimal(n / 10)[0];
      if |Decimal(n / 10)| == 1 {
        assert DigitsValue(Decimal(n / 10), 10) == DigitValue(Decimal(n / 10)[0]);
      }
    }
  }

  lemma ParseMagnitudeOfDecimal(m: nat)
    ensures ParseMagnitude(Decimal(m)) == Some(m)
  {
    DecimalFacts(m);
    var d := Decimal(m);
    assert DigitPrefix(d, 10) == d;
  }

  /** Text starting with a digit has no white space or sign to skip. */
  lemma ParseIntOfDigits(s: string, m: nat)
    requires |s| > 0 && IsDecimalDigit(s[0]) && ParseMagnitude(s) == Some(m)
    ensures ParseInt(s) == Some(m)
  {
    assert LeadingSpace(s) == 0;
    assert s[0..] == s;
  }

  /** A '-' in front of digits negates what they read as. */
  lemma ParseIntOfNegated(u: string, m: nat)
    requires |u| > 0 && IsDecimalDigit(u[0]) && ParseMagnitude(u) == Some(m)
    ensures ParseInt("-" + u) == Some(-(m as int))
  {
    var s := "-" + u;
    assert LeadingSpace(s) == 0;
    assert s[1..] == u;
  }

  lemma ParseShown(n: int)
    ensures ParseInt(Show(n)) == Some(n)
  {
    var m := if n < 0 then -n else n;
    DecimalFacts(m);
    ParseMagnitudeOfDecimal(m);
    if n < 0 {
      ParseIntOfNegated(Decimal(m), m);
    } else {
      ParseIntOfDigits(Decimal(m), m);
    }
  }

  lemma TrimUnpadded(s: string)
    requires s != [] && !IsWhiteSpace(s[0]) && !IsWhiteSpace(s[|s| - 1])
    ensures Trim(s) == s
  {
    assert LeadingSpace(s) == 0;
    assert TrailingSpace(s) == 0;
    assert s[0..|s|] == s;
  }

  lemma ShowEnds(n: int)
    ensures Show(n) != [] && !IsWhiteSpace(Show(n)[0]) && !IsWhiteSpace(Show(n)[|Show(n)| - 1])
  {
    var m := if n < 0 then -n else n;
    DecimalFacts(m);
    var s := Show(n);
    assert IsDecimalDigit(s[0]) || s[0] == '-';
    assert s[|s| - 1] == Decimal(m)[|Decimal(m)| - 1];
  }

  /** `parseInt(segment.trim())` reads back the numeral of any integer. */
  lemma SegmentValueOfShown(n: int)
    ensures SegmentValue(Show(n)) == n
  {
    ShowEnds(n);
    TrimUnpadded(Show(n));
    ParseShown(n);
  }

  function ShowAll(xs: seq<int>): (r: seq<string>)
    ensures |r| == |xs|
  {
    if xs == [] then [] else [Show(xs[0])] + ShowAll(xs[1..])
  }

  function Sum(xs: seq<int>): int {
    if xs == [] then 0 else xs[0] + Sum(xs[1..])
  }

  lemma {:induction false} ShowHasNoPlus(n: int)
    ensures NoPlus(Show(n))
  {
    DecimalFacts(if n < 0 then -n else n);
  }

  /** Typing the integers xs separated by '+' makes the calculator show
      their sum. */
  lemma {:induction false} CalculateShownSum(xs: seq<int>)
    ensures CalculateString(Join(ShowAll(xs))) == Sum(xs)
  {
    if xs != [] {
      var first := Show(xs[0]);
      ShowHasNoPlus(xs[0]);
      CalculateBySplit(first);
      assert SumBy([first], SegmentValue) == SumBy([], SegmentValue) + SegmentValue(first);
      SegmentValueOfShown(xs[0]);
      if |xs| > 1 {
        CalculateShownSum(xs[1..]);
        CalculateConcat(first, Join(ShowAll(xs[1..])));
        assert ShowAll(xs)[1..] == ShowAll(xs[1..]);
      }
    }
  }
}
