/**
 Numbers are read as they are written: character codes in four radixes, the counts of
 LOOP, and the seconds of WAIT with their fractions.
*/
module ScriptNumbers {
  import opened Wrappers
  import opened ScriptText
  import opened ScriptExpressions
  import opened ScriptCommands

  // ---------- digits ----------

  /** The digit that stands for a value below sixteen, in lower case. */
  function DigitOf(value: nat): char
    requires value < 16
  {
    "0123456789abcdef"[value]
  }

  /** A number as it is written in some radix. */
  function Figures(n: nat, radix: nat): (r: string)
    requires 2 <= radix <= 16
    ensures r != ""
    decreases n
  {
    if n < radix then [DigitOf(n)] else Figures(n / radix, radix) + [DigitOf(n % radix)]
  }

  lemma DigitReads(value: nat)
    requires value < 16
    ensures Digit(DigitOf(value)) == value
  {
  }

  lemma OneMore(s: string, c: char, radix: nat)
    ensures NumberOf(s + [c], radix) == NumberOf(s, radix) * radix + Digit(c)
  {
    assert (s + [c])[..|s|] == s;
  }

  lemma OneFigure(c: char, radix: nat)
    ensures NumberOf([c], radix) == Digit(c)
  {
    assert [c][..0] == "";
  }

  lemma Splits(n: nat, radix: nat)
    requires radix > 0
    ensures (n / radix) * radix + n % radix == n && n % radix < radix
  {
  }

  lemma {:induction false} FiguresRead(n: nat, radix: nat)
    requires 2 <= radix <= 16
    ensures NumberOf(Figures(n, radix), radix) == n
    ensures forall i :: 0 <= i < |Figures(n, radix)| ==> Digit(Figures(n, radix)[i]) < radix
    decreases n
  {
    hide NumberOf, Digit, DigitOf;
    if n < radix {
      DigitReads(n);
      OneFigure(DigitOf(n), radix);
    } else {
      Splits(n, radix);
      DigitReads(n % radix);
      FiguresRead(n / radix, radix);
      OneMore(Figures(n / radix, radix), DigitOf(n % radix), radix);
    }
  }

  lemma {:induction false} DigitsRun(s: string, o: nat, end: nat, radix: nat)
    requires o <= end <= |s| && forall i :: o <= i < end ==> Digit(s[i]) < radix
    requires end < |s| ==> Digit(s[end]) >= radix
    ensures DigitsEnd(s, o, radix) == end
    decreases end - o
  {
    if o < end {
      DigitsRun(s, o + 1, end, radix);
    }
  }

  // ---------- character codes ----------

  /** The radix that a prefix stands for, in either case; without one it is ten. */
  ghost predicate Prefixes(prefix: string, radix: nat) {
    || (prefix == "" && radix == 10)
    || ((prefix == "0x" || prefix == "0X") && radix == 16)
    || ((prefix == "0d" || prefix == "0D") && radix == 10)
    || ((prefix == "0o" || prefix == "0O") && radix == 8)
    || ((prefix == "0b" || prefix == "0B") && radix == 2)
  }

  lemma PrefixReads(prefix: string, radix: nat, n: nat)
    requires Prefixes(prefix, radix)
    ensures Radix(prefix + Figures(n, radix)) == (radix, Figures(n, radix))
  {
    var digits := Figures(n, radix);
    var code := prefix + digits;
    hide Figures;
    FiguresRead(n, radix);
    if prefix == "" {
      assert code == digits;
      PlainRadix(code);
    } else {
      assert code[2..] == digits && code[..2] == prefix;
      PrefixedRadix(code, radix);
    }
  }

  lemma PlainRadix(code: string)
    requires forall i :: 0 <= i < |code| ==> Digit(code[i]) < 10
    ensures Radix(code) == (10, code)
  {
    assert |code| > 2 ==> Digit(code[1]) < 10;
  }

  lemma PrefixedRadix(code: string, radix: nat)
    requires |code| > 2 && Prefixes(code[..2], radix)
    ensures Radix(code) == (radix, code[2..])
  {
    var prefix := code[..2];
    assert code[0] == prefix[0] && code[1] == prefix[1];
  }

  /**
   A character code written in any of the four radixes, with or without its prefix, is the
   character with that number; zero is no character, and a number that does not fit into
   one is an error or a panic.
  */
  lemma CodeReads(prefix: string, radix: nat, n: nat)
    requires Prefixes(prefix, radix)
    ensures var code := CodeText(prefix + Figures(n, radix));
            if n >= 0x1_0000_0000 then code == Leave(InvalidNumber)
            else if n % 0x1_0000 == 0 then code == Ok("")
            else if n >= 0x1_0000 then code == Panic
            else code.Ok? && |code.value| == 1
                 && (n < 0xD800 || 0xE000 <= n ==> code.value[0] as int == n)
  {
    hide Radix, Figures, DigitsEnd, NumberOf;
    PrefixReads(prefix, radix, n);
    var digits := Figures(n, radix);
    FiguresRead(n, radix);
    DigitsRun(digits, 0, |digits|, radix);
    assert digits[..|digits|] == digits;
  }

  // ---------- whole numbers ----------

  /** A number stands at `o` behind blanks, and no digit behind it. */
  ghost predicate NumberStands(line: string, o: nat, gap: string, text: string) {
    && AllBlank(gap) && At(line, o, gap + text)
    && (o + |gap| + |text| < |line| ==> Digit(line[o + |gap| + |text|]) >= 10)
  }

  lemma NumberPlace(line: string, o: nat, gap: string, text: string)
    requires NumberStands(line, o, gap, text) && text != "" && !Blank(text[0])
    ensures o <= o + |gap| && EatSpaces(line, o) == o + |gap| && o + |gap| + |text| <= |line|
    ensures line[o + |gap|..o + |gap| + |text|] == text && line[o + |gap|] == text[0]
  {
    hide At, EatSpaces;
    GapThen(line, o, gap, text);
    AtText(line, o + |gap|, text);
    assert line[o + |gap|..o + |gap| + |text|][0] == text[0];
  }

  lemma DecimalPlain(n: nat)
    ensures Decimal(n) != "" && forall i :: 0 <= i < |Decimal(n)| ==> '0' <= Decimal(n)[i] <= '9'
  {
    DecimalDigits(n);
  }

  lemma PlainDigits(s: string)
    requires forall i :: 0 <= i < |s| ==> '0' <= s[i] <= '9'
    ensures forall i :: 0 <= i < |s| ==> 0 <= Digit(s[i]) < 10
    ensures s != "" ==> !Blank(s[0]) && s[0] != '-' && s[0] != '+'
  {
  }

  lemma SignedReads(line: string, o: nat, n: nat)
    requires o + |Decimal(n)| <= |line| && line[o..o + |Decimal(n)|] == Decimal(n)
    requires o + |Decimal(n)| < |line| ==> Digit(line[o + |Decimal(n)|]) >= 10
    ensures Signed(line, o) == if n >= 0x8000_0000 then None else Some((n, o + |Decimal(n)|))
  {
    hide NumberOf, DigitsEnd, Decimal;
    DecimalPlain(n);
    PlainDigits(Decimal(n));
    NumberOfDecimal(n);
    var end := o + |Decimal(n)|;
    assert forall i :: o <= i < end ==> line[i] == line[o..end][i - o];
    DigitsRun(line, o, end, 10);
  }

  /** A count is read as it is written, up to half a million. */
  lemma IntegerReads(line: string, o: nat, gap: string, n: nat)
    requires NumberStands(line, o, gap, Decimal(n))
    ensures o <= |line|
    ensures ParseInteger(line, o) ==
            if n >= 0x8000_0000 then Leave(InvalidNumber)
            else if n > 500000 then Leave(NumberOutOfRange) else Ok((n, o + |gap| + |Decimal(n)|))
  {
    hide Signed, Decimal, EatSpaces;
    DecimalPlain(n);
    PlainDigits(Decimal(n));
    NumberPlace(line, o, gap, Decimal(n));
    SignedReads(line, o + |gap|, n);
    NumberFollows(line, o, gap, Decimal(n));
  }

  lemma NumberFollows(line: string, o: nat, gap: string, text: string)
    requires NumberStands(line, o, gap, text)
    ensures o <= |line|
    ensures o + |gap| + |text| < |line| ==> Digit(line[o + |gap| + |text|]) >= 10
  {
  }

  // ---------- seconds ----------

  function TenTo(k: nat): real {
    if k == 0 then 1.0 else 10.0 * TenTo(k - 1)
  }

  lemma {:induction false} TenToPositive(k: nat)
    ensures TenTo(k) > 0.0
  {
    if k > 0 {
      TenToPositive(k - 1);
    }
  }

  /** The value of the digits behind the point: tenths, hundredths and so on. */
  function Fraction(digits: string): real
    requires forall i :: 0 <= i < |digits| ==> '0' <= digits[i] <= '9'
  {
    if digits == "" then 0.0
    else
      TenToPositive(|digits|);
      Fraction(digits[..|digits| - 1]) + (digits[|digits| - 1] as int - '0' as int) as real / TenTo(|digits|)
  }

  lemma {:induction false} ScaleIs(value: int, k: nat)
    ensures TenTo(k) > 0.0 && Scale(value, k) == value as real / TenTo(k)
  {
    TenToPositive(k);
    if k > 0 {
      ScaleIs(value, k - 1);
      TenToPositive(k - 1);
      Divided(value as real, TenTo(k - 1));
    }
  }

  lemma Divided(a: real, b: real)
    requires b > 0.0
    ensures a / b / 10.0 == a / (10.0 * b)
  {
    var q := a / b;
    assert q * b == a;
    assert (q / 10.0) * (10.0 * b) == a;
  }

  /** The digits before and behind the point, read together and scaled. */
  lemma {:induction false} FractionReads(whole: string, digits: string)
    requires forall i :: 0 <= i < |digits| ==> '0' <= digits[i] <= '9'
    ensures TenTo(|digits|) > 0.0
    ensures NumberOf(whole + digits, 10) as real / TenTo(|digits|) == NumberOf(whole, 10) as real + Fraction(digits)
  {
    TenToPositive(|digits|);
    if digits == "" {
      assert whole + digits == whole;
    } else {
      hide NumberOf;
      var n := |digits| - 1;
      var last := digits[n];
      FractionReads(whole, digits[..n]);
      OneMore(whole + digits[..n], last, 10);
      assert whole + digits == whole + digits[..n] + [last];
      FractionStep(NumberOf(whole + digits[..n], 10), last as int - '0' as int, TenTo(n),
                   NumberOf(whole, 10) as real + Fraction(digits[..n]));
    }
  }

  lemma FractionStep(value: int, digit: int, ten: real, sum: real)
    requires ten > 0.0 && value as real / ten == sum
    ensures (value * 10 + digit) as real / (10.0 * ten) == sum + digit as real / (10.0 * ten)
  {
    assert value as real == sum * ten;
    assert (value * 10 + digit) as real == sum * (10.0 * ten) + digit as real;
    var big := 10.0 * ten;
    assert (sum * big + digit as real) / big == sum + digit as real / big by {
      var q := digit as real / big;
      assert q * big == digit as real;
      assert (sum + q) * big == sum * big + digit as real;
    }
  }

  /** Seconds as they are written: a whole number, or one with a point and digits behind it. */
  function Seconds(n: nat, digits: string): string {
    Decimal(n) + if digits == "" then "" else "." + digits
  }

  lemma {:induction false} DigitsOnward(s: string, o: nat, text: string, behind: nat)
    requires o + |text| == behind <= |s| && s[o..behind] == text
    requires forall i :: 0 <= i < |text| ==> '0' <= text[i] <= '9'
    requires behind < |s| ==> Digit(s[behind]) >= 10
    ensures DigitsEnd(s, o, 10) == behind
  {
    PlainDigits(text);
    assert forall i :: o <= i < behind ==> s[i] == s[o..behind][i - o];
    DigitsRun(s, o, behind, 10);
  }

  lemma RealReads(line: string, o: nat, n: nat, digits: string)
    requires forall i :: 0 <= i < |digits| ==> '0' <= digits[i] <= '9'
    requires o + |Seconds(n, digits)| <= |line| && line[o..o + |Seconds(n, digits)|] == Seconds(n, digits)
    requires var end := o + |Seconds(n, digits)|;
             end < |line| ==> Digit(line[end]) >= 10 && (digits == "" ==> line[end] != '.')
    ensures Real(line, o) == Some((n as real + Fraction(digits), o + |Seconds(n, digits)|))
  {
    hide NumberOf, DigitsEnd, Decimal, Scale, Fraction, TenTo, Seconds;
    DecimalPlain(n);
    PlainDigits(Decimal(n));
    SecondsPlace(line, o, n, digits);
    var end := o + |Seconds(n, digits)|;
    var point := o + |Decimal(n)|;
    assert Digit('.') == 99;
    DigitsOnward(line, o, Decimal(n), point);
    var after := if digits == "" then point else point + 1;
    DigitsOnward(line, after, digits, end);
    ScaledReads(n, digits);
  }

  /** The parts of the text, and their places. */
  lemma SecondsPlace(line: string, o: nat, n: nat, digits: string)
    requires o + |Seconds(n, digits)| <= |line| && line[o..o + |Seconds(n, digits)|] == Seconds(n, digits)
    ensures Decimal(n) != ""
    ensures var point := o + |Decimal(n)|;
            var after := if digits == "" then point else point + 1;
            && o + |Seconds(n, digits)| == after + |digits|
            && point <= after <= |line| && line[o..point] == Decimal(n) && line[o] == Decimal(n)[0]
            && (digits != "" ==> line[point] == '.') && line[after..after + |digits|] == digits
  {
    hide Decimal;
    var text := Seconds(n, digits);
    var end := o + |text|;
    assert text[..|Decimal(n)|] == Decimal(n);
    assert line[o..o + |Decimal(n)|] == line[o..end][..|Decimal(n)|];
    assert line[o] == line[o..end][0];
    if digits != "" {
      assert line[o + |Decimal(n)|] == line[o..end][|Decimal(n)|];
      assert text[|Decimal(n)| + 1..] == digits;
      assert line[o + |Decimal(n)| + 1..end] == line[o..end][|Decimal(n)| + 1..];
    }
  }

  lemma ScaledReads(n: nat, digits: string)
    requires forall i :: 0 <= i < |digits| ==> '0' <= digits[i] <= '9'
    ensures Scale(NumberOf(Decimal(n) + digits, 10), |digits|) == n as real + Fraction(digits)
  {
    hide NumberOf, Decimal, Fraction, TenTo, Scale;
    NumberOfDecimal(n);
    ScaleIs(NumberOf(Decimal(n) + digits, 10), |digits|);
    FractionReads(Decimal(n), digits);
  }

  /** The seconds of a WAIT are read as they are written, up to half a million. */
  lemma SecondsRead(line: string, o: nat, gap: string, n: nat, digits: string)
    requires forall i :: 0 <= i < |digits| ==> '0' <= digits[i] <= '9'
    requires NumberStands(line, o, gap, Seconds(n, digits))
    requires var end := o + |gap| + |Seconds(n, digits)|; end < |line| && digits == "" ==> line[end] != '.'
    ensures o <= |line|
    ensures var value := n as real + Fraction(digits);
            ParseReal(line, o) == if value > 500000.0 then Leave(NumberOutOfRange)
                                  else Ok((value, o + |gap| + |Seconds(n, digits)|))
  {
    hide Real, Decimal, EatSpaces, Fraction;
    DecimalPlain(n);
    PlainDigits(Decimal(n));
    NumberPlace(line, o, gap, Seconds(n, digits));
    NumberFollows(line, o, gap, Seconds(n, digits));
    RealReads(line, o + |gap|, n, digits);
    FractionPositive(digits);
  }

  lemma {:induction false} FractionPositive(digits: string)
    requires forall i :: 0 <= i < |digits| ==> '0' <= digits[i] <= '9'
    ensures Fraction(digits) >= 0.0
  {
    if digits != "" {
      TenToPositive(|digits|);
      FractionPositive(digits[..|digits| - 1]);
      Positive((digits[|digits| - 1] as int - '0' as int) as real, TenTo(|digits|));
    }
  }

  lemma Positive(a: real, b: real)
    requires a >= 0.0 && b > 0.0
    ensures a / b >= 0.0
  {
  }
}
