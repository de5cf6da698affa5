/**
 The characters of a login script and its lexical functions. Case folding and
 the letters are those of ASCII.
*/
module ScriptText {
  import opened Wrappers

  datatype Error =
    | ScriptCompleted | NoExpression | MissingQuote | VariableNotFound | InvalidNumber | NumberOutOfRange
    | NoEquals | NoOpenExpression | NestedLoop | LoopCounterOutOfRange | MissingChevron | IllegalCommand
    | NoDropOrRaise | VariableNameTooLong | MissingBracket | CharacterConversionError | LabelNameTooLong
    | AlreadyExists | TimedOut | CommsError | ExitCode(code: int)

  /** A call returns, leaves with an error, or panics the thread. */
  datatype Result<+T> = Ok(value: T) | Leave(error: Error) | Panic

  predicate Blank(c: char) {
    c == ' ' || c == '\t' || c == '\n' || c == '\r'
  }

  function Lower(c: char): char {
    if 'A' <= c <= 'Z' then c - 'A' + 'a' else c
  }

  /** CopyF and the operands of CompareF. */
  function Fold(s: string): (r: string)
    ensures |r| == |s|
    ensures forall i :: 0 <= i < |s| ==> r[i] == Lower(s[i])
  {
    seq(|s|, i requires 0 <= i < |s| => Lower(s[i]))
  }

  lemma FoldTwice(s: string)
    ensures Fold(Fold(s)) == Fold(s)
  {
  }

  /** IsValidChar */
  predicate TokenChar(c: char) {
    'a' <= c <= 'z' || 'A' <= c <= 'Z' || '0' <= c <= '9' || c == '$' || c == '_' || c == '!'
  }

  /** EatSpaces: the next non-blank character, or the end of the line; an offset past the end stays. */
  function EatSpaces(line: string, o: nat): (r: nat)
    ensures o <= r
    ensures o <= |line| ==> r <= |line|
    ensures r < |line| ==> !Blank(line[r])
    ensures forall k :: o <= k < r ==> k < |line| && Blank(line[k])
    decreases |line| - o
  {
    if o >= |line| || !Blank(line[o]) then o else EatSpaces(line, o + 1)
  }

  /** FindTokenEnd */
  function TokenEnd(line: string, o: nat): (r: nat)
    requires o <= |line|
    ensures o <= r <= |line|
    ensures r < |line| ==> !TokenChar(line[r])
    ensures forall k :: o <= k < r ==> TokenChar(line[k])
    decreases |line| - o
  {
    if o == |line| || !TokenChar(line[o]) then o else TokenEnd(line, o + 1)
  }

  /** The first place of `c` from `o` on, or the end of the line. */
  function Find(line: string, o: nat, c: char): (r: nat)
    requires o <= |line|
    ensures o <= r <= |line|
    ensures r < |line| ==> line[r] == c
    ensures forall k :: o <= k < r ==> line[k] != c
    decreases |line| - o
  {
    if o == |line| || line[o] == c then o else Find(line, o + 1, c)
  }

  /** The token at `o` is the command word `word`. */
  predicate IsWord(line: string, o: nat, word: string)
    requires o <= |line|
  {
    Fold(line[o..TokenEnd(line, o)]) == Fold(word)
  }

  // ---------- numbers ----------

  function Digit(c: char): int {
    if '0' <= c <= '9' then c as int - '0' as int
    else if 'a' <= c <= 'f' then c as int - 'a' as int + 10
    else if 'A' <= c <= 'F' then c as int - 'A' as int + 10
    else 99
  }

  /** Where the run of digits from `o` on ends. */
  function DigitsEnd(s: string, o: nat, radix: nat): (r: nat)
    requires o <= |s|
    ensures o <= r <= |s|
    decreases |s| - o
  {
    if o == |s| || Digit(s[o]) >= radix then o else DigitsEnd(s, o + 1, radix)
  }

  function NumberOf(s: string, radix: nat): int {
    if s == [] then 0 else NumberOf(s[..|s| - 1], radix) * radix + Digit(s[|s| - 1])
  }

  /** TLex::Val on an unsigned number: the digits at the front, which must be there and fit into 32 bits. */
  function Unsigned(s: string, radix: nat): Option<int> {
    var end := DigitsEnd(s, 0, radix);
    var value := NumberOf(s[..end], radix);
    if end == 0 || value >= 0x1_0000_0000 then None else Some(value)
  }

  /** TLex::Val on a signed number from `o` on; the value and where it ends. */
  function Signed(line: string, o: nat): (r: Option<(int, nat)>)
    requires o <= |line|
    ensures r.Some? ==> o < r.value.1 <= |line|
  {
    var start := if o < |line| && (line[o] == '-' || line[o] == '+') then o + 1 else o;
    var end := DigitsEnd(line, start, 10);
    var size := NumberOf(line[start..end], 10);
    var value := if start > o && line[o] == '-' then -size else size;
    if end == start || value < -0x8000_0000 || value >= 0x8000_0000 then None else Some((value, end))
  }

  function Scale(value: int, digits: nat): real {
    if digits == 0 then value as real else Scale(value, digits - 1) / 10.0
  }

  /** TLex::Val on a real number from `o` on, without exponents. */
  function Real(line: string, o: nat): (r: Option<(real, nat)>)
    requires o <= |line|
    ensures r.Some? ==> o < r.value.1 <= |line|
  {
    var start := if o < |line| && (line[o] == '-' || line[o] == '+') then o + 1 else o;
    var point := DigitsEnd(line, start, 10);
    var after := if point < |line| && line[point] == '.' then point + 1 else point;
    var end := DigitsEnd(line, after, 10);
    var digits := line[start..point] + line[after..end];
    var size := Scale(NumberOf(digits, 10), end - after);
    if digits == [] then None
    else Some((if start > o && line[o] == '-' then 0.0 - size else size, end))
  }

  const KMaxScriptInteger := 500000

  /** ParseIntegerL: the number and the offset behind it. */
  function ParseInteger(line: string, o: nat): (r: Result<(int, nat)>)
    requires o <= |line|
    ensures r.Ok? ==> o < r.value.1 <= |line| && 0 <= r.value.0 <= KMaxScriptInteger
  {
    var start := EatSpaces(line, o);
    var number := Signed(line, start);
    if number.None? then Leave(InvalidNumber)
    else if number.value.0 < 0 || number.value.0 > KMaxScriptInteger then Leave(NumberOutOfRange)
    else Ok(number.value)
  }

  /** ParseRealL */
  function ParseReal(line: string, o: nat): (r: Result<(real, nat)>)
    requires o <= |line|
    ensures r.Ok? ==> o < r.value.1 <= |line|
  {
    var start := EatSpaces(line, o);
    var number := Real(line, start);
    if number.None? then Leave(InvalidNumber)
    else if number.value.0 < 0.0 || number.value.0 > 500000.0 then Leave(NumberOutOfRange)
    else Ok(number.value)
  }

  /** The radix prefix of a character code and the digits behind it. */
  function Radix(code: string): (nat, string) {
    if |code| > 2 && code[0] == '0' then
      match Lower(code[1])
      case 'x' => (16, code[2..])
      case 'd' => (10, code[2..])
      case 'o' => (8, code[2..])
      case 'b' => (2, code[2..])
      case _ => (10, code)
    else (10, code)
  }

  /**
   The text that a character code stands for: the number is read as zero-terminated
   16-bit text of at most one character.
  */
  function CodeText(code: string): Result<string> {
    var (radix, digits) := Radix(code);
    var value := Unsigned(digits, radix);
    if value.None? then Leave(InvalidNumber)
    else if value.value % 0x1_0000 == 0 then Ok("")
    else if value.value >= 0x1_0000 then Panic
    else Ok([CharOf(value.value)])
  }

  /** A code unit that is no character by itself is shown as the replacement character. */
  function CharOf(unit: int): char {
    if 0 <= unit < 0xD800 || 0xE000 <= unit < 0x1_0000 then unit as char else '\U{FFFD}'
  }

  /** The decimal digits of a number. */
  function Decimal(n: nat): (r: string)
    ensures |r| > 0
  {
    var digit := (n % 10 + '0' as int) as char;
    if n < 10 then [digit] else Decimal(n / 10) + [digit]
  }

  /** A number below ten to the power `k` has at most `k` digits. */
  lemma {:induction false} DecimalLength(n: nat, k: nat)
    requires k >= 1 && n < Power(k)
    ensures |Decimal(n)| <= k
    decreases k
  {
    if n >= 10 {
      if k > 1 {
        DecimalLength(n / 10, k - 1);
      }
    }
  }

  function Power(k: nat): nat {
    if k == 0 then 1 else 10 * Power(k - 1)
  }
}
