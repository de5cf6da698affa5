/** What the commands mean: the variable that SET binds, what SEND writes, which line DTR moves, and how EXIT ends. */
module ScriptCommands {
  import opened Wrappers
  import opened ScriptText
  import opened ScriptReader
  import opened ScriptStores
  import opened ScriptExpressions
  import opened ScriptMachine
  import opened ScriptSteps
  import opened ScriptLines
  import opened ScriptJumps
  import opened ScriptRuns
  import Chat

  // ---------- an expression behind a command ----------

  /** An expression as it is written: a first term, and further ones with their gaps. */
  datatype Expression = Expression(first: Syntax, more: seq<Syntax>, gaps: seq<(string, string)>)

  function Text(x: Expression): string
    requires |x.gaps| >= |x.more|
  {
    Written(x.first) + WrittenAll(x.more, x.gaps)
  }

  ghost predicate Usual(x: Expression) {
    && |x.gaps| >= |x.more|
    && Usable(x.first, ("", ""))
    && (forall i :: 0 <= i < |x.more| ==> Usable(x.more[i], x.gaps[i]))
    && NoTempNames([x.first] + x.more)
  }

  /** The texts of its terms, one after the other, or the first error. */
  function Meaning(x: Expression, m: Machine): Result<string> {
    ValueAll([x.first] + x.more, m.vars, m.reader.skip)
  }

  /** The expression stands at `o`, and nothing behind it continues it. */
  ghost predicate Stands(line: string, o: nat, x: Expression) {
    Usual(x) && At(line, o, Text(x)) && Ended(line, o + |Text(x)|)
  }

  /** Numbers of temporary variables are not used up. */
  predicate TempsLeft(m: Machine, v: Verb, x: Expression) {
    Temp(m, v) + 2 * |x.more| + 2 < 0x8000_0000
  }

  /** The value of a command's expression, and what its evaluation leaves. */
  lemma Evaluates(m: Machine, v: Verb, o: nat, x: Expression)
    requires o <= |m.reader.line| && Stands(m.reader.line, o, x) && TempsLeft(m, v, x)
    ensures var (e, value) := Compound(m.reader.line, m.reader.skip, Eval(m.vars, Temp(m, v), o));
            && value == Meaning(x, m) && SameButTemps(m.vars, e.vars)
            && (value.Ok? ==> e.offset == EatSpaces(m.reader.line, o + |Text(x)|))
            && e.temp <= Temp(m, v) + 2 * |x.more| + 2
  {
    hide Compound, EatSpaces, Ended, Lookup, IsTemp, Usable, Written, Value;
    assert "" + Written(x.first) + WrittenAll(x.more, x.gaps) == Text(x);
    CompoundIsConcatenation(m.reader.line, m.reader.skip, Eval(m.vars, Temp(m, v), o), "", x.first, x.more, x.gaps);
  }

  // ---------- SET ----------

  /** `name`, an equals sign and the expression stand behind the word SET. */
  ghost predicate SetStands(line: string, end: nat, gap: string, name: string, gap1: string, gap2: string,
                            x: Expression) {
    && AllBlank(gap) && AllBlank(gap1) && AllBlank(gap2)
    && name != "" && (forall i :: 0 <= i < |name| ==> TokenChar(name[i]))
    && Usual(x) && At(line, end, gap + name + gap1 + "=" + gap2 + Text(x))
    && Ended(line, end + |gap + name + gap1 + "=" + gap2 + Text(x)|)
  }

  lemma SetPlaces(line: string, end: nat, gap: string, name: string, gap1: string, gap2: string, x: Expression)
    requires SetStands(line, end, gap, name, gap1, gap2, x)
    ensures var start := end + |gap|;
            var equals := start + |name| + |gap1|;
            var o := equals + 1 + |gap2|;
            && EatSpaces(line, end) == start && TokenEnd(line, start) == start + |name|
               && line[start..start + |name|] == name
            && EatSpaces(line, start + |name|) == equals < |line| && line[equals] == '='
            && EatSpaces(line, equals + 1) == o <= |line| && Stands(line, o, x)
  {
    hide At, AllBlank, EatSpaces, TokenEnd, TokenChar, Ended, Written, Usable;
    var start := end + |gap|;
    var tail2 := gap2 + Text(x);
    var tail1 := gap1 + ("=" + tail2);
    assert gap + name + gap1 + "=" + gap2 + Text(x) == gap + (name + tail1);
    NameFirst(name);
    GapThen(line, end, gap, name + tail1);
    AtParts(line, start, name, tail1);
    AtText(line, start, name);
    GapThen(line, start + |name|, gap1, "=" + tail2);
    var equals := start + |name| + |gap1|;
    AtParts(line, equals, "=", tail2);
    AtFits(line, equals, "=");
    NameEnds(line, start, name, gap1, tail2);
    FirstOfTerm(x.first) by {
      UsualFirst(x);
    }
    GapThen(line, equals + 1, gap2, Text(x));
    AtFits(line, equals + 1 + |gap2|, Text(x));
    assert end + |gap + name + gap1 + "=" + gap2 + Text(x)| == equals + 1 + |gap2| + |Text(x)|;
  }

  lemma UsualFirst(x: Expression)
    requires Usual(x)
    ensures WellWritten(x.first)
  {
  }

  lemma NameFirst(name: string)
    requires name != "" && (forall i :: 0 <= i < |name| ==> TokenChar(name[i]))
    ensures !Blank(name[0])
  {
  }

  lemma AtText(line: string, o: nat, text: string)
    requires At(line, o, text)
    ensures o + |text| <= |line| && line[o..o + |text|] == text
  {
  }

  /** The name of the variable ends at a blank or at the equals sign. */
  lemma NameEnds(line: string, start: nat, name: string, gap1: string, tail: string)
    requires At(line, start, name) && At(line, start + |name|, gap1 + ("=" + tail)) && AllBlank(gap1)
    requires forall i :: 0 <= i < |name| ==> TokenChar(name[i])
    ensures TokenEnd(line, start) == start + |name|
  {
    var behind := gap1 + ("=" + tail);
    assert line[start + |name|..start + |name| + |behind|][0] == behind[0];
    TokenIs(line, start, name);
  }

  /**
   SET binds its name to the concatenation of its terms and leaves every other variable
   but temporaries as it was; in skip mode it binds nothing. A long name is an error,
   and so is a term that has one.
  */
  lemma SetBinds(m: Machine, end: nat, gap: string, name: string, gap1: string, gap2: string, x: Expression)
    requires end <= |m.reader.line| && SetStands(m.reader.line, end, gap, name, gap1, gap2, x) && TempsLeft(m, Set, x)
    ensures match Meaning(x, m)
            case Ok(text) =>
              if m.reader.skip then
                DoSet(m, end).Go? && SameButTemps(m.vars, DoSet(m, end).value.vars)
              else if |name| > KMaxVarNameLength then DoSet(m, end) == Stop(VariableNameTooLong)
              else
                DoSet(m, end).Go? &&
                var t := DoSet(m, end).value;
                && Lookup(t.vars, name) == Some(text)
                && (forall other :: Fold(other) != Fold(name) && !IsTemp(other) ==>
                   Lookup(t.vars, other) == Lookup(m.vars, other))
                && t == m.(reader := t.reader, vars := t.vars, temps := t.temps)
            case Leave(error) => DoSet(m, end) == Stop(error)
            case Panic => DoSet(m, end) == Panicked
  {
    hide EatSpaces, TokenEnd, Lookup, IsTemp, Compound, Define, SetStands, Stands, Meaning, Text;
    SetPlaces(m.reader.line, end, gap, name, gap1, gap2, x);
    var o := end + |gap| + |name| + |gap1| + 1 + |gap2|;
    Evaluates(m, Set, o, x);
    var (e, value) := Compound(m.reader.line, m.reader.skip, Eval(m.vars, Temp(m, Set), o));
    if value.Ok? {
      DefineThenLookup(e.vars, name, value.value, name);
      forall other | Fold(other) != Fold(name) && !IsTemp(other)
        ensures Lookup(Define(e.vars, name, value.value), other) == Lookup(m.vars, other)
      {
        DefineThenLookup(e.vars, name, value.value, other);
      }
    }
  }

  // ---------- SEND ----------

  /** Behind `p` the character set is named in brackets, or there is no bracket and the name is empty. */
  ghost predicate CharsetStands(line: string, p: nat, charset: string) {
    && p <= |line|
    && var start := EatSpaces(line, p);
       if start < |line| && line[start] == '[' then
         At(line, start + 1, charset + "]") && ']' !in charset && |charset| <= KMaxCharacterTypeLength
       else charset == ""
  }

  lemma CharsetIs(line: string, p: nat, charset: string)
    requires CharsetStands(line, p, charset)
    ensures CharacterType(line, p).Go? && CharacterType(line, p).value.0 == charset
  {
    hide EatSpaces;
    var start := EatSpaces(line, p);
    if start < |line| && line[start] == '[' {
      AtParts(line, start + 1, charset, "]");
      AtFits(line, start + 1 + |charset|, "]");
      AtText(line, start + 1, charset);
      BracketThere(line, start + 1 + |charset|);
      FindFirst(line, start + 1, charset, ']');
    }
  }

  lemma BracketThere(line: string, o: nat)
    requires At(line, o, "]")
    ensures o < |line| && line[o] == ']'
  {
    assert line[o..o + 1][0] == ']';
  }

  /** As much of the bytes as one write takes. */
  function Cut(bytes: seq<Chat.Byte>, size: nat): (r: seq<Chat.Byte>)
    ensures r <= bytes && |r| <= size && (|bytes| <= size ==> r == bytes) && (|bytes| > size ==> |r| == size)
  {
    if |bytes| > size then bytes[..size] else bytes
  }

  /**
   SEND makes exactly one request: to write the converted concatenation of its terms, in the
   character set named behind them or else in the one of CHARMAP, cut to what one write
   takes. In skip mode it makes none, but text that cannot be converted is an error there too.
  */
  lemma SendWrites(m: Machine, env: Env, end: nat, x: Expression, charset: string)
    requires end <= |m.reader.line| && Stands(m.reader.line, EatSpaces(m.reader.line, end), x) && TempsLeft(m, Send, x)
    requires CharsetStands(m.reader.line, EatSpaces(m.reader.line, EatSpaces(m.reader.line, end) + |Text(x)|), charset)
    ensures match Meaning(x, m)
            case Ok(text) =>
              var bytes := env.convert(text, if charset == "" then m.charset else charset);
              if bytes.None? then DoSend(m, env, end) == Stop(CharacterConversionError)
              else
                DoSend(m, env, end).Go? &&
                var t := DoSend(m, env, end).value;
                && SameButTemps(m.vars, t.vars)
                && (if m.reader.skip then t.requests == m.requests && t.writePending == m.writePending
                    else t.requests == m.requests + [Write(Cut(bytes.value, env.txSize))] && t.writePending)
            case Leave(error) => DoSend(m, env, end) == Stop(error)
            case Panic => DoSend(m, env, end) == Panicked
  {
    hide EatSpaces, SameButTemps, Compound, Convert, Usable, At, Ended, Meaning, Text, CharsetStands;
    var o := EatSpaces(m.reader.line, end);
    Evaluates(m, Send, o, x);
    var (e, value) := Compound(m.reader.line, m.reader.skip, Eval(m.vars, Temp(m, Send), o));
    if value.Ok? {
      Converts(Evaluated(m, Send, e), env, value.value, charset);
    }
  }

  /** The text in the character set written behind it, or in that of CHARMAP. */
  lemma Converts(m: Machine, env: Env, text: string, charset: string)
    requires CharsetStands(m.reader.line, m.reader.pos.offset, charset) && m.reader.pos.offset <= |m.reader.line|
    ensures var f := Convert(m, env, text);
            var bytes := env.convert(text, if charset == "" then m.charset else charset);
            if bytes.None? then f == Stop(CharacterConversionError)
            else f.Go? && f.value.1 == bytes.value
                 && f.value.0 == m.(reader := MoveTo(m.reader, f.value.0.reader.pos.offset))
  {
    hide CharsetStands, CharacterType;
    CharsetIs(m.reader.line, m.reader.pos.offset, charset);
  }

  // ---------- DTR ----------

  /** A word stands behind the command, whatever the case of its letters. */
  ghost predicate WordStands(line: string, end: nat, gap: string, word: string) {
    && AllBlank(gap) && word != "" && (forall i :: 0 <= i < |word| ==> TokenChar(word[i]))
    && At(line, end, gap + word)
    && (end + |gap| + |word| < |line| ==> !TokenChar(line[end + |gap| + |word|]))
  }

  lemma WordPlaces(line: string, end: nat, gap: string, word: string)
    requires WordStands(line, end, gap, word)
    ensures var start := end + |gap|;
            && EatSpaces(line, end) == start <= |line| && TokenEnd(line, start) == start + |word| <= |line|
            && line[start..start + |word|] == word
  {
    hide At, AllBlank, EatSpaces, TokenEnd, TokenChar;
    NameFirst(word);
    GapThen(line, end, gap, word);
    AtText(line, end + |gap|, word);
    TokenIs(line, end + |gap|, word);
  }

  /** The words of the command do the opposite of what they say; nothing is pending or looked for afterwards. */
  lemma DtrDoesTheOpposite(m: Machine, end: nat, gap: string, word: string)
    requires end <= |m.reader.line| && WordStands(m.reader.line, end, gap, word)
    ensures var f := DoDtr(m, end);
            var drops, raises := Fold(word) == "raise", Fold(word) == "drop";
            && (f.Go? <==> drops || raises) && (!f.Go? <==> f == Stop(NoDropOrRaise))
            && (f.Go? && m.reader.skip ==> f.value.requests == m.requests)
            && (f.Go? && !m.reader.skip ==>
                  && f.value.requests == m.requests + [if drops then DropDTR else RaiseDTR]
                  && !f.value.readPending && !f.value.writePending && f.value.chat == [])
  {
    hide EatSpaces, TokenEnd, WordStands, Fold;
    WordPlaces(m.reader.line, end, gap, word);
    DtrWords();
  }

  lemma DtrWords()
    ensures Fold("DROP") == "drop" && Fold("RAISE") == "raise"
  {
  }

  // ---------- READ ----------

  /**
   READ asks for the terminal and nothing else; in skip mode it does nothing. A character
   set in brackets behind it is not taken, so that the round after the terminal has
   answered ends the script.
  */
  lemma ReadTakesNoCharset(m: Machine, env: Env, end: nat)
    requires Fits(m.reader) && end <= |m.reader.line|
    requires var start := EatSpaces(m.reader.line, end); start < |m.reader.line| && m.reader.line[start] == '['
    ensures DoRead(m, end).Go?
    ensures var t := DoRead(m, end).value;
            && t.requests == (if m.reader.skip then m.requests else m.requests + [ReadTerminal])
            && (!m.reader.skip ==> t.terminalPending && t.readPending && !Running(t))
            && var answered := t.(terminalPending := false, readPending := false);
               Fits(answered.reader) && Step(answered, env) == Stop(IllegalCommand)
  {
    hide EatSpaces;
    var answered := DoRead(m, end).value.(terminalPending := false, readPending := false);
    var o := EatSpaces(m.reader.line, end);
    ReadyKeeps(answered);
    EatHere(Ready(answered).reader, o);
    BracketIsIllegal(Ready(answered).(reader := MoveTo(Ready(answered).reader, o)), env);
    StepParses(answered, env);
  }

  // ---------- EXIT ----------

  /** A number as it is written in decimal. */
  function Numeral(n: int): string {
    if n < 0 then "-" + Decimal(-n) else Decimal(n)
  }

  lemma {:induction false} DecimalDigits(n: nat)
    ensures forall i :: 0 <= i < |Decimal(n)| ==> '0' <= Decimal(n)[i] <= '9'
  {
    if n >= 10 {
      DecimalDigits(n / 10);
    }
  }

  lemma {:induction false} NumberOfDecimal(n: nat)
    ensures NumberOf(Decimal(n), 10) == n
  {
    var text := Decimal(n);
    if n < 10 {
      assert text[..0] == "";
    } else {
      NumberOfDecimal(n / 10);
      assert text[..|text| - 1] == Decimal(n / 10);
    }
  }

  lemma {:induction false} DigitsToEnd(s: string, o: nat)
    requires o <= |s| && forall i :: o <= i < |s| ==> '0' <= s[i] <= '9'
    ensures DigitsEnd(s, o, 10) == |s|
    decreases |s| - o
  {
    if o < |s| {
      DigitsToEnd(s, o + 1);
    }
  }

  /** Reading a number that has been written gives it back. */
  lemma NumeralReads(n: int)
    requires -0x8000_0000 <= n < 0x8000_0000
    ensures Signed(Numeral(n), 0) == Some((n, |Numeral(n)|))
  {
    hide NumberOf, DigitsEnd, Decimal;
    var size := if n < 0 then -n else n;
    var text := Numeral(n);
    DecimalDigits(size);
    NumberOfDecimal(size);
    var start := if n < 0 then 1 else 0;
    assert text[start..] == Decimal(size);
    DigitsToEnd(text, start);
    assert text[start..|text|] == Decimal(size);
  }

  /** How a script ends whose EXIT is given the number `n`: only zero and negative numbers are codes. */
  function EndOf(n: int): Error {
    if n == 0 then ScriptCompleted else if n < 0 then ExitCode(n) else NumberOutOfRange
  }

  /**
   EXIT with an expression whose text is a number ends the script with that number, zero
   being success and positive ones errors; without an expression it ends it with success;
   an error of the expression becomes that of the script. In skip mode the script goes on.
  */
  lemma ExitEnds(m: Machine, end: nat, x: Expression, n: int)
    requires end <= |m.reader.line| && Stands(m.reader.line, EatSpaces(m.reader.line, end), x) && TempsLeft(m, Exit, x)
    requires -0x8000_0000 <= n < 0x8000_0000
    ensures !m.reader.skip && Meaning(x, m) == Ok(Numeral(n)) ==> DoExit(m, end) == Stop(EndOf(n))
    ensures !m.reader.skip && Meaning(x, m).Leave? && Meaning(x, m).error != NoExpression ==>
            DoExit(m, end) == Stop(Meaning(x, m).error)
    ensures m.reader.skip && !Meaning(x, m).Panic? ==>
              DoExit(m, end).Go? && SameButTemps(m.vars, DoExit(m, end).value.vars)
                && DoExit(m, end).value.requests == m.requests
  {
    hide EatSpaces, Lookup, IsTemp, Compound, Stands, Meaning, Text, Signed, Numeral;
    Evaluates(m, Exit, EatSpaces(m.reader.line, end), x);
    NumeralReads(n);
  }

  lemma ExitAlone(m: Machine, end: nat)
    requires end <= |m.reader.line| && EatSpaces(m.reader.line, end) >= |m.reader.line|
    ensures DoExit(m, end) == if m.reader.skip then
            Go(m.(reader := MoveTo(m.reader, |m.reader.line|), temps := m.temps[Exit := Temp(m, Exit)]))
              else Stop(ScriptCompleted)
  {
  }
}
