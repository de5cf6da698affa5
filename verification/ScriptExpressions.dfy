/**
 The expressions of the script language: strings in quotes, character codes in
 chevrons and variables, joined with plus signs. Their values go through
 numbered temporary variables.
*/
module ScriptExpressions {
  import opened Wrappers
  import opened ScriptText
  import opened ScriptReader
  import opened ScriptStores

  /** What evaluation changes: the variables, iTempVarNum of the command, and the offset in the line. */
  datatype Eval = Eval(vars: seq<Variable>, temp: nat, offset: nat)

  function TempName(n: nat): string {
    "$$TMPVAR$$" + Decimal(n)
  }

  /** The name of a temporary variable fits as long as its number does not wrap to a negative one. */
  lemma TempNamesFit(n: nat)
    requires n < 0x8000_0000
    ensures |TempName(n)| <= KMaxVarNameLength
  {
    assert Power(10) == 10 * (10 * (10 * (10 * (10 * Power(5)))));
    assert Power(5) == 10 * (10 * (10 * (10 * (10 * Power(0)))));
    DecimalLength(n, 10);
  }

  ghost predicate IsTemp(name: string) {
    exists n: nat :: Fold(TempName(n)) == Fold(name)
  }

  /** A value kept in the next temporary variable; with a negative number the name would not fit its buffer. */
  function Keep(e: Eval, value: string): Result<Eval> {
    if e.temp >= 0x8000_0000 then Panic
    else Ok(e.(vars := Define(e.vars, TempName(e.temp), value), temp := e.temp + 1))
  }

  /** ParseEnclosedStringL: the text up to the closing character. */
  function Enclosed(line: string, e: Eval, close: char, error: Error): (r: (Eval, Result<string>))
    requires e.offset <= |line|
    ensures e.offset <= r.0.offset <= |line| && (r.1.Ok? ==> e.offset < r.0.offset)
    ensures r.0.vars == e.vars && r.0.temp == e.temp
  {
    var end := Find(line, e.offset, close);
    if end == |line| then (e, Leave(error)) else (e.(offset := end + 1), Ok(line[e.offset..end]))
  }

  /** ParseCharacterL */
  function Character(line: string, e: Eval): (r: (Eval, Result<string>))
    requires e.offset <= |line|
    ensures e.offset <= r.0.offset <= |line| && (r.1.Ok? ==> e.offset < r.0.offset)
  {
    var (e1, code) := Enclosed(line, e, '>', MissingChevron);
    if !code.Ok? then (e1, code)
    else
      var text := CodeText(code.value);
      if !text.Ok? then (e1, text)
      else
        match Keep(e1, text.value)
        case Ok(e2) => (e2, text)
        case Leave(error) => (e1, Leave(error))
        case Panic => (e1, Panic)
  }

  /** ParseVariableL: in skip mode an unknown variable has no content. */
  function VariableValue(line: string, skip: bool, e: Eval): (r: (Eval, Result<string>))
    requires e.offset <= |line|
    ensures e.offset <= r.0.offset <= |line|
    ensures r.0.vars == e.vars && r.0.temp == e.temp
  {
    var end := TokenEnd(line, e.offset);
    var content := Lookup(e.vars, line[e.offset..end]);
    (e.(offset := end), if content.Some? then Ok(content.value) else if skip then Ok("") else Leave(VariableNotFound))
  }

  /** ParseExpressionL: one term. */
  function Term(line: string, skip: bool, e: Eval): (r: (Eval, Result<string>))
    ensures e.offset <= r.0.offset
    ensures e.offset <= |line| ==> r.0.offset <= |line|
    ensures r.1.Ok? ==> r.0.offset <= |line|
  {
    var start := EatSpaces(line, e.offset);
    var at := e.(offset := start);
    if |line| <= start then (at, Leave(NoExpression))
    else if line[start] == '"' then Enclosed(line, at.(offset := start + 1), '"', MissingQuote)
    else if line[start] == '<' then Character(line, at.(offset := start + 1))
    else VariableValue(line, skip, at)
  }

  /** ParseCompoundExpressionL: terms joined with plus signs. */
  function Compound(line: string, skip: bool, e: Eval): (r: (Eval, Result<string>))
    ensures e.offset <= r.0.offset
    ensures e.offset <= |line| ==> r.0.offset <= |line|
    ensures r.1.Ok? ==> r.0.offset <= |line|
  {
    var (e1, value) := Term(line, skip, e);
    if !value.Ok? then (e1, value)
    else
      match Keep(e1, value.value)
      case Ok(e2) => More(line, skip, e2, value.value)
      case Leave(error) => (e1, Leave(error))
      case Panic => (e1, Panic)
  }

  /** The loop of ParseCompoundExpressionL, with the text collected so far. */
  function More(line: string, skip: bool, e: Eval, whole: string): (r: (Eval, Result<string>))
    requires e.offset <= |line|
    ensures e.offset <= r.0.offset <= |line|
    decreases |line| - e.offset
  {
    var o := EatSpaces(line, e.offset);
    if o >= |line| || line[o] != '+' then (e.(offset := o), Ok(whole))
    else
      var (e1, value) := Term(line, skip, e.(offset := o + 1));
      if !value.Ok? then (e1, value)
      else
        match Keep(e1, whole + value.value)
        case Ok(e2) => More(line, skip, e2, whole + value.value)
        case Leave(error) => (e1, Leave(error))
        case Panic => (e1, Panic)
  }

  // ---------- only temporary variables change ----------

  /** The stores agree on every variable that is not temporary. */
  ghost predicate SameButTemps(a: seq<Variable>, b: seq<Variable>) {
    forall name :: !IsTemp(name) ==> Lookup(b, name) == Lookup(a, name)
  }

  lemma KeepTemps(e: Eval, value: string)
    requires Keep(e, value).Ok?
    ensures SameButTemps(e.vars, Keep(e, value).value.vars)
  {
    forall name | !IsTemp(name) ensures Lookup(Keep(e, value).value.vars, name) == Lookup(e.vars, name) {
      DefineThenLookup(e.vars, TempName(e.temp), value, name);
      assert Fold(TempName(e.temp)) != Fold(name);
    }
  }

  lemma TermTemps(line: string, skip: bool, e: Eval)
    ensures SameButTemps(e.vars, Term(line, skip, e).0.vars)
  {
    hide IsTemp, Lookup, Keep, EatSpaces, CodeText, Enclosed, VariableValue;
    var start := EatSpaces(line, e.offset);
    if start < |line| && line[start] == '<' {
      var (e1, code) := Enclosed(line, e.(offset := start + 1), '>', MissingChevron);
      if code.Ok? && CodeText(code.value).Ok? && Keep(e1, CodeText(code.value).value).Ok? {
        KeepTemps(e1, CodeText(code.value).value);
      }
    }
  }

  lemma CompoundTemps(line: string, skip: bool, e: Eval)
    ensures SameButTemps(e.vars, Compound(line, skip, e).0.vars)
  {
    hide IsTemp, Lookup, Term, Keep;
    TermTemps(line, skip, e);
    var (e1, value) := Term(line, skip, e);
    if value.Ok? && Keep(e1, value.value).Ok? {
      KeepTemps(e1, value.value);
      KeepOffset(e1, value.value);
      MoreTemps(line, skip, Keep(e1, value.value).value, value.value);
    }
  }

  lemma KeepOffset(e: Eval, value: string)
    ensures Keep(e, value).Ok? ==> Keep(e, value).value.offset == e.offset
  {
  }

  lemma {:induction false} MoreTemps(line: string, skip: bool, e: Eval, whole: string)
    requires e.offset <= |line|
    ensures SameButTemps(e.vars, More(line, skip, e, whole).0.vars)
    decreases |line| - e.offset
  {
    hide IsTemp, Lookup, Term, Keep;
    var o := EatSpaces(line, e.offset);
    if o < |line| && line[o] == '+' {
      var at := e.(offset := o + 1);
      TermTemps(line, skip, at);
      var (e1, value) := Term(line, skip, at);
      if value.Ok? && Keep(e1, whole + value.value).Ok? {
        KeepTemps(e1, whole + value.value);
        KeepOffset(e1, whole + value.value);
        MoreTemps(line, skip, Keep(e1, whole + value.value).value, whole + value.value);
      }
    }
  }

  // ---------- what an expression means ----------

  /** The syntax of a term, and its value in a store without temporaries. */
  datatype Syntax = Quoted(text: string) | Code(code: string) | Name(name: string)

  predicate WellWritten(t: Syntax) {
    match t
    case Quoted(text) => '"' !in text
    case Code(code) => '>' !in code && CodeText(code).Ok?
    case Name(name) => name != "" && forall i :: 0 <= i < |name| ==> TokenChar(name[i])
  }

  function Written(t: Syntax): string {
    match t
    case Quoted(text) => "\"" + text + "\""
    case Code(code) => "<" + code + ">"
    case Name(name) => name
  }

  function Value(t: Syntax, vars: seq<Variable>, skip: bool): Result<string> {
    match t
    case Quoted(text) => Ok(text)
    case Code(code) => CodeText(code)
    case Name(name) =>
      var content := Lookup(vars, name);
      if content.Some? then Ok(content.value) else if skip then Ok("") else Leave(VariableNotFound)
  }

  /** Terms with plus signs between them, in any spacing: `gaps` are the blanks before each sign and term. */
  function WrittenAll(ts: seq<Syntax>, gaps: seq<(string, string)>): string
    requires |gaps| >= |ts|
  {
    if ts == [] then ""
    else gaps[0].0 + "+" + gaps[0].1 + Written(ts[0]) + WrittenAll(ts[1..], gaps[1..])
  }

  /** The texts of the terms, one after the other, or the first error. */
  function ValueAll(ts: seq<Syntax>, vars: seq<Variable>, skip: bool): Result<string> {
    if ts == [] then Ok("")
    else
      match Value(ts[0], vars, skip)
      case Ok(value) =>
        (match ValueAll(ts[1..], vars, skip)
         case Ok(rest) => Ok(value + rest)
         case Leave(error) => Leave(error)
         case Panic => Panic)
      case Leave(error) => Leave(error)
      case Panic => Panic
  }

  predicate AllBlank(s: string) {
    forall i :: 0 <= i < |s| ==> Blank(s[i])
  }

  /** `text` stands at `o` in the line. */
  ghost predicate At(line: string, o: nat, text: string) {
    o + |text| <= |line| && line[o..o + |text|] == text
  }

  lemma AtParts(line: string, o: nat, a: string, b: string)
    requires At(line, o, a + b)
    ensures At(line, o, a) && At(line, o + |a|, b)
    ensures a != "" ==> line[o] == a[0]
  {
    assert line[o..o + |a|] == (a + b)[..|a|];
    assert line[o + |a|..o + |a| + |b|] == (a + b)[|a|..];
  }

  lemma {:induction false} EatGap(line: string, o: nat, gap: string)
    requires At(line, o, gap) && AllBlank(gap)
    requires o + |gap| < |line| ==> !Blank(line[o + |gap|])
    ensures EatSpaces(line, o) == o + |gap|
    decreases |gap|
  {
    if gap != "" {
      assert gap == gap[..1] + gap[1..];
      AtParts(line, o, gap[..1], gap[1..]);
      EatGap(line, o + 1, gap[1..]);
    }
  }

  lemma {:induction false} FindFirst(line: string, o: nat, text: string, c: char)
    requires At(line, o, text) && c !in text
    requires o + |text| < |line| ==> line[o + |text|] == c
    ensures Find(line, o, c) == o + |text|
    decreases |text|
  {
    if text != "" {
      assert text == text[..1] + text[1..];
      AtParts(line, o, text[..1], text[1..]);
      FindFirst(line, o + 1, text[1..], c);
    }
  }

  lemma {:induction false} TokenIs(line: string, o: nat, name: string)
    requires At(line, o, name)
    requires forall i :: 0 <= i < |name| ==> TokenChar(name[i])
    requires o + |name| < |line| ==> !TokenChar(line[o + |name|])
    ensures TokenEnd(line, o) == o + |name|
    decreases |name|
  {
    if name != "" {
      assert name == name[..1] + name[1..];
      AtParts(line, o, name[..1], name[1..]);
      TokenIs(line, o + 1, name[1..]);
    }
  }

  /** A text in delimiters is found whole. */
  lemma EnclosedValue(line: string, e: Eval, text: string, close: char, error: Error)
    requires close !in text
    requires At(line, e.offset, text + [close])
    ensures Enclosed(line, e, close, error) == (e.(offset := e.offset + |text| + 1), Ok(text))
  {
    AtParts(line, e.offset, text, [close]);
    assert [close] + "" == [close];
    AtParts(line, e.offset + |text|, [close], "");
    FindFirst(line, e.offset, text, close);
  }

  /** Which kind of term it is shows in its first character. */
  lemma TermIs(line: string, skip: bool, e: Eval)
    requires EatSpaces(line, e.offset) < |line|
    ensures var start := EatSpaces(line, e.offset);
            Term(line, skip, e) == if line[start] == '"' then Enclosed(line, e.(offset := start + 1), '"', MissingQuote)
                                   else if line[start] == '<' then Character(line, e.(offset := start + 1))
                                   else VariableValue(line, skip, e.(offset := start))
  {
    hide EatSpaces, Enclosed, Character, VariableValue;
  }

  lemma QuotedTerm(line: string, skip: bool, e: Eval, text: string)
    requires At(line, EatSpaces(line, e.offset), Written(Quoted(text))) && '"' !in text
    ensures Term(line, skip, e) == (e.(offset := EatSpaces(line, e.offset) + |text| + 2), Ok(text))
  {
    hide EatSpaces, Enclosed, At, Term;
    var start := EatSpaces(line, e.offset);
    assert Written(Quoted(text)) == "\"" + (text + "\"");
    AtParts(line, start, "\"", text + "\"");
    AtFits(line, start + 1, text + "\"");
    TermIs(line, skip, e);
    EnclosedValue(line, e.(offset := start + 1), text, '"', MissingQuote);
  }

  lemma AtFits(line: string, o: nat, text: string)
    requires At(line, o, text)
    ensures o + |text| <= |line|
  {
  }

  lemma CharacterValue(line: string, e: Eval, code: string)
    requires e.offset <= |line| && CodeText(code).Ok? && e.temp < 0x8000_0000
    requires Enclosed(line, e, '>', MissingChevron) == (e.(offset := e.offset + |code| + 1), Ok(code))
    ensures var (e1, value) := Character(line, e);
            && value == CodeText(code) && e1.offset == e.offset + |code| + 1 && e1.temp == e.temp + 1
  {
    hide Enclosed, CodeText, Define, TempName;
  }

  lemma CodeTerm(line: string, skip: bool, e: Eval, code: string)
    requires At(line, EatSpaces(line, e.offset), Written(Code(code))) && '>' !in code
    requires CodeText(code).Ok? && e.temp < 0x8000_0000
    ensures var (e1, value) := Term(line, skip, e);
            && value == CodeText(code) && e1.offset == EatSpaces(line, e.offset) + |code| + 2 && e1.temp == e.temp + 1
  {
    hide EatSpaces, Enclosed, CodeText, At, Term, Character;
    var start := EatSpaces(line, e.offset);
    assert Written(Code(code)) == "<" + (code + ">");
    AtParts(line, start, "<", code + ">");
    AtFits(line, start + 1, code + ">");
    TermIs(line, skip, e);
    var at := e.(offset := start + 1);
    EnclosedValue(line, at, code, '>', MissingChevron);
    CharacterValue(line, at, code);
  }

  lemma NameValue(line: string, skip: bool, e: Eval, name: string)
    requires At(line, e.offset, name) && TokenEnd(line, e.offset) == e.offset + |name|
    ensures VariableValue(line, skip, e) == (e.(offset := e.offset + |name|), Value(Name(name), e.vars, skip))
  {
    hide TokenEnd, Lookup;
  }

  lemma NameTerm(line: string, skip: bool, e: Eval, name: string)
    requires At(line, EatSpaces(line, e.offset), name) && WellWritten(Name(name))
    requires var end := EatSpaces(line, e.offset) + |name|; end < |line| ==> !TokenChar(line[end])
    ensures Term(line, skip, e) == (e.(offset := EatSpaces(line, e.offset) + |name|), Value(Name(name), e.vars, skip))
  {
    hide EatSpaces, TokenChar, At, Term, VariableValue, TokenEnd, Value;
    var start := EatSpaces(line, e.offset);
    TokenIs(line, start, name);
    AtFits(line, start, name);
    assert name[..1] + name[1..] == name;
    AtParts(line, start, name[..1], name[1..]);
    NoDelimiter(line[start]);
    TermIs(line, skip, e);
    NameValue(line, skip, e.(offset := start), name);
  }

  lemma NoDelimiter(c: char)
    requires TokenChar(c)
    ensures c != '"' && c != '<' && c != '+' && !Blank(c)
  {
  }

  /** A term written at the next non-blank place of a line, with no token character behind it, has its value. */
  lemma TermValue(line: string, skip: bool, e: Eval, t: Syntax, vars: seq<Variable>)
    requires WellWritten(t) && !(t.Name? && IsTemp(t.name)) && e.temp < 0x8000_0000
    requires SameButTemps(vars, e.vars)
    requires var start := EatSpaces(line, e.offset);
             At(line, start, Written(t)) && (start + |Written(t)| < |line| ==> !TokenChar(line[start + |Written(t)|]))
    ensures var (e1, value) := Term(line, skip, e);
            && value == Value(t, vars, skip)
            && (value.Ok? ==> e1.offset == EatSpaces(line, e.offset) + |Written(t)|)
            && e.temp <= e1.temp <= e.temp + 1
  {
    hide IsTemp, EatSpaces, CodeText, Term, At, Lookup;
    match t
    case Quoted(text) => QuotedTerm(line, skip, e, text);
    case Code(code) => CodeTerm(line, skip, e, code);
    case Name(name) => NameTerm(line, skip, e, name);
  }

  predicate Usable(t: Syntax, gap: (string, string)) {
    WellWritten(t) && AllBlank(gap.0) && AllBlank(gap.1)
  }

  ghost predicate NoTempNames(ts: seq<Syntax>) {
    forall i :: 0 <= i < |ts| && ts[i].Name? ==> !IsTemp(ts[i].name)
  }

  /** Nothing behind `end` continues the expression. */
  predicate Ended(line: string, end: nat) {
    && (end < |line| ==> !TokenChar(line[end]))
    && (EatSpaces(line, end) < |line| ==> line[EatSpaces(line, end)] != '+')
  }

  lemma EndedToken(line: string, end: nat)
    requires Ended(line, end)
    ensures end < |line| ==> !TokenChar(line[end])
  {
  }

  lemma FirstOfTerm(t: Syntax)
    requires WellWritten(t)
    ensures Written(t) != "" && !Blank(Written(t)[0])
  {
    if t.Name? {
      NoDelimiter(t.name[0]);
    }
  }

  /** A sign and a term: where they stand, and that neither runs into what follows. */
  lemma NextTermPlaced(line: string, o: nat, gap: (string, string), t: Syntax, rest: string)
    requires Usable(t, gap) && At(line, o, gap.0 + "+" + gap.1 + Written(t) + rest)
    ensures var sign := o + |gap.0|;
            var start := sign + 1 + |gap.1|;
            && EatSpaces(line, o) == sign && sign < |line| && line[sign] == '+'
            && EatSpaces(line, sign + 1) == start && At(line, start, Written(t))
            && At(line, start + |Written(t)|, rest)
  {
    hide At, AllBlank, EatSpaces, TokenChar, CodeText, Written;
    var sign := o + |gap.0|;
    var tail := gap.1 + Written(t) + rest;
    assert gap.0 + "+" + gap.1 + Written(t) + rest == gap.0 + ("+" + tail);
    GapThen(line, o, gap.0, "+" + tail);
    AtParts(line, sign, "+", tail);
    AtFits(line, sign, "+" + tail);
    UsableBehind(t, gap);
    FirstTermPlaced(line, sign + 1, gap.1, t, rest);
  }

  lemma GapThen(line: string, o: nat, gap: string, tail: string)
    requires AllBlank(gap) && tail != "" && !Blank(tail[0]) && At(line, o, gap + tail)
    ensures EatSpaces(line, o) == o + |gap| && At(line, o + |gap|, tail)
  {
    hide At, AllBlank, EatSpaces;
    AtParts(line, o, gap, tail);
    assert tail == tail[..1] + tail[1..];
    AtParts(line, o + |gap|, tail[..1], tail[1..]);
    EatGap(line, o, gap);
  }

  lemma SignFollows(line: string, o: nat, ts: seq<Syntax>, gaps: seq<(string, string)>)
    requires |gaps| >= |ts| > 0 && Usable(ts[0], gaps[0]) && At(line, o, WrittenAll(ts, gaps))
    ensures o < |line| ==> !TokenChar(line[o])
  {
    var w := WrittenAll(ts, gaps);
    assert w[..1] + w[1..] == w;
    AtParts(line, o, w[..1], w[1..]);
    if gaps[0].0 != "" {
      assert w[0] == gaps[0].0[0];
    }
  }

  /** The loop appends the texts of the terms that follow, in order, or stops at the first error. */
  lemma {:induction false} MoreValue(line: string, skip: bool, e: Eval, whole: string, ts: seq<Syntax>,
                                     gaps: seq<(string, string)>, vars: seq<Variable>)
    requires e.offset <= |line| && |gaps| >= |ts| && e.temp + 2 * |ts| < 0x8000_0000
    requires (forall i :: 0 <= i < |ts| ==> Usable(ts[i], gaps[i])) && NoTempNames(ts)
    requires At(line, e.offset, WrittenAll(ts, gaps)) && Ended(line, e.offset + |WrittenAll(ts, gaps)|)
    requires SameButTemps(vars, e.vars)
    ensures var (e1, value) := More(line, skip, e, whole);
            match ValueAll(ts, vars, skip)
            case Ok(rest) => value == Ok(whole + rest)
              && e1.offset == EatSpaces(line, e.offset + |WrittenAll(ts, gaps)|)
            case Leave(error) => value == Leave(error)
            case Panic => value == Panic
    ensures More(line, skip, e, whole).0.temp <= e.temp + 2 * |ts|
    decreases |ts|
  {
    hide IsTemp, EatSpaces, TokenChar, At, Term, Lookup, Usable, Written, Value, Define, TempName, More, Ended;
    if ts == [] {
      assert whole + "" == whole;
      MoreEnds(line, skip, e, whole);
    } else {
      var t, rest := ts[0], WrittenAll(ts[1..], gaps[1..]);
      NextTermPlaced(line, e.offset, gaps[0], t, rest);
      var sign := e.offset + |gaps[0].0|;
      var end := sign + 1 + |gaps[0].1| + |Written(t)|;
      if ts[1..] != [] {
        SignFollows(line, end, ts[1..], gaps[1..]);
      } else {
        EndedToken(line, end);
      }
      var at := e.(offset := sign + 1);
      UsableIs(t, gaps[0]);
      TermValue(line, skip, at, t, vars);
      TermTemps(line, skip, at);
      MoreGoesOn(line, skip, e, whole);
      var (e1, value) := Term(line, skip, at);
      if value.Ok? {
        KeepTemps(e1, whole + value.value);
        MoreValue(line, skip, Keep(e1, whole + value.value).value, whole + value.value, ts[1..], gaps[1..], vars);
        AppendRest(whole, value.value, ValueAll(ts[1..], vars, skip));
      }
    }
  }

  /** The loop ends where no sign follows. */
  lemma MoreEnds(line: string, skip: bool, e: Eval, whole: string)
    requires e.offset <= |line| && Ended(line, e.offset)
    ensures More(line, skip, e, whole) == (e.(offset := EatSpaces(line, e.offset)), Ok(whole))
  {
    hide EatSpaces, Term, Keep, TokenChar;
  }

  /** One round of the loop. */
  lemma MoreGoesOn(line: string, skip: bool, e: Eval, whole: string)
    requires e.offset <= |line| && e.temp + 2 < 0x8000_0000
    requires EatSpaces(line, e.offset) < |line| && line[EatSpaces(line, e.offset)] == '+'
    ensures var (e1, value) := Term(line, skip, e.(offset := EatSpaces(line, e.offset) + 1));
            && (!value.Ok? ==> More(line, skip, e, whole) == (e1, value))
            && (value.Ok? && Keep(e1, whole + value.value).Ok? ==>
                  var e2 := Keep(e1, whole + value.value).value;
                  e2.offset <= |line| && More(line, skip, e, whole) == More(line, skip, e2, whole + value.value))
  {
    hide EatSpaces, Term, Define, TempName;
  }

  lemma UsableBehind(t: Syntax, gap: (string, string))
    requires Usable(t, gap)
    ensures Usable(t, (gap.1, ""))
  {
  }

  lemma UsableIs(t: Syntax, gap: (string, string))
    requires Usable(t, gap)
    ensures WellWritten(t)
  {
  }

  lemma AppendRest(whole: string, value: string, rest: Result<string>)
    ensures rest.Ok? ==> (whole + value) + rest.value == whole + (value + rest.value)
  {
  }

  /**
   A compound expression of any number of terms, in any spacing, is the concatenation of
   the texts of its terms in a store without temporaries; the offset is left at the first
   unconsumed non-blank. Errors are those of the first term that has one.
  */
  lemma CompoundIsConcatenation(line: string, skip: bool, e: Eval, gap: string, t: Syntax, ts: seq<Syntax>,
                                gaps: seq<(string, string)>)
    requires e.offset <= |line| && |gaps| >= |ts| && e.temp + 2 * |ts| + 2 < 0x8000_0000
    requires Usable(t, (gap, "")) && (forall i :: 0 <= i < |ts| ==> Usable(ts[i], gaps[i])) && NoTempNames([t] + ts)
    requires At(line, e.offset, gap + Written(t) + WrittenAll(ts, gaps))
    requires Ended(line, e.offset + |gap + Written(t) + WrittenAll(ts, gaps)|)
    ensures var (e1, value) := Compound(line, skip, e);
            match ValueAll([t] + ts, e.vars, skip)
            case Ok(text) => value == Ok(text)
              && e1.offset == EatSpaces(line, e.offset + |gap + Written(t) + WrittenAll(ts, gaps)|)
            case Leave(error) => value == Leave(error)
            case Panic => value == Panic
    ensures SameButTemps(e.vars, Compound(line, skip, e).0.vars)
    ensures Compound(line, skip, e).0.temp <= e.temp + 2 * |ts| + 2
  {
    hide IsTemp, EatSpaces, TokenChar, At, Term, Lookup, Usable, Written, Value, More, Define, TempName;
    CompoundTemps(line, skip, e);
    var rest := WrittenAll(ts, gaps);
    FirstTermPlaced(line, e.offset, gap, t, rest);
    var end := e.offset + |gap| + |Written(t)|;
    if ts != [] {
      SignFollows(line, end, ts, gaps);
    }
    assert ([t] + ts)[0] == t && ([t] + ts)[1..] == ts;
    assert forall i :: 0 <= i < |ts| ==> ts[i] == ([t] + ts)[i + 1];
    UsableIs(t, (gap, ""));
    TermValue(line, skip, e, t, e.vars);
    TermTemps(line, skip, e);
    var (e1, value) := Term(line, skip, e);
    if value.Ok? {
      KeepTemps(e1, value.value);
      MoreValue(line, skip, Keep(e1, value.value).value, value.value, ts, gaps, e.vars);
    }
  }

  lemma FirstTermPlaced(line: string, o: nat, gap: string, t: Syntax, rest: string)
    requires Usable(t, (gap, "")) && At(line, o, gap + Written(t) + rest)
    ensures var start := o + |gap|;
            EatSpaces(line, o) == start && At(line, start, Written(t)) && At(line, start + |Written(t)|, rest)
  {
    hide At, AllBlank, EatSpaces, TokenChar, CodeText;
    assert gap + Written(t) + rest == gap + (Written(t) + rest);
    FirstOfTerm(t);
    GapThen(line, o, gap, Written(t) + rest);
    AtParts(line, o + |gap|, Written(t), rest);
  }
}
