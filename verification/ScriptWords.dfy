/**
 What a line of a script does: which command its word stands for, and what LOOP and GOTO
 do with what is written behind them.
*/
module ScriptWords {
  import opened Wrappers
  import opened ScriptText
  import opened ScriptReader
  import opened ScriptStores
  import opened ScriptExpressions
  import opened ScriptMachine
  import opened ScriptSteps
  import opened ScriptRuns
  import opened ScriptLines
  import opened ScriptCommands
  import opened ScriptNumbers
  import Chat

  // ---------- words ----------

  /** Blanks and line ends separate tokens; letters, digits and three signs make them up. */
  lemma CharactersAre(c: char)
    ensures Blank(c) <==> c in " \t\n\r"
    ensures TokenChar(c) <==> Digit(c) < 10 || 'a' <= Lower(c) <= 'z' || c in "$_!"
  {
  }

  /** The command that a folded word stands for. */
  function Named(word: string): Option<Verb> {
    if word == "wait" then Some(Wait)
    else if word == "send" then Some(Send)
    else if word == "read" then Some(Read)
    else if word == "loop" then Some(Loop)
    else if word == "exit" then Some(Exit)
    else if word == "goto" then Some(Goto)
    else if word == "set" then Some(Set)
    else if word == "dtr" then Some(Dtr)
    else if word == "charmap" then Some(Charmap)
    else None
  }

  lemma FoldedWords()
    ensures Fold("WAIT") == "wait" && Fold("SEND") == "send" && Fold("READ") == "read" && Fold("LOOP") == "loop"
    ensures Fold("EXIT") == "exit" && Fold("GOTO") == "goto" && Fold("SET") == "set" && Fold("DTR") == "dtr"
    ensures Fold("CHARMAP") == "charmap"
  {
  }

  lemma NextWord(words: seq<(string, Verb)>, line: string, o: nat)
    requires o <= |line| && words != []
    ensures VerbIn(words, line, o) == if Fold(line[o..TokenEnd(line, o)]) == Fold(words[0].0) then Some(words[0].1)
                                      else VerbIn(words[1..], line, o)
  {
  }

  /** In any case of letters, a word stands for its command and no other word does. */
  lemma WordsMean(line: string, o: nat)
    requires o <= |line|
    ensures VerbAt(line, o) == Named(Fold(line[o..TokenEnd(line, o)]))
  {
    hide Fold, TokenEnd, VerbIn;
    FoldedWords();
    var words := Words();
    NextAt(words, line, o, 0);
    NextAt(words, line, o, 1);
    NextAt(words, line, o, 2);
    NextAt(words, line, o, 3);
    NextAt(words, line, o, 4);
    NextAt(words, line, o, 5);
    NextAt(words, line, o, 6);
    NextAt(words, line, o, 7);
    NextAt(words, line, o, 8);
    NoWord(line, o);
    assert words[9..] == [] && words[0..] == words;
  }

  lemma NextAt(words: seq<(string, Verb)>, line: string, o: nat, k: nat)
    requires o <= |line| && k < |words|
    ensures VerbIn(words[k..], line, o) == if Fold(line[o..TokenEnd(line, o)]) == Fold(words[k].0) then Some(words[k].1)
                                           else VerbIn(words[k + 1..], line, o)
  {
    hide Fold, TokenEnd, VerbIn;
    NextWord(words[k..], line, o);
    assert words[k..][1..] == words[k + 1..];
  }

  lemma NoWord(line: string, o: nat)
    requires o <= |line|
    ensures VerbIn([], line, o).None?
  {
  }

  /**
   A round that finds neither a label nor a closing brace of its loop runs the command
   whose word stands there, and remembers which; another word ends the script.
  */
  lemma RoundRunsCommand(m: Machine, env: Env, r: Reader)
    requires Fits(m.reader) && Fits(Ready(m).reader) && Eat(Ready(m).reader) == Go(r) && Eaten(r)
    requires var end := TokenEnd(r.line, r.pos.offset); end < |r.line| ==> r.line[end] != ':'
    requires !(m.loop && r.line[r.pos.offset] == '}')
    ensures var t := Ready(m).(reader := r);
            match Named(Fold(r.line[r.pos.offset..TokenEnd(r.line, r.pos.offset)]))
            case None => Step(m, env) == Stop(IllegalCommand)
            case Some(verb) =>
              match Command(t, env, verb)
              case Go(u) => Step(m, env) == Go(u.(last := Some(verb)))
              case Stop(error) => Step(m, env) == Stop(error)
              case Panicked => Step(m, env) == Panicked
              case Hung => Step(m, env) == Hung
  {
    hide Command, Fold, TokenEnd, Eat, Named, Ready, Step, Parse, Eaten;
    StepParses(m, env);
    ReadyKeeps(m);
    ParseRunsCommand(Ready(m).(reader := r), env);
  }

  lemma ParseRunsCommand(t: Machine, env: Env)
    requires Eaten(t.reader)
    requires var end := TokenEnd(t.reader.line, t.reader.pos.offset);
             end < |t.reader.line| ==> t.reader.line[end] != ':'
    requires !(t.loop && t.reader.line[t.reader.pos.offset] == '}')
    ensures match Named(Fold(t.reader.line[t.reader.pos.offset..TokenEnd(t.reader.line, t.reader.pos.offset)]))
            case None => Parse(t, env) == Stop(IllegalCommand)
            case Some(verb) =>
              match Command(t, env, verb)
              case Go(u) => Parse(t, env) == Go(u.(last := Some(verb)))
              case Stop(error) => Parse(t, env) == Stop(error)
              case Panicked => Parse(t, env) == Panicked
              case Hung => Parse(t, env) == Hung
  {
    hide Command, Fold, TokenEnd, Words, VerbIn, Named;
    WordsMean(t.reader.line, t.reader.pos.offset);
  }

  // ---------- LOOP ----------

  /**
   LOOP with a number and an opening brace, however many blanks, lines and comments stand
   between them, starts a loop of that many rounds behind the brace, and changes nothing
   else. A loop in a loop is an error, and so are zero and more than ten thousand rounds.
  */
  lemma LoopCounts(m: Machine, end: nat, gap: string, n: nat)
    requires end <= |m.reader.line| && Fits(m.reader) && NumberStands(m.reader.line, end, gap, Decimal(n))
    ensures var behind := MoveTo(m.reader, end + |gap| + |Decimal(n)|);
            var f := DoLoop(m, end);
            && Fits(behind)
            && (if m.loop then f == Stop(NestedLoop)
                else if n >= 0x8000_0000 then f == Stop(InvalidNumber)
                else if n > 500000 then f == Stop(NumberOutOfRange)
                else if n == 0 || n > 10000 then f == Stop(LoopCounterOutOfRange)
                else
                  match Eat(behind)
                  case Go(r) =>
                    if r.line[r.pos.offset] == '{' then
                      f == Go(m.(reader := MoveTo(r, r.pos.offset + 1), loop := true, counter := n,
                                 loopPos := r.pos.(offset := r.pos.offset + 1)))
                    else f == Stop(NoOpenExpression)
                  case Stop(error) => f == Stop(error)
                  case Panicked => false
                  case Hung => false)
  {
    hide ParseInteger, Eat, Decimal, NumberStands;
    IntegerReads(m.reader.line, end, gap, n);
  }

  // ---------- GOTO ----------

  /**
   GOTO with a name: to a known label it goes back, to the place of the label but for the
   offset, which stays behind the name; an unknown one is searched for from here on, if it
   is not too long. In skip mode it does nothing.
  */
  lemma GotoGoes(m: Machine, end: nat, gap: string, name: string)
    requires end <= |m.reader.line| && WordStands(m.reader.line, end, gap, name)
    ensures var behind := end + |gap| + |name|;
            var f := DoGoto(m, end);
            if m.reader.skip then f == Go(m.(reader := MoveTo(m.reader, behind)))
            else
              match FindLabel(m.labels, name)
              case Some(pos) => f == Go(m.(reader := m.reader.(pos := pos.(offset := behind))))
              case None =>
                if |name| > 20 then f == Panicked
                else f == Go(m.(search := name, reader := MoveTo(m.reader, behind).(toggle := true)))
  {
    hide WordStands, FindLabel, EatSpaces, TokenEnd;
    WordPlaces(m.reader.line, end, gap, name);
  }

  // ---------- SET ----------

  /** SET wants an equals sign behind the name: another character is an error, and the end of the line panics. */
  lemma SetNeedsEquals(m: Machine, end: nat, gap: string, name: string)
    requires end <= |m.reader.line| && WordStands(m.reader.line, end, gap, name)
    ensures var o := EatSpaces(m.reader.line, end + |gap| + |name|);
            && (o >= |m.reader.line| ==> DoSet(m, end) == Panicked)
            && (o < |m.reader.line| && m.reader.line[o] != '=' ==> DoSet(m, end) == Stop(NoEquals))
  {
    hide WordStands, EatSpaces, TokenEnd, Evaluate;
    WordPlaces(m.reader.line, end, gap, name);
  }
}
