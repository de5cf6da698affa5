/** Two scripts that show what the conditions of the theorems are for. */
module ScriptExamples {
  import opened Wrappers
  import opened ScriptText
  import opened ScriptReader
  import opened ScriptStores
  import opened ScriptExpressions
  import opened ScriptMachine
  import opened ScriptSteps
  import opened ScriptRuns
  import opened ScriptLines
  import opened ScriptWaits
  import opened ScriptJumps
  import opened ScriptLoops
  import opened ScriptLabels
  import Port = ScriptPort
  import Chat

  // ---------- reading a command ----------

  /** The next command is `verb`, whose word stands at `o` and ends at `end`. */
  ghost predicate CommandAt(line: string, o: nat, end: nat, verb: Verb) {
    && o < |line| && TokenEnd(line, o) == end < |line| && line[end] != ':'
    && !Blank(line[o]) && line[o] != '!' && line[o] != '}' && VerbAt(line, o) == Some(verb)
  }

  /** The word GOTO with a blank behind it. */
  lemma GotoStands(line: string, o: nat)
    requires o + 4 < |line| && line[o..o + 4] == "GOTO" && line[o + 4] == ' '
    ensures CommandAt(line, o, o + 4, Goto)
  {
    TokenIs(line, o, "GOTO");
    GotoVerb(line, o);
    assert line[o..o + 4][0] == 'G';
  }

  lemma GotoVerb(line: string, o: nat)
    requires o <= |line| && line[o..TokenEnd(line, o)] == "GOTO"
    ensures VerbAt(line, o) == Some(Goto)
  {
    hide TokenEnd;
    var words := Words();
    assert Fold("GOTO") == "goto" && Fold("WAIT") == "wait" && Fold("SEND") == "send" && Fold("READ") == "read"
           && Fold("LOOP") == "loop" && Fold("EXIT") == "exit";
    assert VerbIn(words[5..], line, o) == Some(Goto);
    assert words[4..][1..] == words[5..] && words[3..][1..] == words[4..] && words[2..][1..] == words[3..]
           && words[1..][1..] == words[2..];
    assert VerbIn(words[3..], line, o) == VerbIn(words[5..], line, o);
    assert VerbIn(words[1..], line, o) == VerbIn(words[3..], line, o);
  }

  /** With the command at the next non-blank place, a round outside a loop is the command. */
  lemma CommandRound(m: Machine, env: Env, o: nat, end: nat, verb: Verb)
    requires Fits(m.reader) && EatSpaces(m.reader.line, m.reader.pos.offset) == o
            && CommandAt(m.reader.line, o, end, verb)
    ensures var t := Ready(m);
            var at := t.(reader := MoveTo(t.reader, o));
            && Eaten(at.reader)
            && Step(m, env) == match Command(at, env, verb) case Go(u) => Go(u.(last := Some(verb))) case stop => stop
  {
    hide EatSpaces, TokenEnd, VerbAt, Command, Step, CleanUp, ServiceSkip, Eat;
    ReadyKeeps(m);
    EatHere(Ready(m).reader, o);
    StepParses(m, env);
  }

  /** A GOTO to an unknown label. */
  lemma SearchRound(m: Machine, env: Env, o: nat, end: nat, stop: nat)
    requires Fits(m.reader) && EatSpaces(m.reader.line, m.reader.pos.offset) == o
            && CommandAt(m.reader.line, o, end, Goto)
    requires m.last.None? && !m.reader.skip && !m.reader.toggle
    requires var start := EatSpaces(m.reader.line, end);
             && stop == TokenEnd(m.reader.line, start) && stop - start <= KMaxLabelLength
             && FindLabel(m.labels, m.reader.line[start..stop]).None?
    ensures Step(m, env) == Go(m.(reader := MoveTo(m.reader, stop).(toggle := true),
                                  search := m.reader.line[EatSpaces(m.reader.line, end)..stop], last := Some(Goto)))
  {
    hide EatSpaces, TokenEnd, VerbAt, FindLabel;
    CommandRound(m, env, o, end, Goto);
    assert Ready(m) == m;
  }

  // ---------- a WAIT that is never passed ----------

  /** In skip mode, a WAIT at the start of the next line whose first item starts with nothing. */
  lemma StuckRound(m: Machine, env: Env, n: Reader, o: nat)
    requires Fits(m.reader) && NothingFrom(m.reader.line, m.reader.pos.offset) && Temp(m, Wait) < 0x8000_0000
    requires NextLine(Ready(m).reader) == Some(n) && n.skip && Fits(n) && n.pos.offset == 0
    requires EatSpaces(n.line, 0) == 0 && CommandAt(n.line, 0, 4, Wait)
    requires ParseReal(n.line, 4).Ok? && ParseReal(n.line, 4).value.1 == o && EatSpaces(n.line, o) == o
    requires o + 1 < |n.line| && n.line[o] == '{' && EatSpaces(n.line, o + 1) == o + 1
    requires StartsNothing(n.line[o + 1]) && n.line[o + 1] != '}'
    ensures Step(m, env) == Hung
  {
    hide EatSpaces, TokenEnd, VerbAt, ParseReal, NextLine, NothingFrom, WaitItems;
    var m0 := Ready(m);
    ReadyKeeps(m);
    EatNothing(m0.reader);
    EatHere(n, 0);
    var m1 := m0.(reader := MoveTo(n, 0));
    EatHere(MoveTo(m1.reader, o), o);
    var inside := m1.(reader := MoveTo(n, o + 1));
    assert OpenBrace(m1, o) == Go(inside);
    assert Eaten(inside.reader);
    WaitStuckInSkipMode(inside, env, []);
    assert Command(m1, env, Wait) == Hung;
  }

  function SkippedWait(): string {
    GotoLine() + WaitLine()
  }

  function GotoLine(): string {
    "GOTO x\n"
  }

  function WaitLine(): string {
    "WAIT 1{)}\n"
  }

  lemma SkippedWaitLines()
    ensures |GotoLine()| == 7 && |WaitLine()| == 10 && |SkippedWait()| == 17
    ensures LineLength(SkippedWait(), 0) == 7 && LineLength(SkippedWait(), 7) == 10
    ensures SkippedWait()[..7] == GotoLine() && SkippedWait()[7..17] == WaitLine()
  {
    LineLengthIs(SkippedWait(), 0, 7);
    LineLengthIs(SkippedWait(), 7, 10);
  }

  lemma GotoPlaces()
    ensures var line := GotoLine();
            && EatSpaces(line, 0) == 0 && CommandAt(line, 0, 4, Goto) && EatSpaces(line, 4) == 5
               && TokenEnd(line, 5) == 6
            && NothingFrom(line, 6) && |line| == 7 && line[5..6] == "x"
  {
    assert GotoLine()[0..4] == "GOTO";
    hide CommandAt;
    GotoStands(GotoLine(), 0);
  }

  lemma WaitPlaces()
    ensures var line := WaitLine();
            && EatSpaces(line, 0) == 0 && CommandAt(line, 0, 4, Wait)
            && ParseReal(line, 4).Ok? && ParseReal(line, 4).value.1 == 6
            && |line| == 10 && EatSpaces(line, 6) == 6 && line[6] == '{' && EatSpaces(line, 7) == 7 && line[7] == ')'
  {
    var line := WaitLine();
    assert line[0..4] == "WAIT";
    assert Fold("WAIT") == "wait";
    assert EatSpaces(line, 4) == 5;
    assert DigitsEnd(line, 5, 10) == 6 && DigitsEnd(line, 6, 10) == 6;
    assert line[5..6] == "1" && line[6..6] == "";
    assert "1" + "" == "1";
    assert NumberOf("1", 10) == 1;
  }

  /**
   A script without labels that is not clear: behind the search for a label that does not
   exist, the interpreter never gets past the parenthesis in the list of the WAIT.
  */
  lemma SkippedWaitNeverReturns(env: Env)
    ensures SkippedWait() != ""
    ensures var start := Port.Started(SkippedWait(), []);
            && Sound(start) && Port.PortOk(start) && start.labels == []
            && Port.Run(start, env, [WriteDone(Fine), Round, Round]) == Hung
  {
    hide SkippedWait, GotoLine, WaitLine, Sound, Port.PortOk, EatSpaces, TokenEnd, VerbAt, ParseReal, LineLength,
      NothingFrom, Step;
    SkippedWaitLines();
    GotoPlaces();
    WaitPlaces();
    var start := Port.Started(SkippedWait(), []);
    Port.StartedSound(SkippedWait(), []);
    var m := start.(writePending := false);
    assert m.reader.line == GotoLine();
    SearchRound(m, env, 0, 4, 6);
    var t := m.(reader := MoveTo(m.reader, 6).(toggle := true), search := "x", last := Some(Goto));
    var n := Reader(SkippedWait(), LinePosition(BASE + 1, 7, 10, 0), WaitLine(), true, false);
    assert NextLine(Ready(t).reader) == Some(n);
    StuckRound(t, env, n, 6);
    ThreeMoves(start, env, m, t);
  }

  lemma ThreeMoves(start: Machine, env: Env, m: Machine, t: Machine)
    requires Sound(start) && Port.PortOk(start) && Fits(start.reader) && Fits(m.reader) && Fits(t.reader)
    requires start.writePending && start.finished.None? && start.login == FirstWait
    requires m == start.(writePending := false) && Running(m) && Step(m, env) == Go(t) && Running(t)
            && Step(t, env) == Hung
    ensures Port.Run(start, env, [WriteDone(Fine), Round, Round]) == Hung
  {
    hide Sound, Port.PortOk, Step;
    assert [WriteDone(Fine), Round, Round][1..] == [Round, Round] && [Round, Round][1..] == [Round];
    assert Take(start, env, WriteDone(Fine)) == Go(m);
    assert Take(m, env, Round) == Go(t);
    assert Take(t, env, Round) == Hung;
  }

  // ---------- a label that is taken for another ----------

  /** A label at the next non-blank place, new or recorded before. */
  lemma LabelRoundAt(m: Machine, env: Env, o: nat, end: nat)
    requires Fits(m.reader) && EatSpaces(m.reader.line, m.reader.pos.offset) == o < |m.reader.line|
            && m.reader.line[o] != '!'
    requires TokenEnd(m.reader.line, o) == end < |m.reader.line| && m.reader.line[end] == ':'
            && end - o <= KMaxLabelLength
    requires !Skipping(m)
    ensures var t := Ready(m);
            var name := t.reader.line[o..end];
            && (FindLabel(m.labels, name).None? ==>
                  Step(m, env) == Go(t.(labels := m.labels + [Label(Fold(name), m.reader.pos.(offset := end + 1))],
                                        reader := MoveTo(t.reader, end + 1))))
  {
    hide EatSpaces, TokenEnd, FindLabel, Step, CleanUp, ServiceSkip, Eat;
    ReadyKeeps(m);
    EatHere(Ready(m).reader, o);
    StepParses(m, env);
  }

  /** A label in skip mode that was recorded on another line. */
  lemma SecondLabelRound(m: Machine, env: Env, o: nat, end: nat)
    requires Fits(m.reader) && EatSpaces(m.reader.line, m.reader.pos.offset) == o < |m.reader.line|
            && m.reader.line[o] != '!'
    requires TokenEnd(m.reader.line, o) == end < |m.reader.line| && m.reader.line[end] == ':'
            && end - o <= KMaxLabelLength
    requires var known := FindLabel(m.labels, m.reader.line[o..end]);
            known.Some? && known.value.count != m.reader.pos.count
    ensures Step(m, env) == Stop(AlreadyExists)
  {
    hide EatSpaces, TokenEnd, FindLabel, Step, CleanUp, ServiceSkip, Eat;
    ReadyKeeps(m);
    EatHere(Ready(m).reader, o);
    StepParses(m, env);
  }

  /** With nothing left on the line, the round is that at the next line. */
  lemma NextLineRound(m: Machine, env: Env, n: Reader)
    requires Fits(m.reader) && NothingFrom(m.reader.line, m.reader.pos.offset) && NextLine(Ready(m).reader) == Some(n)
    ensures Fits(n) && n.toggle == false
    ensures var t := Ready(m).(reader := n); t.last.None? ==> Step(m, env) == Step(t, env)
  {
    hide EatSpaces, NextLine, NothingFrom, Eat, Parse;
    ReadyKeeps(m);
    NextAnyOffset(Ready(m).reader, Ready(m).reader.pos.offset);
    NextIs(Ready(m).reader, Ready(m).reader.pos.offset);
    assert MoveTo(Ready(m).reader, Ready(m).reader.pos.offset) == Ready(m).reader;
    EatNothing(Ready(m).reader);
    var t := Ready(m).(reader := n);
    assert Ready(t) == t;
  }

  /** A GOTO, in normal mode to a known label, or in skip mode. */
  lemma GotoRound(m: Machine, env: Env, o: nat, end: nat, stop: nat)
    requires Fits(m.reader) && EatSpaces(m.reader.line, m.reader.pos.offset) == o
            && CommandAt(m.reader.line, o, end, Goto)
    requires m.last.None? && !m.reader.toggle && stop == TokenEnd(m.reader.line, EatSpaces(m.reader.line, end))
    ensures m.reader.skip ==> Step(m, env) == Go(m.(reader := MoveTo(m.reader, stop), last := Some(Goto)))
    ensures var known := FindLabel(m.labels, m.reader.line[EatSpaces(m.reader.line, end)..stop]);
            !m.reader.skip && known.Some? ==>
              Step(m, env) == Go(m.(reader := m.reader.(pos := known.value.(offset := stop)), last := Some(Goto)))
  {
    hide EatSpaces, TokenEnd, VerbAt, FindLabel;
    CommandRound(m, env, o, end, Goto);
    assert Ready(m) == m;
  }

  lemma OneLabel(l: Label, name: string)
    ensures FindLabel([l], name) == if Fold(l.name) == Fold(name) then Some(l.pos) else None
  {
  }

  lemma TwoLabels(k: Label, l: Label, name: string)
    ensures FindLabel([k, l], name)
            == if Fold(k.name) == Fold(name) then Some(k.pos) else if Fold(l.name) == Fold(name) then Some(l.pos)
              else None
  {
    assert [k, l][1..] == [l];
    OneLabel(l, name);
  }

  lemma NoLabel(name: string)
    ensures FindLabel([], name).None?
  {
  }

  lemma Names()
    ensures Fold("t") == "t" && Fold("a") == "a" && Fold("x") == "x"
  {
  }

  /** A label `t` on the first line, and on the second a GOTO back to it, a label `a`, and a GOTO to nowhere. */
  ghost predicate Stray(script: string, first: string, second: string) {
    && |first| == 3 && |second| == 17 && |script| == 20 && script[..3] == first && script[3..20] == second
    && LineLength(script, 0) == 3 && LineLength(script, 3) == 17
    && LabelPlaces(first) && GotoPlacesIn(second) && LabelPlacesIn(second)
  }

  predicate LabelPlaces(line: string)
    requires |line| == 3
  {
    && EatSpaces(line, 0) == 0 && TokenEnd(line, 0) == 1 && line[0] == 't' && line[1] == ':'
    && line[0..1] == "t" && NothingFrom(line, 2)
  }

  ghost predicate GotoPlacesIn(line: string)
    requires |line| == 17
  {
    && EatSpaces(line, 0) == 0 && CommandAt(line, 0, 4, Goto) && EatSpaces(line, 4) == 5 && TokenEnd(line, 5) == 6
    && EatSpaces(line, 9) == 10 && CommandAt(line, 10, 14, Goto) && EatSpaces(line, 14) == 15
       && TokenEnd(line, 15) == 16
    && line[5..6] == "t" && line[15..16] == "x"
  }

  predicate LabelPlacesIn(line: string)
    requires |line| == 17
  {
    && EatSpaces(line, 6) == 7 && TokenEnd(line, 7) == 8 && line[7] == 'a' && line[8] == ':' && line[7..8] == "a"
    && NothingFrom(line, 16)
  }

  const FirstLabel := Label("t", LinePosition(BASE, 0, 3, 2))
  const StrayLabel := Label("a", LinePosition(BASE, 0, 3, 9))

  /** The first two rounds: the label is recorded, and the GOTO goes back to it, with its own line still being read. */
  lemma StrayJump(m: Machine, env: Env, first: string, second: string)
    requires Stray(m.reader.script, first, second)
    requires m.reader == Reader(m.reader.script, LinePosition(BASE, 0, 3, 0), first, false, false) && m.last.None?
            && m.labels == []
    ensures var t1 := m.(labels := [FirstLabel], reader := MoveTo(m.reader, 2));
            var r := Reader(m.reader.script, LinePosition(BASE, 0, 3, 6), second, false, false);
            && Fits(m.reader) && Step(m, env) == Go(t1)
            && Fits(t1.reader) && Step(t1, env) == Go(t1.(reader := r, last := Some(Goto)))
  {
    hide EatSpaces, TokenEnd, VerbAt, NothingFrom, LineLength, Step, FindLabel;
    Names();
    NoLabel("t");
    LabelRoundAt(m, env, 0, 1);
    assert Ready(m) == m && [] + [FirstLabel] == [FirstLabel];
    var t1 := m.(labels := [FirstLabel], reader := MoveTo(m.reader, 2));
    var n := Reader(m.reader.script, LinePosition(BASE + 1, 3, 17, 0), second, false, false);
    assert NextLine(Ready(t1).reader) == Some(n);
    NextLineRound(t1, env, n);
    OneLabel(FirstLabel, "t");
    GotoRound(Ready(t1).(reader := n), env, 0, 4, 6);
  }

  /**
   The rounds behind the jump: the second label is recorded on the first line, and the
   search for a third one starts.
  */
  lemma StrayRecord(m: Machine, env: Env, first: string, second: string)
    requires Stray(m.reader.script, first, second)
    requires m.reader == Reader(m.reader.script, LinePosition(BASE, 0, 3, 6), second, false, false)
    requires m.last == Some(Goto) && m.labels == [FirstLabel]
    ensures var t1 := m.(labels := [FirstLabel, StrayLabel], reader := MoveTo(m.reader, 9), last := None);
            var r := MoveTo(m.reader, 16).(toggle := true);
            && Fits(m.reader) && Step(m, env) == Go(t1)
            && Fits(t1.reader) && Step(t1, env) == Go(t1.(reader := r, search := "x", last := Some(Goto)))
  {
    hide EatSpaces, TokenEnd, VerbAt, NothingFrom, LineLength, Step, FindLabel;
    Names();
    OneLabel(FirstLabel, "a");
    LabelRoundAt(m, env, 7, 8);
    assert Ready(m) == m.(last := None) && [FirstLabel] + [StrayLabel] == [FirstLabel, StrayLabel];
    TwoLabels(FirstLabel, StrayLabel, "x");
    SearchRound(m.(labels := [FirstLabel, StrayLabel], reader := MoveTo(m.reader, 9), last := None), env, 10, 14, 16);
  }

  /** In skip mode the second line is read at its own position, and its label is taken for a second one. */
  lemma StrayReject(m: Machine, env: Env, first: string, second: string)
    requires Stray(m.reader.script, first, second)
    requires m.reader == Reader(m.reader.script, LinePosition(BASE, 0, 3, 16), second, false, true)
    requires m.last == Some(Goto) && m.labels == [FirstLabel, StrayLabel]
    ensures var n := Reader(m.reader.script, LinePosition(BASE + 1, 3, 17, 6), second, true, false);
            var t := m.(reader := n, last := Some(Goto));
            && Fits(m.reader) && Step(m, env) == Go(t) && Fits(t.reader) && Step(t, env) == Stop(AlreadyExists)
  {
    hide EatSpaces, TokenEnd, VerbAt, NothingFrom, LineLength, Step, FindLabel;
    Names();
    var n := Reader(m.reader.script, LinePosition(BASE + 1, 3, 17, 0), second, true, false);
    assert NextLine(Ready(m).reader) == Some(n);
    NextLineRound(m, env, n);
    GotoRound(Ready(m).(reader := n), env, 0, 4, 6);
    TwoLabels(FirstLabel, StrayLabel, "a");
    SecondLabelRound(m.(reader := MoveTo(n, 6), last := Some(Goto)), env, 7, 8);
  }

  // ---------- its run ----------

  /** One more round of a run. */
  lemma OneRound(m: Machine, env: Env, t: Machine, moves: seq<Move>)
    requires Sound(m) && Port.PortOk(m) && Fits(m.reader) && Running(m) && Step(m, env) == Go(t)
    ensures Sound(t) && Port.PortOk(t) && Port.Run(m, env, [Round] + moves) == Port.Run(t, env, moves)
  {
    hide Sound, Port.PortOk, Step, Running;
    SoundProper(m);
    Port.TakeSound(m, env, Round);
    assert ([Round] + moves)[0] == Round && ([Round] + moves)[1..] == moves;
  }

  function Again(n: nat): seq<Move> {
    if n == 0 then [] else [Round] + Again(n - 1)
  }

  lemma AgainTwice(n: nat)
    ensures Again(n + 2) == [Round] + ([Round] + Again(n))
  {
  }

  /** Two more rounds of a run. */
  lemma TwoRounds(m: Machine, env: Env, moves: seq<Move>)
    requires Sound(m) && Port.PortOk(m) && Fits(m.reader) && Running(m) && Step(m, env).Go?
    requires var t := Step(m, env).value; Fits(t.reader) && Running(t) && Step(t, env).Go?
    ensures var u := Step(Step(m, env).value, env).value;
            Sound(u) && Port.PortOk(u) && Port.Run(m, env, [Round] + ([Round] + moves)) == Port.Run(u, env, moves)
  {
    hide Sound, Port.PortOk, Step, Running, Port.Run, Fits;
    OneRound(m, env, Step(m, env).value, [Round] + moves);
    OneRound(Step(m, env).value, env, Step(Step(m, env).value, env).value, moves);
  }

  lemma FirstMove(start: Machine, env: Env, m: Machine, moves: seq<Move>)
    requires Sound(start) && Port.PortOk(start) && Fits(start.reader)
    requires start.writePending && start.finished.None? && start.login == FirstWait
            && m == start.(writePending := false)
    ensures Sound(m) && Port.PortOk(m) && Port.Run(start, env, [WriteDone(Fine)] + moves) == Port.Run(m, env, moves)
  {
    hide Sound, Port.PortOk, Step;
    SoundProper(start);
    Port.TakeSound(start, env, WriteDone(Fine));
    assert Take(start, env, WriteDone(Fine)) == Go(m);
    assert ([WriteDone(Fine)] + moves)[0] == WriteDone(Fine) && ([WriteDone(Fine)] + moves)[1..] == moves;
  }

  lemma LastRound(m: Machine, env: Env, error: Error)
    requires Sound(m) && Port.PortOk(m) && Fits(m.reader) && Running(m) && Step(m, env) == Stop(error)
    ensures Port.Run(m, env, [Round] + Again(0)).Go?
            && Port.Run(m, env, [Round] + Again(0)).value.finished == Some(error)
  {
    hide Sound, Port.PortOk, Step, Running;
    assert [Round] + Again(0) == [Round] && [Round][1..] == [];
    assert Take(m, env, Round) == Go(Finish(m, error));
  }

  /** The rounds of such a script. */
  lemma StrayRun(m: Machine, env: Env, first: string, second: string)
    requires Stray(m.reader.script, first, second) && Sound(m) && Port.PortOk(m) && Running(m)
    requires m.reader == Reader(m.reader.script, LinePosition(BASE, 0, 3, 0), first, false, false) && m.last.None?
            && m.labels == []
    ensures Port.Run(m, env, Again(6)).Go? && Port.Run(m, env, Again(6)).value.finished == Some(AlreadyExists)
  {
    hide Sound, Port.PortOk, Step, Port.Run, Again, Stray;
    StrayJump(m, env, first, second);
    AgainTwice(4);
    TwoRounds(m, env, Again(4));
    var t := Step(Step(m, env).value, env).value;
    StrayRecord(t, env, first, second);
    AgainTwice(2);
    TwoRounds(t, env, Again(2));
    var u := Step(Step(t, env).value, env).value;
    StrayReject(u, env, first, second);
    AgainTwice(0);
    OneRound(u, env, Step(u, env).value, [Round] + Again(0));
    LastRound(Step(u, env).value, env, AlreadyExists);
  }

  function StrayScript(): string {
    FirstLine() + SecondLine()
  }

  function FirstLine(): string {
    "t:\n"
  }

  function SecondLine(): string {
    "GOTO t a: GOTO x\n"
  }

  lemma FirstLinePlaces()
    ensures |FirstLine()| == 3 && LabelPlaces(FirstLine())
  {
  }

  lemma SecondLineLabel()
    ensures |SecondLine()| == 17 && LabelPlacesIn(SecondLine())
  {
  }

  lemma SecondLineGotos()
    ensures |SecondLine()| == 17 && GotoPlacesIn(SecondLine())
  {
    hide SecondLine, CommandAt;
    SecondLineText();
    GotoStands(SecondLine(), 0);
    GotoStands(SecondLine(), 10);
  }

  lemma SecondLineText()
    ensures var line := SecondLine();
            && |line| == 17 && line[0..4] == "GOTO" && line[10..14] == "GOTO" && line[4] == ' ' && line[14] == ' '
            && EatSpaces(line, 0) == 0 && EatSpaces(line, 4) == 5 && TokenEnd(line, 5) == 6
            && EatSpaces(line, 9) == 10 && EatSpaces(line, 14) == 15 && TokenEnd(line, 15) == 16
            && line[5..6] == "t" && line[15..16] == "x"
  {
  }

  lemma StrayScriptLines()
    ensures |StrayScript()| == 20 && |FirstLine()| == 3 && |SecondLine()| == 17
    ensures StrayScript()[..3] == FirstLine() && StrayScript()[3..20] == SecondLine()
    ensures LineLength(StrayScript(), 0) == 3 && LineLength(StrayScript(), 3) == 17
  {
    LineLengthIs(StrayScript(), 0, 3);
    LineLengthIs(StrayScript(), 3, 17);
  }

  /** The second label stands once in the script. */
  lemma StrayLabelOnce(p: nat)
    requires At(StrayScript(), p, "a:")
    ensures p == 10
  {
    assert StrayScript()[p] == 'a';
  }

  /**
   A script whose second label stands behind a GOTO back on the same line: it is recorded
   on the line jumped to, and when it is met on its own line it is rejected as defined
   twice, although it stands in the script once.
  */
  lemma StrayLabelIsRejected(env: Env)
    ensures forall p: nat :: At(StrayScript(), p, "a:") ==> p == 10
    ensures StrayScript() != ""
    ensures var f := Port.Played(StrayScript(), [], env, [WriteDone(Fine)] + Again(6));
            f.Go? && f.value.finished == Some(AlreadyExists)
  {
    hide Sound, Port.PortOk, StrayScript, FirstLine, SecondLine, Port.Run, Again, LabelPlaces, LabelPlacesIn,
      GotoPlacesIn;
    forall p: nat | At(StrayScript(), p, "a:") ensures p == 10 {
      StrayLabelOnce(p);
    }
    StrayScriptLines();
    FirstLinePlaces();
    SecondLineLabel();
    SecondLineGotos();
    var start := Port.Started(StrayScript(), []);
    Port.StartedSound(StrayScript(), []);
    var m := start.(writePending := false);
    FirstMove(start, env, m, Again(6));
    StrayRun(m, env, FirstLine(), SecondLine());
  }
}
