/**
 The layout of a script that keeps the text read and the position together: every GOTO
 ends its line, and closing braces stand alone on their lines, left of the places behind
 opening braces and labels.
*/
module ScriptLayout {
  import opened Wrappers
  import opened ScriptText
  import opened ScriptReader
  import opened ScriptStores
  import opened ScriptExpressions
  import opened ScriptMachine
  import opened ScriptSteps
  import opened ScriptRuns
  import opened ScriptLines
  import opened ScriptProgress
  import opened ScriptLoops
  import opened ScriptPort
  import opened ScriptLabels
  import Chat

  // ---------- the layout ----------

  /** The reader is at a place of the script, with the text of its own line. */
  ghost predicate AtPlace(script: string, r: Reader) {
    r.script == script && Synced(r) && Placed(script, r.pos, BASE) && Eaten(r)
  }

  /** Behind the label name of a GOTO nothing is left on the line. */
  ghost predicate GotosEndLines(script: string) {
    forall r: Reader :: AtPlace(script, r) && VerbAt(r.line, r.pos.offset) == Some(Goto) ==>
      NothingFrom(r.line, GotoEnd(r))
  }

  /** Closing braces stand alone, and not to the right of any opening brace or colon. */
  ghost predicate BracesLeft(script: string) {
    forall p: nat, q: nat, opening: string, closing: string, i: nat, j: nat ::
      && LineAt(script, p, opening) && LineAt(script, q, closing)
      && i < |opening| && (opening[i] == '{' || opening[i] == ':')
      && j < |closing| && closing[j] == '}' ==>
        BraceAlone(closing, j) && j <= i
  }

  ghost predicate WellLaidOut(script: string) {
    GotosEndLines(script) && BracesLeft(script)
  }

  /** The offset is that behind a character `c` of some line. */
  ghost predicate PlaceBehind(script: string, offset: nat, c: char) {
    exists p: nat, line: string :: LineAt(script, p, line) && 0 < offset <= |line| && line[offset - 1] == c
  }

  /** The start of a loop is the place behind an opening brace. */
  ghost predicate LoopBraced(m: Machine) {
    m.loop ==> PlaceBehind(m.reader.script, m.loopPos.offset, '{')
  }

  // ---------- loops start behind opening braces ----------

  lemma SetKeepsLoop(m: Machine, end: nat)
    requires Proper(m.reader) && m.reader.pos.offset < end <= |m.reader.line|
    ensures DoSet(m, end).Go? ==> DoSet(m, end).value.loop == m.loop
  {
    hide Evaluate, EatSpaces, TokenEnd, Define, SameButTemps;
    var line := m.reader.line;
    var equals := EatSpaces(line, TokenEnd(line, EatSpaces(line, end)));
    if Evaluate(m, Set, EatSpaces(line, equals + 1)).Go? {
      EvaluateInert(m, Set, EatSpaces(line, equals + 1));
    }
  }

  lemma SendKeepsLoop(m: Machine, env: Env, end: nat)
    requires Proper(m.reader) && m.reader.pos.offset < end <= |m.reader.line|
    ensures DoSend(m, env, end).Go? ==> DoSend(m, env, end).value.loop == m.loop
  {
    hide Evaluate, EatSpaces, TokenEnd, Convert, SameButTemps;
    if Evaluate(m, Send, EatSpaces(m.reader.line, end)).Go? {
      EvaluateInert(m, Send, EatSpaces(m.reader.line, end));
    }
  }

  lemma WaitKeepsLoop(m: Machine, env: Env, end: nat)
    requires Proper(m.reader) && m.reader.pos.offset < end <= |m.reader.line|
    ensures DoWait(m, env, end).Go? ==> DoWait(m, env, end).value.loop == m.loop
  {
    hide OpenBrace, WaitItems, ParseReal, Forward, SameButTemps;
    var line := m.reader.line;
    if ParseReal(line, end).Ok? && OpenBrace(m, ParseReal(line, end).value.1).Go? {
      var t := OpenBrace(m, ParseReal(line, end).value.1).value;
      OpenBraceShape(m, ParseReal(line, end).value.1);
      if WaitItems(t, env, []).Go? {
        WaitItemsShape(t, env, []);
      }
    }
  }

  lemma PlainKeepLoop(m: Machine, end: nat)
    requires end <= |m.reader.line|
    ensures DoGoto(m, end).Go? ==> DoGoto(m, end).value.loop == m.loop
    ensures DoRead(m, end).Go? ==> DoRead(m, end).value.loop == m.loop
    ensures DoDtr(m, end).Go? ==> DoDtr(m, end).value.loop == m.loop
    ensures DoCharmap(m, end).Go? ==> DoCharmap(m, end).value.loop == m.loop
    ensures DoExit(m, end).Go? ==> DoExit(m, end).value.loop == m.loop
  {
    hide Compound, EatSpaces, TokenEnd, FindLabel, IsWord, CharacterType;
  }

  /** LOOP leaves the reader behind its opening brace. */
  lemma LoopBehindBrace(m: Machine, end: nat)
    requires end <= |m.reader.line| && Fits(m.reader) && DoLoop(m, end).Go?
    ensures var r := DoLoop(m, end).value.reader; 0 < r.pos.offset <= |r.line| && r.line[r.pos.offset - 1] == '{'
  {
    hide Eat, ParseInteger;
  }

  /** A command that starts a loop is LOOP. */
  lemma OnlyLoopStarts(m: Machine, env: Env)
    requires Eaten(m.reader) && Proper(m.reader) && Dispatch(m, env).Go? && !m.loop && Dispatch(m, env).value.loop
    ensures var r := Dispatch(m, env).value.reader; 0 < r.pos.offset <= |r.line| && r.line[r.pos.offset - 1] == '{'
  {
    hide DoSet, DoSend, DoWait, DoLoop, DoGoto, DoRead, DoExit, DoDtr, DoCharmap, TokenEnd, VerbIn, Words;
    var o := m.reader.pos.offset;
    VerbWord(Words(), m.reader.line, o) by {
      WordsProper();
    }
    var end := TokenEnd(m.reader.line, o);
    SetKeepsLoop(m, end);
    SendKeepsLoop(m, env, end);
    WaitKeepsLoop(m, env, end);
    PlainKeepLoop(m, end);
    if VerbAt(m.reader.line, o) == Some(Loop) {
      LoopBehindBrace(m, end);
    }
  }

  lemma BraceOfLine(r: Reader, c: char)
    requires Reads(r) && 0 < r.pos.offset <= |r.line| && r.line[r.pos.offset - 1] == c
    ensures PlaceBehind(r.script, r.pos.offset, c)
  {
  }

  /** Every round keeps the start of the loop behind an opening brace. */
  lemma StepLoopBraced(m: Machine, env: Env)
    requires Sound(m) && Proper(m.reader) && Step(m, env).Go? && Reads(m.reader) && LoopBraced(m)
    ensures LoopBraced(Step(m, env).value)
  {
    hide Sound, Eat, Dispatch, Proper, ParseLabel, CheckLoop, JumpsBack, Ready, Reads, Reached, Onward, PlaceBehind,
      Advances;
    StepCases(m, env);
    StepReads(m, env);
    StepScript(m, env);
    ReadyKeeps(m);
    var m1 := Ready(m).(reader := Eat(Ready(m).reader).value);
    EatFlags(Ready(m).reader);
    var t := Step(m, env).value;
    if ParseLabel(m1).value.1 {
      LabelRound(m1);
    } else if CheckLoop(m1).1 {
      LoopRound(m1);
      ClosingKeepsStart(m1);
    } else {
      DispatchLoop(m1, env);
      if t.loop && !m.loop {
        OnlyLoopStarts(m1, env);
        BraceOfLine(t.reader, '{');
      }
    }
  }

  lemma ClosingKeepsStart(m: Machine)
    requires Eaten(m.reader)
    ensures CheckLoop(m).0.loopPos == m.loopPos && (CheckLoop(m).0.loop ==> m.loop)
  {
  }

  lemma DispatchLoop(m: Machine, env: Env)
    requires Eaten(m.reader) && Proper(m.reader) && Dispatch(m, env).Go?
    ensures var t := Dispatch(m, env).value;
            if m.loop then t.loopPos == m.loopPos else t.loop ==> t.loopPos == t.reader.pos
  {
    if JumpsBack(m) {
      hide EatSpaces, TokenEnd, VerbAt, FindLabel;
    } else {
      hide Dispatch, Forward, SameButTemps;
      DispatchAdvances(m, env);
    }
  }

  // ---------- rounds of a well laid out script ----------

  lemma PlaceIsLine(script: string, r: Reader)
    requires AtPlace(script, r)
    ensures LineAt(script, r.pos.start, r.line)
  {
  }

  /** The command of the next round, if its text is that of its place. */
  lemma NextPlace(m: Machine)
    requires Sound(m) && Proper(m.reader) && InStep(m.reader) && Fits(m.reader) && Start(m).Go?
    ensures AtPlace(m.reader.script, Start(m).value)
  {
    hide Sound, Proper, Eat, NothingFrom, Synced, CleanUp, ServiceSkip;
    ReadySound(m);
    ReadyKeeps(m);
    var m0 := Ready(m);
    SameInStep(m.reader, m0.reader);
    EatSynced(m0.reader);
    EatSound(m0);
    EatFlags(m0.reader);
    SoundPlaced(m0.(reader := Start(m).value));
  }

  lemma BraceLeftOf(script: string, r: Reader, offset: nat, c: char)
    requires AtPlace(script, r) && r.line[r.pos.offset] == '}' && BracesLeft(script)
    requires (c == '{' || c == ':') && PlaceBehind(script, offset, c)
    ensures BraceAlone(r.line, r.pos.offset) && r.pos.offset < offset
  {
    hide BraceAlone, LineAt;
    PlaceIsLine(script, r);
    var p: nat, line: string :| LineAt(script, p, line) && 0 < offset <= |line| && line[offset - 1] == c;
    assert LineAt(script, r.pos.start, r.line);
    assert line[offset - 1] == c && r.line[r.pos.offset] == '}';
  }

  lemma TurnsAtGoto(m: Machine)
    requires Fits(m.reader) && TurnsBack(m)
    ensures Start(m).Go? && VerbAt(Start(m).value.line, Start(m).value.pos.offset) == Some(Goto)
  {
    hide Eat, ParseLabel, CheckLoop, CleanUp, ServiceSkip, VerbAt, KnownGoto;
  }

  lemma ClosesAtBrace(m: Machine)
    requires Fits(m.reader) && Closes(m)
    ensures Start(m).Go? && m.loop && Start(m).value.line[Start(m).value.pos.offset] == '}'
  {
    hide Eat, ParseLabel;
  }

  /** In a well laid out script every round that goes back leaves nothing on its line. */
  lemma LaidOutIsTidy(m: Machine, env: Env)
    requires Sound(m) && Proper(m.reader) && Fits(m.reader) && InStep(m.reader) && LoopBraced(m)
    requires WellLaidOut(m.reader.script)
    ensures TidyRound(m, env)
  {
    hide Sound, Proper, Step, InStep, TurnsBack, Closes, AtPlace, BracesLeft, GotosEndLines, Start, NothingFrom,
      PlaceBehind,
      VerbAt, GotoEnd, Skipping, BraceAlone;
    if TurnsBack(m) && Step(m, env).Go? {
      TurnsAtGoto(m);
      NextPlace(m);
      GotoAt(m.reader.script, Start(m).value);
      GotoEndingLineIsTidy(m, env);
    } else if Closes(m) && Step(m, env).Go? {
      ClosesAtBrace(m);
      NextPlace(m);
      BraceLeftOf(m.reader.script, Start(m).value, m.loopPos.offset, '{');
      if Skipping(m) {
        SkippedClosing(m, env);
      } else {
        ClosingBraceIsTidy(m, env);
      }
    }
  }

  lemma GotoAt(script: string, r: Reader)
    requires AtPlace(script, r) && GotosEndLines(script) && VerbAt(r.line, r.pos.offset) == Some(Goto)
    ensures Eaten(r) && NothingFrom(r.line, GotoEnd(r))
  {
    hide VerbAt, NothingFrom, GotoEnd, Synced, Placed;
  }

  /** A closing brace in skip mode ends the loop, and is passed on its line. */
  lemma SkippedClosing(m: Machine, env: Env)
    requires Sound(m) && Fits(m.reader) && Closes(m) && Skipping(m) && Step(m, env).Go?
    requires Start(m).Go? && AtPlace(m.reader.script, Start(m).value)
    ensures InStep(Step(m, env).value.reader)
  {
    hide Sound, Eat, NothingFrom, Step, Placed, CleanUp, ServiceSkip, ParseLabel;
    ClosingGoes(m, env);
    ReadyKeeps(m);
    EatFlags(Ready(m).reader);
    SkippedBrace(Ready(m).(reader := Start(m).value));
  }

  lemma SkippedBrace(m: Machine)
    requires Eaten(m.reader) && CheckLoop(m).1 && m.reader.skip
    ensures CheckLoop(m).0.reader == MoveTo(m.reader, m.reader.pos.offset + 1)
  {
  }

  // ---------- what every round keeps ----------

  /** A machine of a well laid out script, whose text is that of its position or has nothing left. */
  ghost predicate LaidOut(m: Machine) {
    Sound(m) && InStep(m.reader) && Reads(m.reader) && LoopBraced(m) && WellLaidOut(m.reader.script)
  }

  lemma LaidOutSound(m: Machine)
    requires LaidOut(m)
    ensures Sound(m)
  {
  }

  /** Every round of a well laid out script is tidy, and leaves it so. */
  lemma LaidOutRound(m: Machine, env: Env)
    requires LaidOut(m) && Proper(m.reader) && Fits(m.reader)
    ensures TidyRound(m, env)
    ensures Step(m, env).Go? ==> LaidOut(Step(m, env).value)
  {
    hide Sound, Proper, Step, InStep, TidyRound, WellLaidOut, Reads, LoopBraced, Fits, Start;
    LaidOutIsTidy(m, env);
    if Step(m, env).Go? {
      TidyStep(m, env);
      StepSound(m, env);
      StepReads(m, env);
      StepLoopBraced(m, env);
      StepScript(m, env);
    }
  }

  // ---------- waits end behind closing braces ----------

  /** Right behind a closing brace. */
  predicate BehindBrace(r: Reader) {
    0 < r.pos.offset <= |r.line| && r.line[r.pos.offset - 1] == '}'
  }

  /** While strings are looked for, the reader stands behind the closing brace of the WAIT. */
  ghost predicate WaitBraced(m: Machine) {
    && (m.chat != [] && (m.readPending || m.login == SendingCR) ==> BehindBrace(m.reader))
    && (m.login == SendingCR ==> (m.writePending && !m.readPending) || m.finished.Some?)
  }

  lemma {:induction false} ListEndsAtBrace(m: Machine, env: Env, items: seq<Waiting>)
    requires Fits(m.reader) && WaitItems(m, env, items).Go?
    ensures BehindBrace(WaitItems(m, env, items).value.0.reader)
    decreases LeftBehind(m.reader), LeftOnLine(m.reader)
  {
    hide Eat, WaitItem, Reached;
    var r := Eat(m.reader).value;
    var t := m.(reader := r);
    if r.line[r.pos.offset] != '}' {
      var (u, item) := WaitItem(t, env).value;
      ListEndsAtBrace(u, env, items + [item]);
    }
  }

  lemma WaitEndsAtBrace(m: Machine, env: Env, end: nat)
    requires end <= |m.reader.line| && Fits(m.reader) && DoWait(m, env, end).Go?
    ensures BehindBrace(DoWait(m, env, end).value.reader)
  {
    hide OpenBrace, WaitItems, ParseReal, Reached;
    var t := OpenBrace(m, ParseReal(m.reader.line, end).value.1).value;
    ReachedFits(m, ParseReal(m.reader.line, end).value.1);
    ListEndsAtBrace(t, env, []);
  }

  lemma ReachedFits(m: Machine, o: nat)
    requires Fits(m.reader) && OpenBrace(m, o).Go?
    ensures Fits(OpenBrace(m, o).value.reader)
  {
  }

  lemma DispatchWaits(m: Machine, env: Env)
    requires Eaten(m.reader) && Proper(m.reader) && Dispatch(m, env).Go? && m.chat == []
    ensures Dispatch(m, env).value.chat != [] ==> BehindBrace(Dispatch(m, env).value.reader)
    ensures Dispatch(m, env).value.login == m.login
  {
    hide DoSet, DoSend, DoWait, DoLoop, DoGoto, DoRead, DoExit, DoDtr, DoCharmap, TokenEnd, VerbIn, Words,
      CarriageReturns,
      Strings;
    DispatchPort(m, env);
    if Dispatch(m, env).value.chat != [] {
      WaitEndsAtBrace(m, env, TokenEnd(m.reader.line, m.reader.pos.offset));
    }
  }

  lemma StepWaitBraced(m: Machine, env: Env)
    requires Sound(m) && Proper(m.reader) && Step(m, env).Go? && PortOk(m) && WaitBraced(m) && Running(m)
    ensures WaitBraced(Step(m, env).value)
  {
    hide Sound, Eat, Dispatch, Proper, ParseLabel, CheckLoop, Ready, Eaten, Strings, CarriageReturns, Onward,
      BehindBrace;
    StepCases(m, env);
    ReadyPort(m);
    var m1 := Ready(m).(reader := Eat(Ready(m).reader).value);
    LabelRound(m1);
    LoopRound(m1);
    if !ParseLabel(m1).value.1 && !CheckLoop(m1).1 {
      DispatchWaits(m1, env);
    }
  }

  lemma FinishBraced(m: Machine, error: Error)
    ensures WaitBraced(Finish(m, error)) && !Finish(m, error).loop && Finish(m, error).reader == m.reader
  {
  }

  lemma CompletedWriteBraced(m: Machine, error: Option<Error>)
    requires m.chat != [] && (m.readPending || m.login == SendingCR) ==> BehindBrace(m.reader)
    ensures WaitBraced(CompletedWrite(m, error)) && SameLoop(m, CompletedWrite(m, error))
  {
    hide BehindBrace, Finish;
    if error.Some? {
      FinishBraced(m, error.value);
    }
  }

  /** The loop has ended or is the same. */
  ghost predicate SameLoop(m: Machine, t: Machine) {
    t.loop ==> m.loop && t.loopPos == m.loopPos
  }

  lemma CompletedReadBraced(m: Machine, error: Error)
    requires !m.readPending && (m.chat != [] ==> BehindBrace(m.reader)) && m.login != SendingCR
    ensures WaitBraced(CompletedRead(m, error)) && SameLoop(m, CompletedRead(m, error))
  {
    hide BehindBrace, Finish;
    FinishBraced(m.(login := Deactivated), error);
  }

  lemma FoundBraced(m: Machine, i: int)
    requires !m.readPending && FoundString(m, i).Go?
    ensures WaitBraced(FoundString(m, i).value) && SameLoop(m, FoundString(m, i).value)
  {
    hide FindLabel;
  }

  /** What is not a round that goes on keeps both. */
  lemma TakeBraced(m: Machine, env: Env, move: Move)
    requires Fits(m.reader) && Take(m, env, move).Go? && WaitBraced(m)
    requires !(move == Round && Running(m) && Step(m, env).Go?)
    ensures WaitBraced(Take(m, env, move).value) && SameLoop(m, Take(m, env, move).value)
  {
    hide BehindBrace, Step, Finish, CompletedRead, CompletedWrite, FoundString, Chat.ScanAll;
    var idle, sent := m.(readPending := false), m.(writePending := false);
    match move
    case Round =>
      if Running(m) {
        FinishBraced(m, Step(m, env).error);
      }
    case WriteDone(status) =>
      CompletedWriteBraced(sent, None);
      CompletedWriteBraced(sent, Some(CommsError));
      if status.OtherError? {
        CompletedWriteBraced(sent, Some(ExitCode(status.code)));
      }
    case Arrived(status, rx) =>
      if m.finished.None? && m.readPending {
        ArrivedBraced(m, env, status, rx);
      }
    case Timeout =>
      if m.writePending {
        CompletedWriteBraced(sent, Some(TimedOut));
      } else if m.finished.None? && m.readPending {
        CompletedReadBraced(idle, TimedOut);
      }
  }

  lemma ArrivedBraced(m: Machine, env: Env, status: IoStatus, rx: seq<Chat.Byte>)
    requires WaitBraced(m) && m.finished.None? && m.readPending && AfterRead(m, env, status, rx).Go?
    ensures var t := AfterRead(m, env, status, rx).value; WaitBraced(t) && SameLoop(m, t)
  {
    hide BehindBrace, Finish, FoundString, CompletedRead, Chat.ScanAll;
    var idle := m.(readPending := false);
    CompletedReadBraced(idle, CommsError);
    if status.OtherError? {
      CompletedReadBraced(idle, ExitCode(status.code));
    }
    if status == Fine || status == FrameError {
      if !m.terminalPending && env.history > 0 {
        var scan := Chat.ScanAll(m.chat, m.received, env.history, env.fold, rx);
        if scan.found != KErrNotFound {
          FoundBraced(m.(received := scan.history, readPending := false), scan.found);
        }
      }
    }
  }

  // ---------- runs of a well laid out script ----------

  /** A jump to the label of a found string leaves nothing on the line that the WAIT ends on. */
  lemma FoundJumpIsTidy(m: Machine, i: int)
    requires FoundString(m, i).Go? && LaidOut(m) && AllRecorded(m) && BehindBrace(m.reader)
    ensures var r := FoundString(m, i).value.reader; r.pos != m.reader.pos ==> NothingFrom(r.line, r.pos.offset)
  {
    hide Sound, InStep, Reads, LoopBraced, GotosEndLines, BracesLeft, NothingFrom, Recorded;
    var t := FoundString(m, i).value;
    var k := LabelAt(m.labels, m.waits[i].target);
    if t.reader.pos != m.reader.pos {
      assert t.reader.pos == m.labels[k].pos;
      assert Recorded(m.reader.script, m.labels[k]);
      LabelBehindColon(m.reader.script, m.labels[k]);
      NothingLeft(m.reader, t.reader.pos.offset);
    }
  }

  lemma LabelBehindColon(script: string, l: Label)
    requires Recorded(script, l)
    ensures PlaceBehind(script, l.pos.offset, ':')
  {
    var line := script[l.pos.start..l.pos.start + LineLength(script, l.pos.start)];
    assert LineAt(script, l.pos.start, line);
    assert line[l.pos.offset - 1] == ':';
  }

  lemma NothingLeft(r: Reader, offset: nat)
    requires Reads(r) && BehindBrace(r) && BracesLeft(r.script) && PlaceBehind(r.script, offset, ':')
    ensures NothingFrom(r.line, offset)
  {
    hide LineAt, BraceAlone;
    var q: nat :| LineAt(r.script, q, r.line);
    var p: nat, line: string :| LineAt(r.script, p, line) && 0 < offset <= |line| && line[offset - 1] == ':';
    var j := r.pos.offset - 1;
    assert line[offset - 1] == ':' && r.line[j] == '}';
    BraceLeavesNothing(r.line, j, offset);
  }

  lemma BraceLeavesNothing(line: string, j: nat, o: nat)
    requires BraceAlone(line, j) && j < o
    ensures NothingFrom(line, o)
  {
    SkipsAll(line, o);
  }

  /** What holds of every machine in a run of a well laid out script. */
  ghost predicate Neat(m: Machine) {
    LaidOut(m) && PortOk(m) && AllRecorded(m) && WaitBraced(m)
  }

  lemma LaidOutMoveIsTidy(m: Machine, env: Env, move: Move)
    requires Neat(m) && Proper(m.reader) && Fits(m.reader)
    ensures Tidy(m, env, move)
  {
    hide PortOk, Proper, TidyRound, Chat.ScanAll, BehindBrace, InStep, Reads, WellLaidOut, NothingFrom, FoundString,
      CompletedRead;
    match move
    case Round => LaidOutRound(m, env);
    case Arrived(status, rx) =>
      if m.finished.None? && m.readPending && Take(m, env, move).Go? {
        CompletedReadText(m.(readPending := false), CommsError);
        if status.OtherError? {
          CompletedReadText(m.(readPending := false), ExitCode(status.code));
        }
        if !m.terminalPending && env.history > 0 {
          var scan := Chat.ScanAll(m.chat, m.received, env.history, env.fold, rx);
          if scan.found != KErrNotFound {
            FoundNeedsStrings(m, env, rx);
            var u := m.(received := scan.history, readPending := false);
            SameLaidOut(m, u);
            if FoundString(u, scan.found).Go? {
              FoundJumpIsTidy(u, scan.found);
            }
          }
        }
      }
    case _ =>
  }

  lemma FoundNeedsStrings(m: Machine, env: Env, rx: seq<Chat.Byte>)
    requires PortOk(m) && env.history > 0
    requires Chat.ScanAll(m.chat, m.received, env.history, env.fold, rx).found != KErrNotFound
    ensures m.chat != []
  {
    FoundIsWaitedFor(m, env, rx);
    hide Chat.ScanAll, Strings;
    Chat.ScanStopsFirst(m.chat, m.received, env.history, env.fold, rx);
  }

  lemma SameLaidOut(m: Machine, t: Machine)
    requires LaidOut(m) && AllRecorded(m) && t.reader == m.reader && t.labels == m.labels
    requires t.loop == m.loop && t.loopPos == m.loopPos && t.counter == m.counter
    ensures LaidOut(t) && AllRecorded(t)
  {
    hide InStep, Reads, WellLaidOut, Recorded, Placed;
  }

  /** Every move in a run of a well laid out script is tidy, and keeps all this. */
  lemma NeatTake(m: Machine, env: Env, move: Move)
    requires Neat(m) && Proper(m.reader) && Fits(m.reader) && Take(m, env, move).Go?
    ensures Tidy(m, env, move) && Neat(Take(m, env, move).value)
  {
    hide Sound, PortOk, Proper, Fits, Take, Step, Tidy, InStep, Reads, WellLaidOut, AllRecorded, WaitBraced, Running,
      LoopBraced;
    LaidOutMoveIsTidy(m, env, move);
    TidyTake(m, env, move);
    TakeSound(m, env, move);
    TakeText(m, env, move);
    var t := Take(m, env, move).value;
    if move == Round && Running(m) && Step(m, env) == Go(t) {
      LaidOutRound(m, env);
      StepWaitBraced(m, env);
    } else {
      NoRound(m, env, move);
      TakeBraced(m, env, move);
      ReadsFlags(m.reader, t.reader);
      SameLoopBraced(m, t);
    }
  }

  lemma NoRound(m: Machine, env: Env, move: Move)
    requires Fits(m.reader) && Take(m, env, move).Go?
    requires !(move == Round && Running(m) && Step(m, env) == Go(Take(m, env, move).value))
    ensures !(move == Round && Running(m) && Step(m, env).Go?)
  {
    hide Step, Running;
  }

  lemma SameLoopBraced(m: Machine, t: Machine)
    requires LoopBraced(m) && SameLoop(m, t) && t.reader.script == m.reader.script
    ensures LoopBraced(t)
  {
    hide PlaceBehind;
  }

  lemma {:induction false} NeatRun(m: Machine, env: Env, moves: seq<Move>)
    requires Neat(m) && Sound(m) && PortOk(m)
    ensures TidyRun(m, env, moves)
    ensures Run(m, env, moves).Go? ==> Neat(Run(m, env, moves).value)
    decreases |moves|
  {
    hide Sound, PortOk, Take, Proper, Neat, Tidy, Fits;
    if moves != [] {
      SoundProper(m);
      ProperFits(m.reader);
      NeatTidy(m, env, moves[0]);
      if Take(m, env, moves[0]).Go? {
        NeatTake(m, env, moves[0]);
        TakeSound(m, env, moves[0]);
        NeatRun(Take(m, env, moves[0]).value, env, moves[1..]);
      }
    }
  }

  lemma NeatTidy(m: Machine, env: Env, move: Move)
    requires Neat(m) && Proper(m.reader) && Fits(m.reader)
    ensures Tidy(m, env, move)
  {
    hide LaidOut, PortOk, AllRecorded, WaitBraced, Tidy;
    LaidOutMoveIsTidy(m, env, move);
  }

  lemma StartedNeat(script: string, vars: seq<Variable>)
    requires script != "" && WellLaidOut(script)
    ensures Neat(Started(script, vars))
  {
    hide Sound, PortOk, GotosEndLines, BracesLeft, Placed;
    StartedSound(script, vars);
    var m := Started(script, vars);
    SoundPlaced(m);
    SyncedReads(m.reader);
  }

  /** Every run of a well laid out script goes back only from lines that it leaves nothing on. */
  lemma LaidOutRunsAreTidy(script: string, vars: seq<Variable>, env: Env, moves: seq<Move>)
    requires script != "" && WellLaidOut(script)
    ensures Played(script, vars, env, moves).Go? ==>
              PlayedTidily(script, vars, env, moves) && Neat(Played(script, vars, env, moves).value)
  {
    hide Sound, PortOk, WellLaidOut, Neat, TidyRun, Run, Started;
    StartedSound(script, vars);
    StartedNeat(script, vars);
    NeatRun(Started(script, vars), env, moves);
  }

  /**
   Over every run of a well laid out script: each recorded label stands in the script where
   its position says, and a label met in the next round, for the first time or again, is
   accepted exactly if its name is new or was recorded at this very place of the script.
  */
  lemma LabelsKeepTheirPlacesByLayout(script: string, vars: seq<Variable>, env: Env, moves: seq<Move>)
    requires script != "" && WellLaidOut(script) && Played(script, vars, env, moves).Go?
    ensures var m := Played(script, vars, env, moves).value;
            && AllRecorded(m) && m.reader.script == script && Fits(m.reader)
            && (Start(m).Go? && AtLabel(Start(m).value) && |NameAt(Start(m).value)| <= KMaxLabelLength ==>
                  var r := Start(m).value;
                  var known := FindLabel(m.labels, NameAt(r));
                  && PlaceAt(r) <= |script| && NameAt(r) == script[r.pos.start + r.pos.offset..PlaceAt(r) - 1]
                  && (if known.None? || Place(known.value) == PlaceAt(r) then Step(m, env).Go?
                      else Step(m, env) == Stop(AlreadyExists)))
  {
    hide WellLaidOut, Neat, PlayedTidily, Played, AllRecorded, Step, AtLabel, NameAt, PlaceAt, Place, Eat;
    LaidOutRunsAreTidy(script, vars, env, moves);
    LabelsKeepTheirPlaces(script, vars, env, moves);
  }
}
