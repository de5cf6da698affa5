/**
 The script interpreter together with the serial port: any sequence of rounds,
 received characters, completed writes and timeouts, from the start of a script on.
*/
module ScriptPort {
  import opened Wrappers
  import opened ScriptText
  import opened ScriptReader
  import opened ScriptStores
  import opened ScriptExpressions
  import opened ScriptMachine
  import opened ScriptSteps
  import opened ScriptRuns
  import Chat

  /** A script after its reset, with the port being opened for writing (RunScript). */
  function Started(script: string, vars: seq<Variable>): Machine
    requires script != ""
  {
    var length := LineLength(script, 0);
    Machine(Reader(script, LinePosition(BASE, 0, length, 0), script[..length], false, false),
            vars, [], map[], false, 0, LinePosition(0, 0, 0, 0), "", [], None, "", [], [],
            true, false, false, FirstWait, 0.0, None, [])
  }

  // ---------- the invariant of the port ----------

  function CarriageReturns(requests: seq<Request>): nat {
    if requests == [] then 0
    else CarriageReturns(requests[..|requests| - 1]) + if requests[|requests| - 1] == WriteCR then 1 else 0
  }

  lemma OneRequest(requests: seq<Request>, q: Request)
    ensures CarriageReturns(requests + [q]) == CarriageReturns(requests) + if q == WriteCR then 1 else 0
  {
    assert (requests + [q])[..|requests|] == requests;
  }

  /** The chatter looks for the strings of the last WAIT, if for any, and a carriage return was sent once at most. */
  ghost predicate PortOk(m: Machine) {
    && (m.chat != [] ==> m.last == Some(Wait) && !m.reader.skip && m.chat == Strings(m.waits))
    && CarriageReturns(m.requests) <= 1
    && (m.login == FirstWait ==> CarriageReturns(m.requests) == 0)
  }

  /** Nothing but ordinary requests has been made, and the login state is the same. */
  ghost predicate Ordinary(m: Machine, t: Machine) {
    t.login == m.login && CarriageReturns(t.requests) == CarriageReturns(m.requests)
  }

  lemma ReadyPort(m: Machine)
    requires PortOk(m)
    ensures Ready(m).chat == [] && Ordinary(m, Ready(m))
  {
    hide CarriageReturns, Strings;
  }

  /** What a command may do to the port. */
  ghost predicate CommandPort(m: Machine, verb: Verb, t: Machine) {
    && Ordinary(m, t)
    && (t.chat == [] || (verb == Wait && !t.reader.skip && t.chat == Strings(t.waits)))
  }

  lemma WaitPort(m: Machine, env: Env, end: nat)
    requires Proper(m.reader) && end <= |m.reader.line| && m.reader.pos.offset < end && DoWait(m, env, end).Go?
            && m.chat == []
    ensures CommandPort(m, Wait, DoWait(m, env, end).value)
  {
    hide OpenBrace, WaitItems, Forward, SameButTemps, ParseReal, Strings, CarriageReturns;
    var o := ParseReal(m.reader.line, end).value.1;
    OpenBraceShape(m, o);
    var t := OpenBrace(m, o).value;
    WaitItemsShape(t, env, []);
    var (u, items) := WaitItems(t, env, []).value;
    if !u.reader.skip {
      var q := ReadPort(if u.login == FirstWait && ParseReal(m.reader.line, end).value.0 > 30.0 then 30.0
        else ParseReal(m.reader.line, end).value.0);
      OneRequest(u.requests, q);
      assert [] + Strings(items) == Strings(items);
    }
  }

  lemma SendPort(m: Machine, env: Env, end: nat)
    requires DoSend(m, env, end).Go? && m.chat == []
    ensures CommandPort(m, Send, DoSend(m, env, end).value)
  {
    hide Evaluate, EatSpaces, Convert, SameButTemps, CarriageReturns;
    var o := EatSpaces(m.reader.line, end);
    EvaluateInert(m, Send, o);
    var t := DoSend(m, env, end).value;
    if !t.reader.skip {
      OneRequest(m.requests, t.requests[|t.requests| - 1]);
    }
  }

  lemma SetPort(m: Machine, end: nat)
    requires end <= |m.reader.line| && DoSet(m, end).Go? && m.chat == []
    ensures CommandPort(m, Set, DoSet(m, end).value)
  {
    hide Evaluate, EatSpaces, TokenEnd, SameButTemps, Define, CarriageReturns;
    var equals := EatSpaces(m.reader.line, TokenEnd(m.reader.line, EatSpaces(m.reader.line, end)));
    EvaluateInert(m, Set, EatSpaces(m.reader.line, equals + 1));
  }

  lemma LoopPort(m: Machine, end: nat)
    requires Proper(m.reader) && end <= |m.reader.line| && m.reader.pos.offset < end && DoLoop(m, end).Go?
            && m.chat == []
    ensures CommandPort(m, Loop, DoLoop(m, end).value)
  {
    hide OpenBrace, ParseInteger, CarriageReturns, SameButTemps;
    OpenBraceShape(m, ParseInteger(m.reader.line, end).value.1);
  }

  lemma OtherPort(m: Machine, end: nat)
    requires end <= |m.reader.line| && m.chat == []
    ensures DoRead(m, end).Go? ==> CommandPort(m, Read, DoRead(m, end).value)
    ensures DoDtr(m, end).Go? ==> CommandPort(m, Dtr, DoDtr(m, end).value)
  {
    hide CarriageReturns, EatSpaces, TokenEnd, IsWord, Strings;
    OneRequest(m.requests, ReadTerminal);
    OneRequest(m.requests, RaiseDTR);
    OneRequest(m.requests, DropDTR);
  }

  lemma QuietPort(m: Machine, end: nat)
    requires end <= |m.reader.line| && m.chat == []
    ensures DoExit(m, end).Go? ==> CommandPort(m, Exit, DoExit(m, end).value)
    ensures DoGoto(m, end).Go? ==> CommandPort(m, Goto, DoGoto(m, end).value)
    ensures DoCharmap(m, end).Go? ==> CommandPort(m, Charmap, DoCharmap(m, end).value)
  {
    hide CarriageReturns, EatSpaces, TokenEnd, Compound, CharacterType, FindLabel, Strings, Signed;
  }

  lemma DispatchPort(m: Machine, env: Env)
    requires Eaten(m.reader) && Proper(m.reader) && Dispatch(m, env).Go? && m.chat == []
    ensures Dispatch(m, env).value.last.Some?
    ensures CommandPort(m, Dispatch(m, env).value.last.value, Dispatch(m, env).value)
  {
    hide CommandPort, DoSet, DoSend, DoWait, DoLoop, DoGoto, DoRead, DoExit, DoDtr, DoCharmap, TokenEnd, VerbIn, Words;
    var o := m.reader.pos.offset;
    VerbWord(Words(), m.reader.line, o) by {
      WordsProper();
    }
    var verb := VerbAt(m.reader.line, o).value;
    var end := TokenEnd(m.reader.line, o);
    match verb {
      case Wait => WaitPort(m, env, end);
      case Send => SendPort(m, env, end);
      case Set => SetPort(m, end);
      case Loop => LoopPort(m, end);
      case _ =>
        OtherPort(m, end);
        QuietPort(m, end);
    }
    PortLast(m, verb, Command(m, env, verb).value);
  }

  lemma PortLast(m: Machine, verb: Verb, t: Machine)
    requires CommandPort(m, verb, t)
    ensures CommandPort(m, verb, t.(last := Some(verb)))
  {
    hide CarriageReturns, Strings;
  }

  lemma StepPort(m: Machine, env: Env)
    requires Sound(m) && Proper(m.reader) && Step(m, env).Go? && PortOk(m)
    ensures PortOk(Step(m, env).value) && Ordinary(m, Step(m, env).value)
  {
    hide Sound, Eat, Dispatch, Proper, ParseLabel, CheckLoop, Ready, Eaten, Strings, CarriageReturns, Onward;
    StepCases(m, env);
    ReadyPort(m);
    var m1 := Ready(m).(reader := Eat(Ready(m).reader).value);
    LabelRound(m1);
    LoopRound(m1);
    if !ParseLabel(m1).value.1 && !CheckLoop(m1).1 {
      DispatchPort(m1, env);
    }
  }

  // ---------- moves ----------

  lemma FinishPort(m: Machine, error: Error)
    requires Sound(m) && PortOk(m)
    ensures Sound(Finish(m, error)) && PortOk(Finish(m, error))
  {
    hide CarriageReturns, Strings, Placed;
  }

  lemma GotoLabelSound(m: Machine, name: string)
    requires Sound(m) && GotoLabel(m, name).Go?
    ensures Sound(GotoLabel(m, name).value)
  {
    var i := LabelAt(m.labels, name);
    hide Placed, LabelAt;
  }

  lemma PortFields(m: Machine, t: Machine)
    requires Sound(m)
    requires t.reader == m.reader && t.labels == m.labels && t.loop == m.loop && t.loopPos == m.loopPos
            && t.counter == m.counter
    ensures Sound(t)
  {
  }

  lemma CompletedWritePort(m: Machine, error: Option<Error>)
    requires Sound(m) && PortOk(m)
    ensures Sound(CompletedWrite(m, error)) && PortOk(CompletedWrite(m, error))
  {
    hide CarriageReturns, Strings, Sound;
    if error.Some? && error != Some(TimedOut) {
      FinishPort(m, error.value);
    } else {
      PortFields(m, CompletedWrite(m, error));
      OneRequest(m.requests, ReadPort(m.loginTimeout));
    }
  }

  lemma CompletedReadPort(m: Machine, error: Error)
    requires Sound(m) && PortOk(m)
    ensures Sound(CompletedRead(m, error)) && PortOk(CompletedRead(m, error))
  {
    hide CarriageReturns, Strings, Sound, Finish;
    if error == TimedOut || error == CommsError {
      PortFields(m, CompletedRead(m, error));
      OneRequest(m.requests, WriteCR);
    } else {
      PortFields(m, m.(login := Deactivated));
      FinishPort(m.(login := Deactivated), error);
    }
  }

  /** A string of the WAIT has been found: the index is in range, and the jump is to the label beside that string. */
  lemma FoundIsWaitedFor(m: Machine, env: Env, rx: seq<Chat.Byte>)
    requires PortOk(m) && env.history > 0
    requires var scan := Chat.ScanAll(m.chat, m.received, env.history, env.fold, rx); scan.found != KErrNotFound
    ensures var scan := Chat.ScanAll(m.chat, m.received, env.history, env.fold, rx);
            && 0 <= scan.found < |m.waits|
            && Chat.RingMatches(m.waits[scan.found].text, scan.history, env.history)
            && (forall i :: 0 <= i < |m.waits| && Chat.RingMatches(m.waits[i].text, scan.history, env.history) ==>
               i <= scan.found)
            && Chat.Quiet(Strings(m.waits), m.received, scan.history, env.history, env.fold, true)
            && scan.history + scan.excess == m.received + rx
  {
    Chat.ScanStopsFirst(m.chat, m.received, env.history, env.fold, rx);
    var scan := Chat.ScanAll(m.chat, m.received, env.history, env.fold, rx);
    hide Chat.ScanAll, Chat.RingMatches, Chat.Quiet, CarriageReturns, Chat.Seen;
    SeenAsIs(scan.history, env.fold);
    forall i | 0 <= i < |m.waits| && Chat.RingMatches(m.waits[i].text, scan.history, env.history)
      ensures i <= scan.found
    {
      assert Chat.FoundAt(m.chat, scan.history, env.history, env.fold, i);
    }
  }

  lemma SeenAsIs(h: seq<Chat.Byte>, fold: Chat.Folding)
    ensures Chat.Seen(h, false, fold) == h
  {
  }

  lemma AfterReadPort(m: Machine, env: Env, status: IoStatus, rx: seq<Chat.Byte>)
    requires Sound(m) && PortOk(m) && AfterRead(m, env, status, rx).Go?
    ensures Sound(AfterRead(m, env, status, rx).value) && PortOk(AfterRead(m, env, status, rx).value)
  {
    hide CarriageReturns, Strings, Sound, CompletedRead, Chat.ScanAll, FindLabel;
    var idle := m.(readPending := false);
    PortFields(m, idle);
    match status
    case LineFail => CompletedReadPort(idle, CommsError);
    case OtherError(code) => CompletedReadPort(idle, ExitCode(code));
    case _ =>
      if !m.terminalPending && env.history > 0 {
        var scan := Chat.ScanAll(m.chat, m.received, env.history, env.fold, rx);
        var t := m.(received := scan.history);
        PortFields(m, t);
        if scan.found != KErrNotFound {
          FoundIsWaitedFor(m, env, rx);
          var u := t.(readPending := false, login := Deactivated);
          PortFields(m, u);
          GotoLabelSound(u, m.waits[scan.found].target);
        }
      }
  }

  /** Every move keeps both invariants. */
  lemma TakeSound(m: Machine, env: Env, move: Move)
    requires Sound(m) && PortOk(m) && Proper(m.reader) && Take(m, env, move).Go?
    ensures Sound(Take(m, env, move).value) && PortOk(Take(m, env, move).value)
  {
    hide Sound, PortOk, Step, Proper, Finish, CompletedRead, CompletedWrite, AfterRead, Running;
    match move
    case Round =>
      ProperFits(m.reader);
      if Running(m) {
        if Step(m, env).Go? {
          StepSound(m, env);
          StepPort(m, env);
        } else {
          FinishPort(m, Step(m, env).error);
        }
      }
    case WriteDone(status) =>
      IdlePort(m);
      CompletedWritePort(m.(writePending := false), None);
      CompletedWritePort(m.(writePending := false), Some(CommsError));
      if status.OtherError? {
        CompletedWritePort(m.(writePending := false), Some(ExitCode(status.code)));
      }
    case Arrived(status, rx) =>
      if m.finished.None? && m.readPending {
        AfterReadPort(m, env, status, rx);
      }
    case Timeout =>
      IdlePort(m);
      CompletedWritePort(m.(writePending := false), Some(TimedOut));
      CompletedReadPort(m.(readPending := false), TimedOut);
  }

  lemma IdlePort(m: Machine)
    requires Sound(m) && PortOk(m)
    ensures Sound(m.(writePending := false)) && PortOk(m.(writePending := false))
    ensures Sound(m.(readPending := false)) && PortOk(m.(readPending := false))
  {
    hide CarriageReturns, Strings, Placed;
  }

  // ---------- runs ----------

  ghost function Run(m: Machine, env: Env, moves: seq<Move>): Flow<Machine>
    requires Sound(m) && PortOk(m)
    decreases |moves|
  {
    SoundProper(m);
    if moves == [] then Go(m)
    else
      match Take(m, env, moves[0])
      case Go(t) =>
        TakeSound(m, env, moves[0]);
        Run(t, env, moves[1..])
      case stop => stop
  }

  lemma StartedSound(script: string, vars: seq<Variable>)
    requires script != ""
    ensures Sound(Started(script, vars)) && PortOk(Started(script, vars))
  {
  }

  /** A run of a script from its start on. */
  ghost function Played(script: string, vars: seq<Variable>, env: Env, moves: seq<Move>): Flow<Machine>
    requires script != ""
  {
    StartedSound(script, vars);
    Run(Started(script, vars), env, moves)
  }

  lemma {:induction false} RunSound(m: Machine, env: Env, moves: seq<Move>)
    requires Sound(m) && PortOk(m) && Run(m, env, moves).Go?
    ensures Sound(Run(m, env, moves).value) && PortOk(Run(m, env, moves).value)
    decreases |moves|
  {
    hide Sound, PortOk, Take, Proper;
    if moves != [] {
      SoundProper(m);
      TakeSound(m, env, moves[0]);
      RunSound(Take(m, env, moves[0]).value, env, moves[1..]);
    }
  }

  /**
   Over every run of a script: the automatic carriage return is sent once at most, and not
   before a wait has timed out; and whenever received characters complete a string, its
   index is that of a string of the WAIT being served, found at the earliest
   character and highest in the list, and the jump is to the label written beside it.
  */
  lemma WaitsAreAnswered(script: string, vars: seq<Variable>, env: Env, moves: seq<Move>, rx: seq<Chat.Byte>)
    requires script != "" && env.history > 0
    requires Played(script, vars, env, moves).Go?
    ensures var m := Played(script, vars, env, moves).value;
            var scan := Chat.ScanAll(m.chat, m.received, env.history, env.fold, rx);
            && CarriageReturns(m.requests) <= 1
            && (m.login == FirstWait ==> CarriageReturns(m.requests) == 0)
            && (m.finished.None? && m.readPending && !m.terminalPending && scan.found != KErrNotFound ==>
                  && 0 <= scan.found < |m.waits|
                  && Chat.RingMatches(m.waits[scan.found].text, scan.history, env.history)
                  && (forall i :: 0 <= i < |m.waits| && Chat.RingMatches(m.waits[i].text, scan.history, env.history) ==>
                     i <= scan.found)
                  && Chat.Quiet(Strings(m.waits), m.received, scan.history, env.history, env.fold, true)
                  && AfterRead(m, env, Fine, rx)
                     == GotoLabel(m.(received := scan.history, readPending := false, login := Deactivated),
                       m.waits[scan.found].target))
  {
    hide Sound, Take, Run, Chat.ScanAll, Chat.RingMatches, Chat.Quiet, GotoLabel, CarriageReturns, Started;
    StartedSound(script, vars);
    RunSound(Started(script, vars), env, moves);
    var m := Played(script, vars, env, moves).value;
    var scan := Chat.ScanAll(m.chat, m.received, env.history, env.fold, rx);
    if scan.found != KErrNotFound {
      FoundIsWaitedFor(m, env, rx);
    }
  }
}
