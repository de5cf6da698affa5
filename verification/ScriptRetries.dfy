/**
 The waits for the login prompt over whole runs: which request a wait makes, the carriage
 return when the first one times out, and the second wait behind it.
*/
module ScriptRetries {
  import opened Wrappers
  import opened ScriptText
  import opened ScriptReader
  import opened ScriptStores
  import opened ScriptExpressions
  import opened ScriptMachine
  import opened ScriptSteps
  import opened ScriptRuns
  import opened ScriptPort
  import Chat

  /** The strings of a WAIT are being looked for. */
  ghost predicate Looking(m: Machine) {
    m.last == Some(Wait) && !m.reader.skip && m.chat == Strings(m.waits)
  }

  /** The first wait for a prompt is at most thirty seconds. */
  function Least(period: real): real {
    if period > 30.0 then 30.0 else period
  }

  /** The requests that the wait being served has made so far. */
  function Asked(m: Machine): seq<Request> {
    match m.login
    case FirstWait => [ReadPort(Least(m.loginTimeout))]
    case SendingCR => [ReadPort(Least(m.loginTimeout)), WriteCR]
    case SecondWait => [ReadPort(Least(m.loginTimeout)), WriteCR, ReadPort(m.loginTimeout)]
    case Deactivated => [ReadPort(m.loginTimeout)]
  }

  ghost predicate EndsIn(requests: seq<Request>, last: seq<Request>) {
    |last| <= |requests| && requests[|requests| - |last|..] == last
  }

  /** What is pending belongs to the WAIT being served, unless the script reads the terminal or has ended. */
  ghost predicate Attending(m: Machine) {
    m.finished.None? && !m.terminalPending ==>
      && (m.readPending || m.login == SendingCR ==> Looking(m) && EndsIn(m.requests, Asked(m)))
      && (m.readPending ==> !m.writePending && m.login != SendingCR)
      && (m.login == SendingCR ==> m.writePending)
      && (m.login == SecondWait ==> m.readPending)
  }

  // ---------- rounds ----------

  /** What a command leaves pending. */
  ghost predicate Leaves(m: Machine, verb: Verb, t: Machine) {
    && t.login == m.login && m.requests <= t.requests
    && (t.readPending ==>
          |t.requests| > 0 && (t.requests[|t.requests| - 1].ReadPort? || t.requests[|t.requests| - 1].ReadTerminal?))
    && (t.terminalPending || !t.readPending
        || (verb == Wait && !t.writePending && !t.reader.skip && t.chat == Strings(t.waits)
            && t.requests == m.requests + [ReadPort(if m.login == FirstWait then Least(t.loginTimeout)
               else t.loginTimeout)]))
  }

  ghost predicate Idling(m: Machine) {
    m.chat == [] && !m.readPending && !m.writePending
  }

  lemma WaitLeaves(m: Machine, env: Env, end: nat)
    requires Proper(m.reader) && end <= |m.reader.line| && m.reader.pos.offset < end && DoWait(m, env, end).Go?
    requires Idling(m)
    ensures Leaves(m, Wait, DoWait(m, env, end).value)
  {
    hide OpenBrace, WaitItems, Forward, SameButTemps, ParseReal, Strings;
    var o := ParseReal(m.reader.line, end).value.1;
    OpenBraceShape(m, o);
    var t := OpenBrace(m, o).value;
    WaitItemsShape(t, env, []);
    var (u, items) := WaitItems(t, env, []).value;
    if !u.reader.skip {
      assert [] + Strings(items) == Strings(items);
    }
  }

  lemma SendLeaves(m: Machine, env: Env, end: nat)
    requires DoSend(m, env, end).Go? && Idling(m)
    ensures Leaves(m, Send, DoSend(m, env, end).value)
  {
    hide Evaluate, EatSpaces, Convert, SameButTemps;
    EvaluateInert(m, Send, EatSpaces(m.reader.line, end));
  }

  lemma SetLeaves(m: Machine, end: nat)
    requires end <= |m.reader.line| && DoSet(m, end).Go? && Idling(m)
    ensures Leaves(m, Set, DoSet(m, end).value)
  {
    hide Evaluate, EatSpaces, TokenEnd, SameButTemps, Define;
    var equals := EatSpaces(m.reader.line, TokenEnd(m.reader.line, EatSpaces(m.reader.line, end)));
    EvaluateInert(m, Set, EatSpaces(m.reader.line, equals + 1));
  }

  lemma LoopLeaves(m: Machine, end: nat)
    requires Proper(m.reader) && end <= |m.reader.line| && m.reader.pos.offset < end && DoLoop(m, end).Go?
    requires Idling(m)
    ensures Leaves(m, Loop, DoLoop(m, end).value)
  {
    hide OpenBrace, ParseInteger, SameButTemps;
    OpenBraceShape(m, ParseInteger(m.reader.line, end).value.1);
  }

  lemma PlainLeaves(m: Machine, end: nat)
    requires end <= |m.reader.line| && Idling(m)
    ensures DoRead(m, end).Go? ==> Leaves(m, Read, DoRead(m, end).value)
    ensures DoDtr(m, end).Go? ==> Leaves(m, Dtr, DoDtr(m, end).value)
    ensures DoExit(m, end).Go? ==> Leaves(m, Exit, DoExit(m, end).value)
    ensures DoGoto(m, end).Go? ==> Leaves(m, Goto, DoGoto(m, end).value)
    ensures DoCharmap(m, end).Go? ==> Leaves(m, Charmap, DoCharmap(m, end).value)
  {
    hide EatSpaces, TokenEnd, Compound, CharacterType, FindLabel, Strings, Signed, IsWord;
  }

  lemma DispatchLeaves(m: Machine, env: Env)
    requires Eaten(m.reader) && Proper(m.reader) && Dispatch(m, env).Go? && Idling(m)
    ensures Dispatch(m, env).value.last.Some?
    ensures Leaves(m, Dispatch(m, env).value.last.value, Dispatch(m, env).value)
  {
    hide Leaves, DoSet, DoSend, DoWait, DoLoop, DoGoto, DoRead, DoExit, DoDtr, DoCharmap, TokenEnd, VerbIn, Words;
    var o := m.reader.pos.offset;
    VerbWord(Words(), m.reader.line, o) by {
      WordsProper();
    }
    var verb := VerbAt(m.reader.line, o).value;
    var end := TokenEnd(m.reader.line, o);
    match verb {
      case Wait => WaitLeaves(m, env, end);
      case Send => SendLeaves(m, env, end);
      case Set => SetLeaves(m, end);
      case Loop => LoopLeaves(m, end);
      case _ => PlainLeaves(m, end);
    }
    LeavesLast(m, verb, Command(m, env, verb).value);
  }

  lemma LeavesLast(m: Machine, verb: Verb, t: Machine)
    requires Leaves(m, verb, t)
    ensures Leaves(m, verb, t.(last := Some(verb)))
  {
    hide Strings;
  }

  lemma EndsInOne(requests: seq<Request>, q: Request)
    ensures EndsIn(requests + [q], [q])
  {
  }

  lemma StepAttends(m: Machine, env: Env)
    requires Sound(m) && Proper(m.reader) && Step(m, env).Go? && PortOk(m) && Attending(m) && Running(m)
    ensures Attending(Step(m, env).value)
  {
    hide Sound, Eat, Dispatch, Proper, ParseLabel, CheckLoop, Ready, Eaten, Strings, CarriageReturns, Onward, EndsIn;
    StepCases(m, env);
    ReadyPort(m);
    ReadyKeeps(m);
    var m1 := Ready(m).(reader := Eat(Ready(m).reader).value);
    LabelRound(m1);
    LoopRound(m1);
    if !ParseLabel(m1).value.1 && !CheckLoop(m1).1 {
      DispatchLeaves(m1, env);
      var t := Dispatch(m1, env).value;
      if t.readPending && !t.terminalPending {
        EndsInOne(m1.requests, ReadPort(if m1.login == FirstWait then Least(t.loginTimeout) else t.loginTimeout));
      }
    }
  }

  // ---------- moves ----------

  lemma EndsInMore(requests: seq<Request>, last: seq<Request>, q: Request)
    requires EndsIn(requests, last)
    ensures EndsIn(requests + [q], last + [q])
  {
  }

  lemma WriteAttends(m: Machine, error: Option<Error>)
    requires Attending(m) && m.writePending && m.finished.None?
    ensures Attending(CompletedWrite(m.(writePending := false), error))
  {
    hide Strings, EndsIn;
    if m.login == SendingCR && !m.terminalPending {
      EndsInMore(m.requests, Asked(m), ReadPort(m.loginTimeout));
      assert Asked(m) + [ReadPort(m.loginTimeout)] == Asked(m.(login := SecondWait));
    }
  }

  lemma ReadAttends(m: Machine, error: Error)
    requires Attending(m) && m.readPending && m.finished.None?
    ensures Attending(CompletedRead(m.(readPending := false), error))
  {
    hide Strings, EndsIn;
    if m.login == FirstWait && !m.terminalPending {
      EndsInMore(m.requests, Asked(m), WriteCR);
      assert Asked(m) + [WriteCR] == Asked(m.(login := SendingCR));
    }
  }

  lemma ArrivedAttends(m: Machine, env: Env, status: IoStatus, rx: seq<Chat.Byte>)
    requires Attending(m) && m.readPending && m.finished.None? && AfterRead(m, env, status, rx).Go?
    ensures Attending(AfterRead(m, env, status, rx).value)
  {
    hide Strings, EndsIn, Chat.ScanAll, FindLabel, CompletedRead;
    ReadAttends(m, CommsError);
    if status.OtherError? {
      ReadAttends(m, ExitCode(status.code));
    }
  }

  lemma TakeAttends(m: Machine, env: Env, move: Move)
    requires Sound(m) && PortOk(m) && Proper(m.reader) && Attending(m) && Take(m, env, move).Go?
    ensures Attending(Take(m, env, move).value)
  {
    hide Sound, PortOk, Step, Proper, CompletedRead, CompletedWrite, AfterRead, Attending;
    match move
    case Round =>
      ProperFits(m.reader);
      if Running(m) {
        if Step(m, env).Go? {
          StepAttends(m, env);
        } else {
          FinishedAttends(m, Step(m, env).error);
        }
      }
    case WriteDone(status) =>
      if m.finished.None? && m.writePending {
        WriteAttends(m, None);
        WriteAttends(m, Some(CommsError));
        if status.OtherError? {
          WriteAttends(m, Some(ExitCode(status.code)));
        }
      }
    case Arrived(status, rx) =>
      if m.finished.None? && m.readPending {
        ArrivedAttends(m, env, status, rx);
      }
    case Timeout =>
      if m.finished.None? && m.writePending {
        WriteAttends(m, Some(TimedOut));
      } else if m.finished.None? && m.readPending {
        ReadAttends(m, TimedOut);
      }
  }

  lemma FinishedAttends(m: Machine, error: Error)
    ensures Attending(Finish(m, error))
  {
  }

  lemma {:induction false} RunAttends(m: Machine, env: Env, moves: seq<Move>)
    requires Sound(m) && PortOk(m) && Attending(m) && Run(m, env, moves).Go?
    ensures Attending(Run(m, env, moves).value)
    decreases |moves|
  {
    hide Sound, PortOk, Take, Proper, Attending;
    if moves != [] {
      SoundProper(m);
      TakeSound(m, env, moves[0]);
      TakeAttends(m, env, moves[0]);
      RunAttends(Take(m, env, moves[0]).value, env, moves[1..]);
    }
  }

  // ---------- what is promised ----------

  /** Only these fields of the machine differ. */
  ghost predicate OnlyPort(m: Machine, t: Machine) {
    t == m.(login := t.login, readPending := t.readPending, writePending := t.writePending, requests := t.requests)
  }

  /** Nothing is written and no round is run; the same strings are looked for. */
  ghost predicate StillWaits(m: Machine, t: Machine) {
    t.finished.None? && !Running(t) && Looking(t) && t.waits == m.waits && t.loginTimeout == m.loginTimeout
  }

  /**
   Over every run, while the script has not ended and does not read the terminal. A wait asks
   the port for its period, the very first one for thirty seconds at most. If the very
   first one times out, one carriage return is written and nothing else; while it is being
   written, and until the read behind it has ended, no round is run. When it has been
   written, or its write has timed out, the port is asked again, for the period written in
   the WAIT, and its strings are still looked for. If that read times out too, or any later
   wait does, nothing is sent and the script goes on behind the WAIT.
  */
  lemma PromptIsAskedForTwice(script: string, vars: seq<Variable>, env: Env, moves: seq<Move>, status: IoStatus)
    requires script != "" && Played(script, vars, env, moves).Go?
    ensures var m := Played(script, vars, env, moves).value; Fits(m.reader) && Retries(m, env, status)
  {
    hide Sound, PortOk, Take, Run, Started;
    StartedSound(script, vars);
    assert Attending(Started(script, vars)) by {
      StartedAttends(script, vars);
    }
    RunSound(Started(script, vars), env, moves);
    RunAttends(Started(script, vars), env, moves);
    var m := Played(script, vars, env, moves).value;
    SoundProper(m);
    ProperFits(m.reader);
    AttendingRetries(m, env, status);
  }

  lemma StartedAttends(script: string, vars: seq<Variable>)
    requires script != ""
    ensures Attending(Started(script, vars))
  {
  }

  ghost predicate Retries(m: Machine, env: Env, status: IoStatus)
    requires Fits(m.reader)
  {
    m.finished.None? && !m.terminalPending ==>
      && (m.readPending ==>
            && StillWaits(m, m)
            && EndsIn(m.requests, Asked(m))
            && Take(m, env, Timeout).Go?
            && var t := Take(m, env, Timeout).value;
               OnlyPort(m, t) && !t.readPending
               && (if m.login == FirstWait then
                     t.login == SendingCR && t.requests == m.requests + [WriteCR] && StillWaits(m, t)
                   else t.login == Deactivated && t.requests == m.requests && Running(t)))
      && (m.login == SendingCR ==>
            && StillWaits(m, m) && m.writePending && Take(m, env, Round) == Go(m)
            && (status == Fine || status == FrameError ==>
                  Take(m, env, WriteDone(status)) == Take(m, env, Timeout))
            && Take(m, env, Timeout).Go?
            && var t := Take(m, env, Timeout).value;
               OnlyPort(m, t) && t.login == SecondWait && t.readPending && !t.writePending
               && t.requests == m.requests + [ReadPort(m.loginTimeout)] && StillWaits(m, t))
      && (m.login == SecondWait ==> m.readPending && Take(m, env, Round) == Go(m))
  }

  lemma AttendingRetries(m: Machine, env: Env, status: IoStatus)
    requires Fits(m.reader) && Attending(m)
    ensures Retries(m, env, status)
  {
    hide EndsIn, Strings, Step;
  }

  // ---------- how the port ends a script, and what an ended script does ----------

  /** A script that has ended has nothing pending and looks for nothing. */
  ghost predicate Quiet(m: Machine) {
    m.finished.Some? ==> !m.readPending && !m.writePending && m.chat == [] && !m.loop
  }

  lemma FinishQuiet(m: Machine, error: Error)
    ensures Quiet(Finish(m, error)) && Finish(m, error).finished == Some(error)
    ensures Finish(m, error).requests == m.requests && Finish(m, error).vars == m.vars
  {
  }

  lemma StepQuiet(m: Machine, env: Env)
    requires Sound(m) && Proper(m.reader) && m.finished.None?
    ensures Step(m, env).Go? ==> Step(m, env).value.finished.None?
  {
    hide Sound, Proper, Step;
    ProperFits(m.reader);
    if Step(m, env).Go? {
      StepLabels(m, env);
    }
  }

  /** A move of an ended script changes nothing, and a script that ends falls quiet. */
  lemma TakeQuiet(m: Machine, env: Env, move: Move)
    requires Sound(m) && Proper(m.reader) && Quiet(m) && Take(m, env, move).Go?
    ensures Quiet(Take(m, env, move).value)
    ensures m.finished.Some? ==> Take(m, env, move).value == m
  {
    hide Sound, Step, Proper, Chat.ScanAll, FindLabel;
    ProperFits(m.reader);
    if m.finished.None? {
      StepQuiet(m, env);
      hide Finish, Quiet;
      forall x: Machine, error | true ensures Quiet(Finish(x, error)) {
        FinishQuiet(x, error);
      }
      NothingEnded(m);
    }
  }

  lemma NothingEnded(m: Machine)
    ensures forall x: Machine :: x.finished.None? ==> Quiet(x)
  {
  }

  lemma {:induction false} RunQuiet(m: Machine, env: Env, moves: seq<Move>)
    requires Sound(m) && PortOk(m) && Quiet(m) && Run(m, env, moves).Go?
    ensures Quiet(Run(m, env, moves).value)
    decreases |moves|
  {
    hide Sound, PortOk, Take, Proper, Quiet;
    if moves != [] {
      SoundProper(m);
      TakeSound(m, env, moves[0]);
      TakeQuiet(m, env, moves[0]);
      RunQuiet(Take(m, env, moves[0]).value, env, moves[1..]);
    }
  }

  /** What the port reports, and what becomes of the script. */
  ghost predicate Ends(m: Machine, t: Machine, error: Error) {
    t.finished == Some(error) && t.requests == m.requests && t.vars == m.vars && Quiet(t)
  }

  /**
   Over every run. A script that has ended is quiet and stays as it is. As long as it has not:
   an error of a write ends it with that error; so does an error of a read, but for a
   failing line, behind which the script goes on without a further request. Framing errors
   are ignored, a write that is done lets the script go on, and what arrives while the
   terminal is being read is no string of a WAIT.
  */
  lemma PortDecides(script: string, vars: seq<Variable>, env: Env, moves: seq<Move>, code: int, rx: seq<Chat.Byte>,
                    move: Move)
    requires script != "" && Played(script, vars, env, moves).Go?
    ensures var m := Played(script, vars, env, moves).value; Fits(m.reader) && Decides(m, env, code, rx, move)
  {
    hide Sound, PortOk, Take, Run, Started, Decides;
    StartedSound(script, vars);
    StartedQuiet(script, vars);
    RunSound(Started(script, vars), env, moves);
    RunQuiet(Started(script, vars), env, moves);
    var m := Played(script, vars, env, moves).value;
    SoundProper(m);
    ProperFits(m.reader);
    QuietDecides(m, env, code, rx, move);
  }

  lemma StartedQuiet(script: string, vars: seq<Variable>)
    requires script != ""
    ensures Quiet(Started(script, vars))
  {
  }

  ghost predicate Decides(m: Machine, env: Env, code: int, rx: seq<Chat.Byte>, move: Move)
    requires Fits(m.reader)
  {
    && (m.finished.Some? ==>
          !m.readPending && !m.writePending && m.chat == [] && !m.loop && Take(m, env, move) == Go(m))
    && (Running(m) && Step(m, env).Stop? ==>
          Take(m, env, Round).Go? && Ends(m, Take(m, env, Round).value, Step(m, env).error))
    && (m.finished.None? && m.writePending ==> WriteDecides(m, env, code))
    && (m.finished.None? && m.readPending ==> ReadDecides(m, env, code, rx))
  }

  ghost predicate WriteDecides(m: Machine, env: Env, code: int)
    requires Fits(m.reader)
  {
    && Take(m, env, WriteDone(OtherError(code))).Go?
    && Ends(m, Take(m, env, WriteDone(OtherError(code))).value, ExitCode(code))
    && Take(m, env, WriteDone(LineFail)).Go?
    && Ends(m, Take(m, env, WriteDone(LineFail)).value, CommsError)
    && Take(m, env, WriteDone(FrameError)) == Take(m, env, WriteDone(Fine))
    && (m.login != SendingCR ==> Take(m, env, WriteDone(Fine)) == Go(m.(writePending := false)))
  }

  ghost predicate ReadDecides(m: Machine, env: Env, code: int, rx: seq<Chat.Byte>)
    requires Fits(m.reader)
  {
    && Take(m, env, Arrived(OtherError(code), rx)).Go?
    && Ends(m, Take(m, env, Arrived(OtherError(code), rx)).value, ExitCode(code))
    && Take(m, env, Arrived(LineFail, rx)) == Go(m.(readPending := false, login := Deactivated))
    && Take(m, env, Arrived(FrameError, rx)) == Take(m, env, Arrived(Fine, rx))
    && (m.terminalPending ==> Take(m, env, Arrived(Fine, rx)) == Go(m))
  }

  lemma QuietDecides(m: Machine, env: Env, code: int, rx: seq<Chat.Byte>, move: Move)
    requires Fits(m.reader) && Quiet(m)
    ensures Decides(m, env, code, rx, move)
  {
    hide Step, Chat.ScanAll, Strings, WriteDecides, ReadDecides;
    if m.finished.None? && m.writePending {
      WritesDecide(m, env, code);
    }
    if m.finished.None? && m.readPending {
      ReadsDecide(m, env, code, rx);
    }
  }

  lemma WritesDecide(m: Machine, env: Env, code: int)
    requires Fits(m.reader) && m.finished.None? && m.writePending
    ensures WriteDecides(m, env, code)
  {
    hide Step, Strings;
  }

  lemma ReadsDecide(m: Machine, env: Env, code: int, rx: seq<Chat.Byte>)
    requires Fits(m.reader) && m.finished.None? && m.readPending
    ensures ReadDecides(m, env, code, rx)
  {
    hide Step, Chat.ScanAll, Strings;
  }

  // ---------- the first wait, and what is left of a wait ----------

  /** Something has been waited for. */
  ghost predicate HasRead(requests: seq<Request>) {
    exists i :: 0 <= i < |requests| && (requests[i].ReadPort? || requests[i].ReadTerminal?)
  }

  /** Until something has been waited for, the next wait is the first one; nothing is being read. */
  ghost predicate Fresh(m: Machine) {
    m.login != FirstWait || m.readPending ==> HasRead(m.requests)
  }

  lemma HasReadMore(requests: seq<Request>, more: seq<Request>)
    requires requests <= more && HasRead(requests)
    ensures HasRead(more)
  {
  }

  lemma HasReadLast(requests: seq<Request>, q: Request)
    requires q.ReadPort? || q.ReadTerminal?
    ensures HasRead(requests + [q])
  {
    assert (requests + [q])[|requests|] == q;
  }

  lemma StepFresh(m: Machine, env: Env)
    requires Sound(m) && Proper(m.reader) && Step(m, env).Go? && PortOk(m) && Fresh(m) && Running(m)
    ensures Fresh(Step(m, env).value)
  {
    hide Sound, Eat, Dispatch, Proper, ParseLabel, CheckLoop, Ready, Eaten, Strings, CarriageReturns, Onward, HasRead;
    StepCases(m, env);
    ReadyPort(m);
    ReadyKeeps(m);
    var m1 := Ready(m).(reader := Eat(Ready(m).reader).value);
    LabelRound(m1);
    LoopRound(m1);
    if !ParseLabel(m1).value.1 && !CheckLoop(m1).1 {
      DispatchLeaves(m1, env);
      var t := Dispatch(m1, env).value;
      if HasRead(m1.requests) {
        HasReadMore(m1.requests, t.requests);
      }
      if t.readPending {
        var n := |t.requests| - 1;
        HasReadLast(t.requests[..n], t.requests[n]);
        assert t.requests[..n] + [t.requests[n]] == t.requests;
      }
    }
  }

  lemma TakeFresh(m: Machine, env: Env, move: Move)
    requires Sound(m) && PortOk(m) && Proper(m.reader) && Fresh(m) && Take(m, env, move).Go?
    ensures Fresh(Take(m, env, move).value)
  {
    hide Sound, PortOk, Step, Proper, HasRead, Chat.ScanAll, FindLabel, Strings;
    ProperFits(m.reader);
    if move == Round {
      if Running(m) && Step(m, env).Go? {
        StepFresh(m, env);
      }
    } else if HasRead(m.requests) {
      MoveRequests(m, env, move);
      HasReadMore(m.requests, Take(m, env, move).value.requests);
    }
  }

  lemma MoveRequests(m: Machine, env: Env, move: Move)
    requires move != Round && Fits(m.reader) && Take(m, env, move).Go?
    ensures m.requests <= Take(m, env, move).value.requests
  {
    hide Chat.ScanAll, GotoLabel, CompletedRead, CompletedWrite, Step;
    forall x: Machine, error ensures x.requests <= CompletedRead(x, error).requests {
      ReadRequests(x, error);
    }
    forall x: Machine, error ensures x.requests <= CompletedWrite(x, error).requests {
      WriteRequests(x, error);
    }
    forall x: Machine, name: string | GotoLabel(x, name).Go? ensures GotoLabel(x, name).value.requests == x.requests {
      GotoRequests(x, name);
    }
  }

  lemma ReadRequests(m: Machine, error: Error)
    ensures m.requests <= CompletedRead(m, error).requests
  {
    hide Finish;
    FinishQuiet(m.(login := Deactivated), error);
  }

  lemma WriteRequests(m: Machine, error: Option<Error>)
    ensures m.requests <= CompletedWrite(m, error).requests
  {
    hide Finish;
    if error.Some? {
      FinishQuiet(m, error.value);
    }
  }

  lemma GotoRequests(m: Machine, name: string)
    requires GotoLabel(m, name).Go?
    ensures GotoLabel(m, name).value.requests == m.requests
  {
    hide FindLabel;
  }

  lemma {:induction false} RunFresh(m: Machine, env: Env, moves: seq<Move>)
    requires Sound(m) && PortOk(m) && Fresh(m) && Run(m, env, moves).Go?
    ensures Fresh(Run(m, env, moves).value)
    decreases |moves|
  {
    hide Sound, PortOk, Take, Proper, Fresh;
    if moves != [] {
      SoundProper(m);
      TakeSound(m, env, moves[0]);
      TakeFresh(m, env, moves[0]);
      RunFresh(Take(m, env, moves[0]).value, env, moves[1..]);
    }
  }

  /**
   Over every run: as long as the script has waited for nothing, its next wait counts as the first
   one; and the round behind a WAIT starts with nothing pending, no strings and no labels left.
  */
  lemma FirstWaitIsFirst(script: string, vars: seq<Variable>, env: Env, moves: seq<Move>)
    requires script != "" && Played(script, vars, env, moves).Go?
    ensures var m := Played(script, vars, env, moves).value;
            && (!HasRead(m.requests) ==> m.login == FirstWait)
            && (m.last == Some(Wait) && !m.reader.skip ==>
                  var t := Ready(m); t.waits == [] && t.chat == [] && !t.readPending && !t.writePending)
  {
    hide Sound, PortOk, Take, Run, HasRead;
    StartedSound(script, vars);
    RunFresh(Started(script, vars), env, moves);
  }
}
