/**
 Labels and the places in the script where they stand. Jumps restore positions but not
 texts, so a label is recorded where it stands only if the jumps of the run leave
 nothing on the line that they jump from.
*/
module ScriptLabels {
  import opened Wrappers
  import opened ScriptText
  import opened ScriptReader
  import opened ScriptStores
  import opened ScriptExpressions
  import opened ScriptMachine
  import opened ScriptSteps
  import opened ScriptRuns
  import opened ScriptLines
  import opened ScriptProgress
  import opened ScriptLoops
  import opened ScriptPort
  import Chat

  // ---------- places ----------

  /** The place in the script behind the colon of a recorded label. */
  function Place(pos: LinePosition): nat {
    pos.start + pos.offset
  }

  /** The label stands in the script where its position says: its name, a colon, and the recorded place. */
  ghost predicate Recorded(script: string, l: Label) {
    && Placed(script, l.pos, BASE)
    && |l.name| < l.pos.offset <= l.pos.length
    && Place(l.pos) <= |script|
    && script[Place(l.pos) - 1] == ':'
    && Fold(script[Place(l.pos) - 1 - |l.name|..Place(l.pos) - 1]) == l.name
  }

  ghost predicate AllRecorded(m: Machine) {
    forall i :: 0 <= i < |m.labels| ==> Recorded(m.reader.script, m.labels[i])
  }

  /** Places within lines are the same exactly when line and offset are. */
  lemma PlaceNames(script: string, a: LinePosition, b: LinePosition)
    requires Placed(script, a, BASE) && Placed(script, b, BASE)
    requires 0 < a.offset <= a.length && 0 < b.offset <= b.length
    ensures Place(a) == Place(b) <==> a.start == b.start && a.offset == b.offset
  {
    if a.start < b.start {
      LinesApart(script, a.start, b.start);
    } else if b.start < a.start {
      LinesApart(script, b.start, a.start);
    }
  }

  /** A line ends where the next one starts, or before. */
  lemma LinesApart(script: string, p: nat, q: nat)
    requires p < q < |script| && Boundary(script, q)
    ensures p + LineLength(script, p) <= q
  {
  }

  // ---------- tidy runs ----------

  /** A round that goes back leaves nothing on the line it goes back from. */
  ghost predicate TidyRound(m: Machine, env: Env)
    requires Fits(m.reader)
  {
    (TurnsBack(m) || Closes(m)) && Step(m, env).Go? ==> InStep(Step(m, env).value.reader)
  }

  /**
   A round of a machine whose text is that of its position, or has nothing left, reads
   its command from its own line.
  */
  lemma TidyStep(m: Machine, env: Env)
    requires Sound(m) && Proper(m.reader) && Step(m, env).Go? && InStep(m.reader) && TidyRound(m, env)
    ensures InStep(Step(m, env).value.reader)
    ensures Fits(Ready(m).reader) && Eat(Ready(m).reader).Go? && Synced(Eat(Ready(m).reader).value)
  {
    hide Sound, Step, Eat, Dispatch, Proper, ParseLabel, CheckLoop, JumpsBack, Ready, NothingFrom, Reached, Synced;
    StepText(m, env);
    ReadySound(m);
    ReadyKeeps(m);
    var m0 := Ready(m);
    var m1 := m0.(reader := Eat(m0.reader).value);
    var t := Step(m, env).value;
    SameInStep(m.reader, m0.reader);
    EatSynced(m0.reader);
    var r := t.reader.(toggle := m1.reader.toggle);
    if Reached(m1.reader, r) {
      ReachedSynced(m1.reader, r);
      SameInStep(r, t.reader);
    }
  }

  lemma SameInStep(r: Reader, t: Reader)
    requires InStep(r) && t.script == r.script && t.line == r.line && t.pos == r.pos
    ensures InStep(t)
  {
  }

  // ---------- recording a label ----------

  /** A label stands at the next command. */
  predicate AtLabel(r: Reader)
    requires Eaten(r)
  {
    var end := TokenEnd(r.line, r.pos.offset); end < |r.line| && r.line[end] == ':'
  }

  function NameAt(r: Reader): string
    requires Eaten(r) && AtLabel(r)
  {
    r.line[r.pos.offset..TokenEnd(r.line, r.pos.offset)]
  }

  /** The place behind the colon, if the text is that of the line at the position. */
  function PlaceAt(r: Reader): nat
    requires Eaten(r) && AtLabel(r)
  {
    r.pos.start + TokenEnd(r.line, r.pos.offset) + 1
  }

  /** In a text that is that of its position the label stands in the script where it is recorded. */
  lemma RecordedHere(r: Reader)
    requires Eaten(r) && AtLabel(r) && Synced(r) && Placed(r.script, r.pos, BASE)
    ensures Recorded(r.script, Label(Fold(NameAt(r)), r.pos.(offset := TokenEnd(r.line, r.pos.offset) + 1)))
    ensures TokenEnd(r.line, r.pos.offset) + 1 <= r.pos.length
  {
    hide LineLength, Boundary, LineIndex;
    var end := TokenEnd(r.line, r.pos.offset);
    PlacedOffset(r.script, r.pos, end + 1);
    var name := NameAt(r);
    assert r.script[r.pos.start + r.pos.offset..r.pos.start + end] == name;
    assert r.script[r.pos.start + end] == r.line[end];
  }

  /**
   A label is accepted exactly if its name is new or was recorded at this very place of
   the script, whether it is met for the first time or again; a name that was recorded
   at another place ends the script.
  */
  lemma LabelAcceptedAtItsPlace(m: Machine)
    requires Sound(m) && Proper(m.reader) && Eaten(m.reader) && AtLabel(m.reader) && Synced(m.reader) && AllRecorded(m)
    requires |NameAt(m.reader)| <= KMaxLabelLength
    ensures var known := FindLabel(m.labels, NameAt(m.reader));
            if known.None? || Place(known.value) == PlaceAt(m.reader)
            then ParseLabel(m).Go? && ParseLabel(m).value.1 && AllRecorded(ParseLabel(m).value.0)
            else ParseLabel(m) == Stop(AlreadyExists)
  {
    hide Placed, TokenEnd, OffsetsIn, Recorded, Synced, AddLabel, FindLabel;
    var end := TokenEnd(m.reader.line, m.reader.pos.offset);
    var pos := m.reader.pos.(offset := end + 1);
    PlacedOffset(m.reader.script, m.reader.pos, end + 1);
    RecordedHere(m.reader);
    LabelsNamePlaces(m.reader.script, m.labels, NameAt(m.reader), pos, BASE);
    LabelGrows(m.labels, NameAt(m.reader), pos);
    KnownPlace(m, NameAt(m.reader), pos);
  }

  lemma LabelGrows(labels: seq<Label>, name: string, pos: LinePosition)
    ensures var r := AddLabel(labels, name, pos);
            r.Ok? ==> r.value == labels || r.value == labels + [Label(Fold(name), pos)]
  {
  }

  /** A known label has the given place exactly if it was recorded on that line at that offset. */
  lemma KnownPlace(m: Machine, name: string, pos: LinePosition)
    requires AllRecorded(m) && Placed(m.reader.script, pos, BASE) && 0 < pos.offset <= pos.length
    ensures var known := FindLabel(m.labels, name);
            known.Some? ==> (Place(known.value) == Place(pos)
              <==> known.value.start == pos.start && known.value.offset == pos.offset)
  {
    hide Placed;
    var i := LabelAt(m.labels, name);
    if i < |m.labels| {
      assert Recorded(m.reader.script, m.labels[i]);
      PlaceNames(m.reader.script, m.labels[i].pos, pos);
    }
  }

  // ---------- which rounds are tidy ----------

  /** Where the label name of a GOTO ends. */
  function GotoEnd(r: Reader): nat
    requires Eaten(r)
  {
    TokenEnd(r.line, EatSpaces(r.line, TokenEnd(r.line, r.pos.offset)))
  }

  /** A GOTO back that ends its line is tidy. */
  lemma GotoEndingLineIsTidy(m: Machine, env: Env)
    requires Sound(m) && Proper(m.reader) && TurnsBack(m) && Step(m, env).Go?
    requires NothingFrom(Start(m).value.line, GotoEnd(Start(m).value))
    ensures TidyRound(m, env)
  {
    hide Sound, Eat, ParseLabel, CheckLoop, NothingFrom, CleanUp, ServiceSkip, JumpsBack, Eaten;
    StepCases(m, env);
    ReadyKeeps(m);
    EatFlags(Ready(m).reader);
    var m1 := Ready(m).(reader := Start(m).value);
    JumpShape(m1, env);
    JumpEnd(m1, env);
  }

  lemma JumpEnd(m: Machine, env: Env)
    requires Eaten(m.reader) && JumpsBack(m) && Dispatch(m, env).Go?
    ensures Dispatch(m, env).value.reader.pos.offset == GotoEnd(m.reader)
  {
    hide EatSpaces, TokenEnd, VerbAt, FindLabel;
  }

  /** A closing brace alone on its line, left of the place behind the opening one, is tidy. */
  lemma ClosingBraceIsTidy(m: Machine, env: Env)
    requires Sound(m) && Proper(m.reader) && m.loop && !Skipping(m) && Closes(m)
            && BraceStands(m, m.loopPos.offset, true)
    ensures TidyRound(m, env)
  {
    hide Sound, Eat, NothingFrom, Step, Closes, CheckLoop, Proper;
    ProperFits(m.reader);
    ClosingGoes(m, env);
    ReadyKeeps(m);
    EatFlags(Ready(m).reader);
    var r := Start(m).value;
    ClosingRound(Ready(m).(reader := r));
    LoopStep(m, env);
    SkipsAll(r.line, m.loopPos.offset);
    NothingBehindBrace(r.line, r.pos.offset);
    NothingIs(r.line, m.loopPos.offset);
  }

  lemma NothingIs(line: string, o: nat)
    requires EatSpaces(line, o) >= |line|
    ensures NothingFrom(line, o)
  {
  }

  // ---------- over runs ----------

  /** The move goes back only from lines that it leaves nothing on. */
  ghost predicate Tidy(m: Machine, env: Env, move: Move)
    requires Fits(m.reader)
  {
    match move
    case Round => Running(m) ==> TidyRound(m, env)
    case Arrived(_, _) =>
      var f := Take(m, env, move);
      f.Go? && f.value.reader.pos != m.reader.pos ==> NothingFrom(f.value.reader.line, f.value.reader.pos.offset)
    case _ => true
  }

  ghost predicate TidyRun(m: Machine, env: Env, moves: seq<Move>)
    requires Sound(m) && PortOk(m)
    decreases |moves|
  {
    moves != [] ==>
      && (SoundProper(m); Tidy(m, env, moves[0]))
      && (Take(m, env, moves[0]).Go? ==>
            (TakeSound(m, env, moves[0]); TidyRun(Take(m, env, moves[0]).value, env, moves[1..])))
  }

  /** A tidy round keeps labels where they stand. */
  lemma TidyRoundRecords(m: Machine, env: Env)
    requires Sound(m) && Proper(m.reader) && Step(m, env).Go? && InStep(m.reader) && AllRecorded(m) && TidyRound(m, env)
    ensures InStep(Step(m, env).value.reader) && AllRecorded(Step(m, env).value)
  {
    hide Sound, Eat, Dispatch, Proper, ParseLabel, CheckLoop, JumpsBack, Ready, NothingFrom, Reached, Synced, Recorded,
      Onward;
    TidyStep(m, env);
    StepCases(m, env);
    StepScript(m, env);
    ReadyKeeps(m);
    var m1 := Ready(m).(reader := Eat(Ready(m).reader).value);
    EatFlags(Ready(m).reader);
    if ParseLabel(m1).value.1 {
      LabelIsAt(m1);
      LabelAcceptedAtItsPlace(m1);
    } else if CheckLoop(m1).1 {
      LoopRound(m1);
    } else {
      DispatchLabels(m1, env);
    }
  }

  lemma LabelIsAt(m: Machine)
    requires Eaten(m.reader) && ParseLabel(m).Go? && ParseLabel(m).value.1
    ensures AtLabel(m.reader) && |NameAt(m.reader)| <= KMaxLabelLength
  {
    hide TokenEnd, FindLabel;
  }

  /** What is not a round that goes on keeps the labels and the text, and the position unless a string was found. */
  lemma TakeText(m: Machine, env: Env, move: Move)
    requires Fits(m.reader) && Take(m, env, move).Go?
    ensures var t := Take(m, env, move).value;
            || (move == Round && Running(m) && Step(m, env) == Go(t))
            || (t.labels == m.labels && t.reader.script == m.reader.script && t.reader.line == m.reader.line
                && (t.reader.pos != m.reader.pos ==> move.Arrived?))
  {
    hide Step, Running, Finish, CompletedWrite, CompletedRead, AfterRead;
    match move
    case Round =>
      if Step(m, env).Stop? {
        FinishText(m, Step(m, env).error);
      }
    case WriteDone(_) =>
      if m.finished.None? && m.writePending {
        WriteText(m, move.status);
      }
    case Arrived(status, rx) =>
      if m.finished.None? && m.readPending {
        ReadText(m, env, status, rx);
      }
    case Timeout =>
      TimeoutText(m);
  }

  lemma FinishText(m: Machine, error: Error)
    ensures Finish(m, error).labels == m.labels && Finish(m, error).reader == m.reader
  {
  }

  lemma WriteText(m: Machine, status: IoStatus)
    ensures AfterWrite(m, status).labels == m.labels && AfterWrite(m, status).reader == m.reader
  {
  }

  lemma TimeoutText(m: Machine)
    ensures AfterTimeout(m).labels == m.labels && AfterTimeout(m).reader == m.reader
  {
  }

  lemma ReadText(m: Machine, env: Env, status: IoStatus, rx: seq<Chat.Byte>)
    requires AfterRead(m, env, status, rx).Go?
    ensures var t := AfterRead(m, env, status, rx).value;
            t.labels == m.labels && t.reader.script == m.reader.script && t.reader.line == m.reader.line
  {
    hide Chat.ScanAll, FoundString, CompletedRead;
    var idle := m.(readPending := false);
    CompletedReadText(idle, CommsError);
    match status
    case LineFail =>
    case OtherError(code) => CompletedReadText(idle, ExitCode(code));
    case _ =>
      if !m.terminalPending && env.history > 0 {
        var scan := Chat.ScanAll(m.chat, m.received, env.history, env.fold, rx);
        if scan.found != KErrNotFound {
          FoundText(m.(received := scan.history, readPending := false), scan.found);
        }
      }
  }

  lemma CompletedReadText(m: Machine, error: Error)
    ensures CompletedRead(m, error).labels == m.labels && CompletedRead(m, error).reader == m.reader
  {
  }

  lemma FoundText(m: Machine, i: int)
    requires FoundString(m, i).Go?
    ensures var t := FoundString(m, i).value;
            t.labels == m.labels && t.reader.script == m.reader.script && t.reader.line == m.reader.line
  {
    hide FindLabel;
  }

  lemma TidyTake(m: Machine, env: Env, move: Move)
    requires Sound(m) && PortOk(m) && Proper(m.reader) && Take(m, env, move).Go?
    requires InStep(m.reader) && AllRecorded(m) && Tidy(m, env, move)
    ensures InStep(Take(m, env, move).value.reader) && AllRecorded(Take(m, env, move).value)
  {
    hide Sound, PortOk, Take, Step, NothingFrom, Synced, Recorded, Running, Proper, TidyRound;
    ProperFits(m.reader);
    TakeText(m, env, move);
    var t := Take(m, env, move).value;
    if move == Round && Running(m) && Step(m, env) == Go(t) {
      TidyRoundRecords(m, env);
    } else if t.reader.pos == m.reader.pos {
      SameInStep(m.reader, t.reader);
    }
  }

  lemma {:induction false} TidyRunRecords(m: Machine, env: Env, moves: seq<Move>)
    requires Sound(m) && PortOk(m) && InStep(m.reader) && AllRecorded(m) && TidyRun(m, env, moves)
            && Run(m, env, moves).Go?
    ensures InStep(Run(m, env, moves).value.reader) && AllRecorded(Run(m, env, moves).value)
    decreases |moves|
  {
    hide Sound, PortOk, Take, Proper, InStep, AllRecorded, Tidy;
    if moves != [] {
      SoundProper(m);
      TakeSound(m, env, moves[0]);
      TidyTake(m, env, moves[0]);
      TidyRunRecords(Take(m, env, moves[0]).value, env, moves[1..]);
    }
  }

  /** A run of a script from its start that goes back only from lines that it leaves nothing on. */
  ghost predicate PlayedTidily(script: string, vars: seq<Variable>, env: Env, moves: seq<Move>)
    requires script != ""
  {
    StartedSound(script, vars);
    TidyRun(Started(script, vars), env, moves) && Played(script, vars, env, moves).Go?
  }

  /**
   Over every tidy run of a script: each recorded label stands in the script where its
   position says, and a label met in the next round, for the first time or again, is
   accepted exactly if its name is new or was recorded at this very place of the script.
  */
  lemma LabelsKeepTheirPlaces(script: string, vars: seq<Variable>, env: Env, moves: seq<Move>)
    requires script != "" && PlayedTidily(script, vars, env, moves)
    ensures var m := Played(script, vars, env, moves).value;
            && AllRecorded(m) && m.reader.script == script && Fits(m.reader)
            && (Start(m).Go? && AtLabel(Start(m).value) && |NameAt(Start(m).value)| <= KMaxLabelLength ==>
                  var r := Start(m).value;
                  var known := FindLabel(m.labels, NameAt(r));
                  && PlaceAt(r) <= |script| && NameAt(r) == script[r.pos.start + r.pos.offset..PlaceAt(r) - 1]
                  && (if known.None? || Place(known.value) == PlaceAt(r) then Step(m, env).Go?
                     else Step(m, env) == Stop(AlreadyExists)))
  {
    hide Sound, PortOk, InStep, AllRecorded, Run, TidyRun, Started, Eat, AtLabel, NameAt, PlaceAt, Step, TidyRound;
    var start := Started(script, vars);
    StartedSound(script, vars);
    StartedInStep(script, vars);
    TidyRunRecords(start, env, moves);
    var m := Played(script, vars, env, moves).value;
    RunSound(start, env, moves);
    RunScript(start, env, moves);
    SoundProper(m);
    ProperFits(m.reader);
    if Start(m).Go? && AtLabel(Start(m).value) && |NameAt(Start(m).value)| <= KMaxLabelLength {
      NextLabel(m, env);
    }
  }

  lemma StartedInStep(script: string, vars: seq<Variable>)
    requires script != ""
    ensures var m := Started(script, vars); InStep(m.reader) && AllRecorded(m) && m.reader.script == script
  {
  }

  lemma {:induction false} RunScript(m: Machine, env: Env, moves: seq<Move>)
    requires Sound(m) && PortOk(m) && Run(m, env, moves).Go?
    ensures Run(m, env, moves).value.reader.script == m.reader.script
    decreases |moves|
  {
    hide Sound, PortOk, Take, Proper;
    if moves != [] {
      SoundProper(m);
      TakeSound(m, env, moves[0]);
      TakeScript(m, env, moves[0]);
      RunScript(Take(m, env, moves[0]).value, env, moves[1..]);
    }
  }

  lemma TakeScript(m: Machine, env: Env, move: Move)
    requires Sound(m) && Proper(m.reader) && Take(m, env, move).Go?
    ensures Take(m, env, move).value.reader.script == m.reader.script
  {
    hide Sound, Step, Take, Proper;
    ProperFits(m.reader);
    TakeText(m, env, move);
    if Step(m, env).Go? {
      StepScript(m, env);
    }
  }

  /** The label of the next round. */
  lemma NextLabel(m: Machine, env: Env)
    requires Sound(m) && Proper(m.reader) && InStep(m.reader) && AllRecorded(m)
    requires Start(m).Go? && AtLabel(Start(m).value) && |NameAt(Start(m).value)| <= KMaxLabelLength
    ensures var r := Start(m).value;
            var known := FindLabel(m.labels, NameAt(r));
            && PlaceAt(r) <= |m.reader.script|
               && NameAt(r) == m.reader.script[r.pos.start + r.pos.offset..PlaceAt(r) - 1]
            && (if known.None? || Place(known.value) == PlaceAt(r) then Step(m, env).Go?
               else Step(m, env) == Stop(AlreadyExists))
  {
    hide Sound, Eat, Proper, Ready, NothingFrom, ParseLabel, AtLabel, NameAt, PlaceAt, Recorded, Synced, Placed,
      FindLabel;
    ReadySound(m);
    ReadyKeeps(m);
    var m0 := Ready(m);
    SameInStep(m.reader, m0.reader);
    EatSynced(m0.reader);
    EatSound(m0);
    EatFlags(m0.reader);
    var m1 := m0.(reader := Start(m).value);
    SoundPlaced(m1);
    LabelAcceptedAtItsPlace(m1);
    LabelText(m1.reader);
    StepParses(m, env);
  }

  lemma LabelText(r: Reader)
    requires Eaten(r) && AtLabel(r) && Synced(r)
    ensures PlaceAt(r) <= |r.script| && NameAt(r) == r.script[r.pos.start + r.pos.offset..PlaceAt(r) - 1]
  {
    hide TokenEnd;
  }
}
