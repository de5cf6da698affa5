/**
 When the interpreter comes to rest: it always does unless one of its rounds never
 returns, and no round does that in a script whose WAITs are passed where they stand.
*/
module ScriptRest {
  import opened Wrappers
  import opened ScriptText
  import opened ScriptReader
  import opened ScriptStores
  import opened ScriptExpressions
  import opened ScriptMachine
  import opened ScriptSteps
  import opened ScriptRuns
  import opened ScriptLines
  import opened ScriptWaits
  import opened ScriptProgress
  import opened ScriptLoops
  import opened ScriptPort
  import opened ScriptLabels
  import opened ScriptLayout

  // ---------- rest ----------

  /**
   The end of a stretch of rounds: the script has ended, waits for the port, or has
   panicked, or the next round is one more jump back, for which there must be a label.
  */
  ghost predicate Rests(f: Flow<Machine>) {
    match f
    case Go(t) => Running(t) ==> t.labels != [] && Fits(t.reader) && TurnsBack(t)
    case Panicked => true
    case _ => false
  }

  /** The machines at which the rounds of a stretch start. */
  ghost function Stretch(m: Machine, env: Env, jumps: nat): (r: seq<Machine>)
    requires Sound(m)
    ensures forall x :: x in r ==> Sound(x) && Proper(x.reader) && Fits(x.reader)
    decreases jumps, Measure(m)[0], Measure(m)[1], Measure(m)[2], Measure(m)[3], Measure(m)[4], Measure(m)[5]
  {
    SoundProper(m);
    if !Running(m) || (TurnsBack(m) && jumps == 0) then []
    else if !Step(m, env).Go? then [m]
    else
      RoundLowers(m, env);
      [m] + Stretch(Step(m, env).value, env, if TurnsBack(m) then jumps - 1 else jumps)
  }

  /** A round that goes on keeps the invariant, and lowers the measure unless it jumps back. */
  lemma RoundLowers(m: Machine, env: Env)
    requires Sound(m) && Proper(m.reader) && Step(m, env).Go?
    ensures var t := Step(m, env).value;
            && Sound(t) && Proper(t.reader) && (forall i :: 0 <= i < 6 ==> Measure(m)[i] >= 0 && Measure(t)[i] >= 0)
            && (!TurnsBack(m) ==> Less(t, m))
    ensures var a, b := Measure(Step(m, env).value), Measure(m);
            !TurnsBack(m) ==>
              || a[0] < b[0]
              || (a[0] == b[0] && (
                    || a[1] < b[1]
                    || (a[1] == b[1] && (
                          || a[2] < b[2]
                          || (a[2] == b[2] && (
                                || a[3] < b[3]
                                || (a[3] == b[3] && (|| a[4] < b[4] || (a[4] == b[4] && a[5] < b[5])))))))))
  {
    hide Sound, Step, TurnsBack, Measure, Less, Proper;
    ProperFits(m.reader);
    StepSound(m, env);
    MeasureBounded(m);
    MeasureBounded(Step(m, env).value);
    LessIs(Step(m, env).value, m);
    if !TurnsBack(m) {
      StepProgresses(m, env);
    }
  }

  /** A stretch comes to rest exactly if each of its rounds returns. */
  lemma {:induction false} RestsExactly(m: Machine, env: Env, jumps: nat)
    requires Sound(m)
    ensures Rests(Process(m, env, jumps)) <==> forall x :: x in Stretch(m, env, jumps) ==> !Step(x, env).Hung?
    ensures !Rests(Process(m, env, jumps)) <==> Process(m, env, jumps) == Hung
    decreases jumps, Measure(m)[0], Measure(m)[1], Measure(m)[2], Measure(m)[3], Measure(m)[4], Measure(m)[5]
  {
    hide Sound, Step, TurnsBack, Measure, Less, Running, Finish, Fits, Proper;
    SoundProper(m);
    ProperFits(m.reader);
    if Running(m) {
      if TurnsBack(m) && jumps == 0 {
        TurningBackNeedsLabel(m);
      } else if Step(m, env).Go? {
        RoundLowers(m, env);
        RestsExactly(Step(m, env).value, env, if TurnsBack(m) then jumps - 1 else jumps);
      } else if Step(m, env).Stop? {
        FinishedRests(m, Step(m, env).error);
      }
    }
  }

  lemma FinishedRests(m: Machine, error: Error)
    ensures !Running(Finish(m, error))
  {
  }

  // ---------- stretches that stay in step ----------

  /** Wherever a WAIT stands in the script, its list is passed when it is read on from there. */
  ghost predicate Passed(script: string) {
    forall r: Reader :: AtPlace(script, r) ==> !NeverPassed(r)
  }

  /** A round whose command is read from its own line returns. */
  lemma RoundInStepReturns(m: Machine, env: Env)
    requires Sound(m) && Proper(m.reader) && Fits(m.reader) && InStep(m.reader) && Passed(m.reader.script)
    ensures !Step(m, env).Hung?
  {
    hide Sound, Proper, Step, Eat, AtPlace, NeverPassed, ParseLabel, CheckLoop, InStep, Ready;
    RoundReturns(m, env);
    if AtNeverPassed(m) {
      NextPlace(m);
    }
  }

  lemma {:induction false} StretchInStep(m: Machine, env: Env, jumps: nat)
    requires Sound(m) && InStep(m.reader) && forall x :: x in Stretch(m, env, jumps) ==> TidyRound(x, env)
    ensures forall x :: x in Stretch(m, env, jumps) ==> InStep(x.reader) && x.reader.script == m.reader.script
    decreases jumps, Measure(m)[0], Measure(m)[1], Measure(m)[2], Measure(m)[3], Measure(m)[4], Measure(m)[5]
  {
    hide Sound, Step, TurnsBack, Measure, Less, Running, Proper, Fits, InStep, TidyRound;
    SoundProper(m);
    ProperFits(m.reader);
    if Running(m) && !(TurnsBack(m) && jumps == 0) && Step(m, env).Go? {
      RoundLowers(m, env);
      assert m in Stretch(m, env, jumps);
      TidyStep(m, env);
      StepScript(m, env);
      StretchInStep(Step(m, env).value, env, if TurnsBack(m) then jumps - 1 else jumps);
    }
  }

  /**
   In a script whose WAITs are passed where they stand, a stretch whose rounds go back only
   from lines that they leave nothing on comes to rest.
  */
  lemma ComesToRest(m: Machine, env: Env, jumps: nat)
    requires Sound(m) && InStep(m.reader) && Passed(m.reader.script)
    requires forall x :: x in Stretch(m, env, jumps) ==> TidyRound(x, env)
    ensures Rests(Process(m, env, jumps))
  {
    hide Sound, Step, Stretch, Rests, Process, InStep, TidyRound, Passed, Proper, Fits;
    StretchInStep(m, env, jumps);
    RestsExactly(m, env, jumps);
    forall x | x in Stretch(m, env, jumps) ensures !Step(x, env).Hung? {
      RoundInStepReturns(x, env);
    }
  }

  // ---------- well laid out scripts ----------

  /** The layout keeps every round tidy, from any machine of a run on. */
  lemma {:induction false} StretchIsTidy(m: Machine, env: Env, jumps: nat)
    requires LaidOut(m)
    ensures forall x :: x in Stretch(m, env, jumps) ==> TidyRound(x, env)
    decreases jumps, Measure(m)[0], Measure(m)[1], Measure(m)[2], Measure(m)[3], Measure(m)[4], Measure(m)[5]
  {
    hide Sound, Step, TurnsBack, Measure, Less, Running, Proper, Fits, LaidOut, TidyRound;
    LaidOutSound(m);
    SoundProper(m);
    ProperFits(m.reader);
    if Running(m) && !(TurnsBack(m) && jumps == 0) {
      LaidOutRound(m, env);
      if Step(m, env).Go? {
        RoundLowers(m, env);
        StretchIsTidy(Step(m, env).value, env, if TurnsBack(m) then jumps - 1 else jumps);
      }
    }
  }

  /** In a well laid out script whose WAITs are passed where they stand, every stretch comes to rest. */
  lemma LaidOutComesToRest(m: Machine, env: Env, jumps: nat)
    requires LaidOut(m) && Passed(m.reader.script)
    ensures Rests(Process(m, env, jumps))
  {
    hide Sound, Step, Stretch, Rests, Process, Passed, TidyRound, Reads, LoopBraced, WellLaidOut, InStep;
    StretchIsTidy(m, env, jumps);
    ComesToRest(m, env, jumps);
  }

  /**
   Wherever a run of such a script has got to, whatever came from the port, the stretch of
   rounds from there comes to rest.
  */
  lemma RunsComeToRest(script: string, vars: seq<Variable>, env: Env, moves: seq<Move>, jumps: nat)
    requires script != "" && WellLaidOut(script) && Passed(script) && Played(script, vars, env, moves).Go?
    ensures var m := Played(script, vars, env, moves).value; Sound(m) && Rests(Process(m, env, jumps))
  {
    hide Sound, PortOk, WellLaidOut, Passed, Run, Started, Rests, Process, InStep, Reads, LoopBraced, PlayedTidily;
    StartedSound(script, vars);
    LaidOutRunsAreTidy(script, vars, env, moves);
    var m := Played(script, vars, env, moves).value;
    RunScript(Started(script, vars), env, moves);
    StartedInStep(script, vars);
    NeatLaidOut(m);
    LaidOutComesToRest(m, env, jumps);
  }

  lemma NeatLaidOut(m: Machine)
    requires Neat(m)
    ensures LaidOut(m) && Sound(m)
  {
  }

  // ---------- stretches that may leave step ----------

  lemma {:induction false} StretchReads(m: Machine, env: Env, jumps: nat)
    requires Sound(m) && Reads(m.reader)
    ensures forall x :: x in Stretch(m, env, jumps) ==> Reads(x.reader) && x.reader.script == m.reader.script
    decreases jumps, Measure(m)[0], Measure(m)[1], Measure(m)[2], Measure(m)[3], Measure(m)[4], Measure(m)[5]
  {
    hide Sound, Step, TurnsBack, Measure, Less, Running, Proper, Fits, Reads;
    SoundProper(m);
    ProperFits(m.reader);
    if Running(m) && !(TurnsBack(m) && jumps == 0) && Step(m, env).Go? {
      RoundLowers(m, env);
      StepReads(m, env);
      StepScript(m, env);
      StretchReads(Step(m, env).value, env, if TurnsBack(m) then jumps - 1 else jumps);
    }
  }

  /** Whatever the jumps, if a WAIT on any line is passed wherever its list goes on. */
  lemma ComesToRestOutOfStep(m: Machine, env: Env, jumps: nat)
    requires Sound(m) && Reads(m.reader) && Clear(m.reader.script)
    ensures Rests(Process(m, env, jumps))
  {
    hide Sound, Step, Stretch, Rests, Process, Reads, Clear, Proper, Fits;
    StretchReads(m, env, jumps);
    RestsExactly(m, env, jumps);
    forall x | x in Stretch(m, env, jumps) ensures !Step(x, env).Hung? {
      ClearRoundReturns(x, env);
    }
  }

  // ---------- stretches in normal mode ----------

  /** Every SET of the script names its variable. */
  ghost predicate SetsNamed(script: string) {
    forall r: Reader ::
      r.script == script && Reads(r) && Eaten(r) && VerbAt(r.line, r.pos.offset) == Some(Set) ==> NamesVariable(r)
  }

  /** A name stands behind the command word. */
  predicate NamesVariable(r: Reader)
    requires Eaten(r)
  {
    var start := EatSpaces(r.line, TokenEnd(r.line, r.pos.offset));
    start < |r.line| && TokenChar(r.line[start])
  }

  /** What SET leaves in the store. */
  lemma SetVars(m: Machine, end: nat) returns (before: Machine, name: string, value: string)
    requires end <= |m.reader.line| && DoSet(m, end).Go?
    ensures SameButTemps(m.vars, before.vars)
    ensures var start := EatSpaces(m.reader.line, end); name == m.reader.line[start..TokenEnd(m.reader.line, start)]
    ensures var after := DoSet(m, end).value.vars; after == before.vars || after == Define(before.vars, name, value)
  {
    hide Evaluate, EatSpaces, TokenEnd, Define, SameButTemps;
    var line := m.reader.line;
    var start := EatSpaces(line, end);
    name := line[start..TokenEnd(line, start)];
    var o := EatSpaces(line, EatSpaces(line, TokenEnd(line, start)) + 1);
    EvaluateInert(m, Set, o);
    before, value := Evaluate(m, Set, o).value.0, Evaluate(m, Set, o).value.1;
  }

  lemma SetNameless(m: Machine, end: nat)
    requires end <= |m.reader.line| && DoSet(m, end).Go? && Lookup(m.vars, "").None?
    requires var start := EatSpaces(m.reader.line, end); start < |m.reader.line| && TokenChar(m.reader.line[start])
    ensures Lookup(DoSet(m, end).value.vars, "").None?
  {
    hide DoSet, EatSpaces, TokenEnd, TokenChar, Lookup, Define, IsTemp, Fold;
    var before, name, value := SetVars(m, end);
    TokenGoesOn(m.reader.line, EatSpaces(m.reader.line, end));
    NoNameIsNoTemp();
    NameIsSome(name);
    DefineThenLookup(before.vars, name, value, "");
  }

  lemma TokenGoesOn(line: string, o: nat)
    requires o < |line| && TokenChar(line[o])
    ensures TokenEnd(line, o) > o
  {
  }

  lemma NameIsSome(name: string)
    requires name != ""
    ensures Fold("") != Fold(name)
  {
    assert |Fold(name)| > 0;
  }

  lemma WaitNameless(m: Machine, env: Env, end: nat)
    requires Proper(m.reader) && m.reader.pos.offset < end <= |m.reader.line| && !m.reader.skip
            && Lookup(m.vars, "").None?
    ensures !DoWait(m, env, end).Hung?
    ensures DoWait(m, env, end).Go? ==> Lookup(DoWait(m, env, end).value.vars, "").None?
  {
    hide OpenBrace, WaitItems, Forward, ParseReal, Lookup, IsTemp;
    if ParseReal(m.reader.line, end).Ok? {
      var o := ParseReal(m.reader.line, end).value.1;
      BraceReturns(m, o);
      if OpenBrace(m, o).Go? {
        OpenBraceShape(m, o);
        var t := OpenBrace(m, o).value;
        ForwardFlags(m.reader, t.reader);
        NormalListPassed(t, env, []);
        if WaitItems(t, env, []).Go? {
          WaitItemsShape(t, env, []);
          NoNameIsNoTemp();
        }
      }
    }
  }

  lemma BraceReturns(m: Machine, o: nat)
    requires Fits(m.reader)
    ensures !OpenBrace(m, o).Hung?
  {
  }

  lemma SendNameless(m: Machine, env: Env, end: nat)
    requires DoSend(m, env, end).Go? && Lookup(m.vars, "").None?
    ensures Lookup(DoSend(m, env, end).value.vars, "").None?
  {
    hide Evaluate, EatSpaces, Convert, Lookup, IsTemp;
    EvaluateInert(m, Send, EatSpaces(m.reader.line, end));
    NoNameIsNoTemp();
  }

  lemma OthersNameless(m: Machine, end: nat)
    requires end <= |m.reader.line| && Fits(m.reader) && !m.reader.skip
    ensures DoGoto(m, end).Go? ==> DoGoto(m, end).value.vars == m.vars
    ensures DoRead(m, end).Go? ==> DoRead(m, end).value.vars == m.vars
    ensures DoDtr(m, end).Go? ==> DoDtr(m, end).value.vars == m.vars
    ensures DoCharmap(m, end).Go? ==> DoCharmap(m, end).value.vars == m.vars
    ensures DoLoop(m, end).Go? ==> DoLoop(m, end).value.vars == m.vars
    ensures !DoExit(m, end).Go?
  {
    hide Compound, EatSpaces, TokenEnd, FindLabel, IsWord, CharacterType, ParseInteger, Eat, Signed;
  }

  /** A command in normal mode returns, and defines no variable without a name. */
  lemma DispatchNameless(m: Machine, env: Env)
    requires Eaten(m.reader) && Proper(m.reader) && !m.reader.skip && Lookup(m.vars, "").None?
    requires VerbAt(m.reader.line, m.reader.pos.offset) == Some(Set) ==> NamesVariable(m.reader)
    ensures !Dispatch(m, env).Hung?
    ensures Dispatch(m, env).Go? ==> Lookup(Dispatch(m, env).value.vars, "").None?
  {
    hide DoSet, DoSend, DoWait, DoLoop, DoGoto, DoRead, DoExit, DoDtr, DoCharmap, TokenEnd, VerbIn, Words, Lookup;
    var o := m.reader.pos.offset;
    if VerbAt(m.reader.line, o).Some? {
      VerbWord(Words(), m.reader.line, o) by {
        WordsProper();
      }
      var end := TokenEnd(m.reader.line, o);
      SendReturns(m, env, end);
      SetReturns(m, end);
      PlainReturn(m, end);
      WaitNameless(m, env, end);
      OthersNameless(m, end);
      if DoSend(m, env, end).Go? {
        SendNameless(m, env, end);
      }
      if VerbAt(m.reader.line, o) == Some(Set) && DoSet(m, end).Go? {
        SetNameless(m, end);
      }
    }
  }

  /** So does a round. */
  lemma NormalRoundReturns(m: Machine, env: Env)
    requires Sound(m) && Proper(m.reader) && Fits(m.reader) && Reads(m.reader) && SetsNamed(m.reader.script)
    requires !Skipping(m) && Lookup(m.vars, "").None?
    ensures !Step(m, env).Hung?
    ensures Step(m, env).Go? ==> Lookup(Step(m, env).value.vars, "").None?
  {
    hide Sound, Proper, Eat, Dispatch, ParseLabel, CheckLoop, Lookup, Reads, Reached, Onward, CleanUp, ServiceSkip,
      VerbAt,
      NamesVariable, Placed, Eaten, Fits;
    ReadySound(m);
    ReadyKeeps(m);
    var m0 := Ready(m);
    ProperFits(m0.reader);
    if Eat(m0.reader).Go? {
      EatSound(m0);
      EatFlags(m0.reader);
      var m1 := m0.(reader := Eat(m0.reader).value);
      SoundPlaced(m1);
      ReadsFlags(m.reader, m0.reader);
      OnwardReached(m0.reader, m1.reader);
      ReachedReads(m0.reader, m1.reader);
      EatenThere(m0.reader);
      LabelReturns(m1);
      if ParseLabel(m1).Go? {
        LabelRound(m1);
      }
      LoopRound(m1);
      DispatchNameless(m1, env);
    }
  }

  lemma EatenThere(r: Reader)
    requires Fits(r) && Eat(r).Go?
    ensures Eaten(Eat(r).value)
  {
  }

  lemma {:induction false} StretchNameless(m: Machine, env: Env, jumps: nat)
    requires Sound(m) && Reads(m.reader) && SetsNamed(m.reader.script) && Lookup(m.vars, "").None?
    requires forall x :: x in Stretch(m, env, jumps) ==> !Skipping(x)
    ensures forall x :: x in Stretch(m, env, jumps) ==> !Step(x, env).Hung?
    decreases jumps, Measure(m)[0], Measure(m)[1], Measure(m)[2], Measure(m)[3], Measure(m)[4], Measure(m)[5]
  {
    hide Sound, Step, TurnsBack, Measure, Less, Running, Proper, Fits, Reads, SetsNamed, Lookup, Skipping;
    SoundProper(m);
    ProperFits(m.reader);
    if Running(m) && !(TurnsBack(m) && jumps == 0) {
      assert m in Stretch(m, env, jumps);
      NormalRoundReturns(m, env);
      if Step(m, env).Go? {
        RoundLowers(m, env);
        StepReads(m, env);
        StepScript(m, env);
        StretchNameless(Step(m, env).value, env, if TurnsBack(m) then jumps - 1 else jumps);
      }
    }
  }

  /**
   A stretch that never enters skip mode comes to rest, whatever its WAITs, if every SET
   names its variable and no variable without a name is defined.
  */
  lemma ComesToRestInNormalMode(m: Machine, env: Env, jumps: nat)
    requires Sound(m) && Reads(m.reader) && SetsNamed(m.reader.script) && Lookup(m.vars, "").None?
    requires forall x :: x in Stretch(m, env, jumps) ==> !Skipping(x)
    ensures Rests(Process(m, env, jumps))
  {
    hide Sound, Step, Stretch, Rests, Process, Reads, SetsNamed, Lookup, Skipping;
    StretchNameless(m, env, jumps);
    RestsExactly(m, env, jumps);
  }
}
