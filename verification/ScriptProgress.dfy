/**
 Progress of the script interpreter: a round that does not jump back to a label
 comes nearer to the end of the script, so between two such jumps the
 interpreter always comes to rest.
*/
module ScriptProgress {
  import opened Wrappers
  import opened ScriptText
  import opened ScriptReader
  import opened ScriptStores
  import opened ScriptExpressions
  import opened ScriptMachine
  import opened ScriptSteps
  import opened ScriptRuns
  import opened ScriptLines

  /** The place that has been passed for good: the start of the loop, or the current place outside a loop. */
  function Passed(m: Machine): LinePosition {
    if m.loop then m.loopPos else m.reader.pos
  }

  /** A jump back has left the loop that is still counted. */
  predicate Strayed(m: Machine) {
    m.loop && Behind(m.reader.pos, m.loopPos)
  }

  /** Strayed or not, text not yet passed, loop counter, and text left to read. */
  function Measure(m: Machine): (r: seq<int>)
    ensures |r| == 6
  {
    var size := |m.reader.script|;
    [if Strayed(m) then 1 else 0,
     size - Passed(m).start, size - Passed(m).offset,
     if m.loop then m.counter else 0,
     size - m.reader.pos.start, size - m.reader.pos.offset]
  }

  predicate LexLess(a: seq<int>, b: seq<int>) {
    |a| == |b| && a != [] && (a[0] < b[0] || (a[0] == b[0] && LexLess(a[1..], b[1..])))
  }

  predicate Less(t: Machine, m: Machine) {
    LexLess(Measure(t), Measure(m))
  }

  /** The order on six numbers, written out. */
  lemma LessIs(t: Machine, m: Machine)
    ensures var a, b := Measure(t), Measure(m);
            Less(t, m) <==>
            || a[0] < b[0]
            || (a[0] == b[0] && (
                  || a[1] < b[1]
                  || (a[1] == b[1] && (
                        || a[2] < b[2]
                        || (a[2] == b[2] && (
                              || a[3] < b[3]
                              || (a[3] == b[3] && (|| a[4] < b[4] || (a[4] == b[4] && a[5] < b[5])))))))))
  {
    var a, b := Measure(t), Measure(m);
    SplitFirst(a, b);
    SplitFirst(a[1..], b[1..]);
    SplitFirst(a[2..], b[2..]);
    SplitFirst(a[3..], b[3..]);
    SplitFirst(a[4..], b[4..]);
    SplitFirst(a[5..], b[5..]);
    assert a[1..][1..] == a[2..] && a[2..][1..] == a[3..] && a[3..][1..] == a[4..] && a[4..][1..] == a[5..]
      && a[5..][1..] == [];
    assert b[1..][1..] == b[2..] && b[2..][1..] == b[3..] && b[3..][1..] == b[4..] && b[4..][1..] == b[5..]
      && b[5..][1..] == [];
    hide LexLess, Measure;
  }

  lemma SplitFirst(a: seq<int>, b: seq<int>)
    requires |a| == |b| && a != []
    ensures LexLess(a, b) <==> a[0] < b[0] || (a[0] == b[0] && LexLess(a[1..], b[1..]))
  {
  }

  lemma Further(m: Machine, t: Machine)
    requires t.reader.script == m.reader.script && Behind(m.reader.pos, t.reader.pos)
    requires LoopKept(m, t) || LoopStarted(m, t) || (m.loop && !t.loop && t.loopPos == m.loopPos)
    requires m.loop ==> m.counter >= 1
    ensures Less(t, m)
  {
    LessIs(t, m);
    hide Less, LexLess;
  }

  lemma Repeated(m: Machine, t: Machine)
    requires t.reader.script == m.reader.script && t.reader.pos == m.loopPos
    requires m.loop && t.loop && t.loopPos == m.loopPos && t.counter < m.counter
    ensures Less(t, m)
  {
    LessIs(t, m);
    hide Less, LexLess;
  }

  /** The next round is a GOTO back to a known label. */
  predicate TurnsBack(m: Machine)
    requires Fits(m.reader)
  {
    var t := Ready(m);
    Eat(t.reader).Go? &&
    var next := t.(reader := Eat(t.reader).value);
    ParseLabel(next).Go? && !ParseLabel(next).value.1 && !CheckLoop(next).1 && JumpsBack(next)
  }

  /** Without labels nothing turns back. */
  lemma TurningBackNeedsLabel(m: Machine)
    requires Fits(m.reader) && TurnsBack(m)
    ensures m.labels != []
  {
    hide Eat, ParseLabel, CheckLoop, VerbAt, EatSpaces, TokenEnd;
    ReadyKeeps(m);
  }

  /** A round that does not turn back comes nearer to the end. */
  lemma StepProgresses(m: Machine, env: Env)
    requires Sound(m) && Proper(m.reader) && Step(m, env).Go? && !TurnsBack(m)
    ensures Less(Step(m, env).value, m)
  {
    hide Sound, Eat, Dispatch, ParseLabel, CheckLoop, Ready, JumpsBack, Advances, Forward, Onward, Eaten, Less, Proper,
      LoopKept, LoopStarted;
    StepCases(m, env);
    ReadyKeeps(m);
    var m0 := Ready(m);
    var m1 := m0.(reader := Eat(m0.reader).value);
    var t := Step(m, env).value;
    CounterPositive(m);
    EatGoesOn(m0.reader, m1.reader);
    if ParseLabel(m1).value.1 {
      ParseLabelSound(m1);
      ForwardIs(m1.reader, t.reader.(toggle := m1.reader.toggle));
      KeptIs(m1, t, m);
      Further(m, t);
    } else if CheckLoop(m1).1 {
      ClosingProgresses(m1);
      ClosingFrom(m, m1);
    } else {
      DispatchAdvances(m1, env);
      AdvancesIs(m1, t);
      KeptIs(m1.(last := t.last), t, m);
      Further(m, t);
    }
  }

  lemma CounterPositive(m: Machine)
    requires Sound(m)
    ensures m.loop ==> m.counter >= 1
  {
  }

  lemma EatGoesOn(r: Reader, t: Reader)
    requires Onward(r, t)
    ensures t.script == r.script && (t.pos == r.pos || Behind(r.pos, t.pos))
  {
  }

  lemma ForwardIs(r: Reader, t: Reader)
    requires Forward(r, t)
    ensures t.script == r.script && Behind(r.pos, t.pos)
  {
  }

  /** Loop relations do not look at anything but the loop. */
  lemma KeptIs(a: Machine, t: Machine, m: Machine)
    requires LoopKept(a, t) || LoopStarted(a, t)
    requires a.loop == m.loop && a.counter == m.counter && a.loopPos == m.loopPos
    ensures LoopKept(m, t) || LoopStarted(m, t)
  {
  }

  lemma AdvancesIs(m: Machine, t: Machine)
    requires Advances(m.(last := t.last), t)
    ensures t.reader.script == m.reader.script && Behind(m.reader.pos, t.reader.pos)
    ensures LoopKept(m.(last := t.last), t) || LoopStarted(m.(last := t.last), t)
  {
  }

  /** A closing brace ends the loop, further on, or goes back to its start with a smaller counter. */
  lemma ClosingProgresses(m: Machine)
    requires Eaten(m.reader) && CheckLoop(m).1
    ensures var t := CheckLoop(m).0;
            && t.reader.script == m.reader.script && m.loop && t.loopPos == m.loopPos && t.counter == m.counter - 1
            && (if t.loop then t.reader.pos == m.loopPos else Behind(m.reader.pos, t.reader.pos))
  {
  }

  lemma ClosingFrom(m: Machine, m1: Machine)
    requires Eaten(m1.reader) && CheckLoop(m1).1
    requires m1.loop == m.loop && m1.counter == m.counter && m1.loopPos == m.loopPos
            && m1.reader.script == m.reader.script
    requires m.loop ==> m.counter >= 1
    requires m1.reader.pos == m.reader.pos || Behind(m.reader.pos, m1.reader.pos)
    ensures Less(CheckLoop(m1).0, m)
  {
    hide CheckLoop, Less;
    ClosingProgresses(m1);
    var t := CheckLoop(m1).0;
    if t.loop {
      Repeated(m, t);
    } else {
      Further(m, t);
    }
  }

  // ---------- coming to rest ----------

  /** Each part of the measure that matters is a natural number. */
  lemma MeasureBounded(m: Machine)
    requires Sound(m)
    ensures forall i :: 0 <= i < 6 ==> Measure(m)[i] >= 0
  {
  }

  /**
   The loop of ProcessNextLinesL, up to the backward jump after the first `jumps`
   ones. It ends unless one of its rounds never returns.
  */
  ghost function Process(m: Machine, env: Env, jumps: nat): Flow<Machine>
    requires Sound(m)
    decreases jumps, Measure(m)[0], Measure(m)[1], Measure(m)[2], Measure(m)[3], Measure(m)[4], Measure(m)[5]
  {
    SoundProper(m);
    if !Running(m) then Go(m)
    else
      var turns := TurnsBack(m);
      if turns && jumps == 0 then Go(m)
      else
        match Step(m, env)
        case Go(t) =>
          StepSound(m, env);
          MeasureBounded(m);
          MeasureBounded(t);
          LessIs(t, m);
          if turns then Process(t, env, jumps - 1)
          else
            StepProgresses(m, env);
            Process(t, env, jumps)
        case Stop(error) => Go(Finish(m, error))
        case Panicked => Panicked
        case Hung => Hung
  }

  lemma StepScript(m: Machine, env: Env)
    requires Sound(m) && Proper(m.reader) && Step(m, env).Go?
    ensures Step(m, env).value.reader.script == m.reader.script
  {
    hide Sound, Step, Eat, Dispatch, Proper, ParseLabel, CheckLoop, JumpsBack, Ready, Reached;
    StepText(m, env);
  }
}
