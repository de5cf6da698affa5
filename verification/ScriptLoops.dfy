/** LOOP: how often a loop is closed, and how often its body is run. */
module ScriptLoops {
  import opened Wrappers
  import opened ScriptText
  import opened ScriptReader
  import opened ScriptStores
  import opened ScriptExpressions
  import opened ScriptMachine
  import opened ScriptSteps
  import opened ScriptRuns
  import opened ScriptLines
  import opened ScriptProgress

  /** The next round is the closing brace of the loop. */
  predicate Closes(m: Machine)
    requires Fits(m.reader)
  {
    var t := Ready(m);
    Eat(t.reader).Go? &&
    var next := t.(reader := Eat(t.reader).value);
    ParseLabel(next).Go? && !ParseLabel(next).value.1 && CheckLoop(next).1
  }

  /** In each of the next `n` rounds the machine is in the loop and not in skip mode. */
  ghost predicate InLoop(m: Machine, env: Env, n: nat)
    requires Sound(m)
    decreases n
  {
    n > 0 ==>
      && m.loop && !Skipping(m)
      && (SoundProper(m); Step(m, env).Go?)
      && (StepSound(m, env); InLoop(Step(m, env).value, env, n - 1))
  }

  /** How many of the next `n` rounds are closing braces. */
  ghost function Closings(m: Machine, env: Env, n: nat): nat
    requires Sound(m) && InLoop(m, env, n)
    decreases n
  {
    if n == 0 then 0
    else
      SoundProper(m);
      StepSound(m, env);
      (if Closes(m) then 1 else 0) + Closings(Step(m, env).value, env, n - 1)
  }

  /** One round in a loop: a closing brace counts down, and ends the loop at zero; nothing else touches it. */
  lemma LoopStep(m: Machine, env: Env)
    requires Sound(m) && Proper(m.reader) && m.loop && !Skipping(m) && Step(m, env).Go?
    ensures var t := Step(m, env).value;
            && t.loopPos == m.loopPos
            && (Closes(m) ==> t.counter == m.counter - 1 && (t.loop <==> m.counter > 1)
                              && (t.loop ==> t.reader.pos == m.loopPos))
            && (!Closes(m) ==> t.loop && t.counter == m.counter)
  {
    hide Sound, Eat, Dispatch, ParseLabel, CheckLoop, Ready, JumpsBack, Advances, Onward, Eaten, Proper;
    StepCases(m, env);
    ReadyKeeps(m);
    CounterPositive(m);
    var m1 := Ready(m).(reader := Eat(Ready(m).reader).value);
    EatFlags(Ready(m).reader);
    LabelRound(m1);
    if !ParseLabel(m1).value.1 {
      if CheckLoop(m1).1 {
        ClosingCounts(m1);
      } else {
        DispatchInLoop(m1, env);
      }
    }
  }

  lemma ClosingCounts(m: Machine)
    requires Eaten(m.reader) && CheckLoop(m).1 && !m.reader.skip && m.counter >= 1
    ensures var t := CheckLoop(m).0;
            && t.loopPos == m.loopPos && t.counter == m.counter - 1 && (t.loop <==> m.counter > 1)
            && (t.loop ==> t.reader.pos == m.loopPos)
  {
  }

  lemma DispatchInLoop(m: Machine, env: Env)
    requires Eaten(m.reader) && Proper(m.reader) && m.loop && Dispatch(m, env).Go?
    ensures LoopKept(m, Dispatch(m, env).value)
  {
    if JumpsBack(m) {
      hide EatSpaces, TokenEnd, VerbAt, FindLabel, Proper, Eaten;
    } else {
      hide Dispatch, Eaten, Proper, JumpsBack;
      DispatchAdvances(m, env);
    }
  }

  /**
   A loop of counter `n` ends with its `n`-th closing brace: as long as it runs, the
   counter is `n` less the braces passed, and it has ended when they are `n`.
  */
  lemma {:induction false} LoopEndsAtItsCount(m: Machine, env: Env, n: nat)
    requires Sound(m) && m.loop && InLoop(m, env, n)
    ensures Rounds(m, env, n).Go?
    ensures var t := Rounds(m, env, n).value;
            && t.loopPos == m.loopPos
            && (if t.loop then t.counter == m.counter - Closings(m, env, n) && Closings(m, env, n) < m.counter
                else Closings(m, env, n) == m.counter)
    decreases n
  {
    hide Sound, Step, Closes, Skipping, Proper;
    CounterPositive(m);
    if n > 0 {
      SoundProper(m);
      StepSound(m, env);
      LoopStep(m, env);
      var t := Step(m, env).value;
      if t.loop {
        LoopEndsAtItsCount(t, env, n - 1);
      } else {
        LeftLoop(t, env, n - 1);
      }
    }
  }

  lemma LeftLoop(m: Machine, env: Env, n: nat)
    requires Sound(m) && !m.loop && InLoop(m, env, n)
    ensures n == 0 && Rounds(m, env, n) == Go(m)
  {
    hide Sound;
  }

  // ---------- where a repeated body starts ----------

  /** The line holds one closing brace at `j` and nothing else. */
  ghost predicate BraceAlone(line: string, j: nat) {
    j < |line| && line[j] == '}' && forall k :: 0 <= k < |line| && k != j ==> Blank(line[k])
  }

  /**
   A loop whose opening brace ends its line and whose closing brace stands alone on a
   later one: the jump back restores the position but not the text of the line, and so
   the repeated body starts where the first one did exactly when the closing brace
   stands further left than the place behind the opening one.
  */
  lemma RepeatedBodyStartsAgain(first: Reader, again: Reader, j: nat)
    requires Proper(first) && NothingFrom(first.line, first.pos.offset)
    requires again == first.(line := again.line) && BraceAlone(again.line, j)
    ensures Eat(again) == Eat(first) <==> j < first.pos.offset
  {
    EatNothing(first);
    var o := first.pos.offset;
    if j < o {
      SkipsAll(again.line, o);
      EatNothing(again);
      SameNext(first, again);
    } else {
      SkipsTo(again.line, o, j);
      EatHere(again, j);
      if NextLine(first).Some? && Eat(NextLine(first).value).Go? {
        LaterLine(first);
      }
    }
  }

  lemma SameNext(first: Reader, again: Reader)
    requires Fits(first) && again == first.(line := again.line)
    ensures NextLine(again) == NextLine(first)
  {
  }

  lemma LaterLine(r: Reader)
    requires Proper(r) && NextLine(r).Some? && Eat(NextLine(r).value).Go?
    ensures Eat(NextLine(r).value).value.pos.start > r.pos.start
  {
    NextAnyOffset(r, r.pos.offset);
    NextIs(r, r.pos.offset);
    hide Eat, NextLine;
  }

  // ---------- how often the body runs ----------

  /** Right behind the opening brace of a LOOP, which ends its line. */
  ghost predicate BehindLoop(m: Machine) {
    && Sound(m) && m.loop && m.loopPos == m.reader.pos && !Skipping(m)
    && NothingFrom(m.reader.line, m.reader.pos.offset)
  }

  /** The command LOOP leads there, with the number as the counter. */
  lemma LoopLeadsBehind(m: Machine, end: nat)
    requires Sound(m) && Proper(m.reader) && m.reader.pos.offset < end <= |m.reader.line| && DoLoop(m, end).Go?
    requires !m.reader.skip && !m.reader.toggle
    ensures var t := DoLoop(m, end).value;
            && (NothingFrom(t.reader.line, t.reader.pos.offset) ==> BehindLoop(t))
            && ParseInteger(m.reader.line, end).Ok? && t.counter == ParseInteger(m.reader.line, end).value.0
  {
    hide OpenBrace, ParseInteger, NothingFrom, Forward, Reached, LineLength;
    LoopAdvances(m, end);
    var t := DoLoop(m, end).value;
    OpenBraceShape(m, ParseInteger(m.reader.line, end).value.1);
    ForwardFlags(m.reader, t.reader);
    LoopedSound(m, t);
  }

  lemma LoopedSound(m: Machine, t: Machine)
    requires Sound(m) && Advances(m, t) && LoopStarted(m, t)
    ensures Sound(t)
  {
    hide Forward, SameButTemps, Placed;
    ForwardSound(m, t);
  }

  /** Where the next round finds its command. */
  function Start(m: Machine): Flow<Reader>
    requires Fits(m.reader)
  {
    Eat(Ready(m).reader)
  }

  /**
   If the next round is the closing brace, it stands alone on its line, left of the
   place behind the opening one or not.
  */
  ghost predicate BraceStands(m: Machine, offset: nat, left: bool)
    requires Fits(m.reader)
  {
    Closes(m) ==>
      var r := Start(m).value; BraceAlone(r.line, r.pos.offset) && (left <==> r.pos.offset < offset)
  }

  /** And so do all closing braces of the next `n` rounds. */
  ghost predicate BracesStand(m: Machine, env: Env, n: nat, offset: nat, left: bool)
    requires Sound(m) && InLoop(m, env, n)
    decreases n
  {
    n > 0 ==>
      && (SoundProper(m); BraceStands(m, offset, left))
      && (StepSound(m, env); BracesStand(Step(m, env).value, env, n - 1, offset, left))
  }

  /**
   How often in the next `n` rounds the body is entered: a round right behind the
   opening brace or a closing one finds its command where `first` does.
  */
  ghost function Entries(m: Machine, env: Env, n: nat, first: Flow<Reader>, anew: bool): nat
    requires Sound(m) && InLoop(m, env, n)
    decreases n
  {
    if n == 0 then 0
    else
      SoundProper(m);
      StepSound(m, env);
      (if anew && Start(m) == first then 1 else 0) + Entries(Step(m, env).value, env, n - 1, first, Closes(m))
  }

  /** `first` is the reader behind the opening brace of the loop that `m` is in. */
  ghost predicate FirstOf(m: Machine, first: Reader) {
    && Proper(first) && NothingFrom(first.line, first.pos.offset)
    && first.pos == m.loopPos && first.script == m.reader.script && !first.skip && !first.toggle
  }

  /**
   A closing brace that repeats the loop leads to where the body starts exactly if it
   stands left of the place behind the opening one.
  */
  lemma ClosingRestartsBody(m: Machine, env: Env, first: Reader, left: bool)
    requires Sound(m) && Proper(m.reader) && m.loop && !Skipping(m) && Step(m, env).Go? && Closes(m)
    requires FirstOf(m, first) && BraceStands(m, first.pos.offset, left)
    requires Step(m, env).value.loop && !Skipping(Step(m, env).value)
    ensures var t := Step(m, env).value;
            Fits(t.reader) && FirstOf(t, first) && (Start(t) == Eat(first) <==> left)
  {
    hide Sound, Eat, ParseLabel, Dispatch, NothingFrom, BraceAlone, Eaten, Onward;
    StepCases(m, env);
    StepSound(m, env);
    LoopStep(m, env);
    var t := Step(m, env).value;
    ReadyKeeps(m);
    ReadyKeeps(t);
    var r := Start(m).value;
    EatFlags(Ready(m).reader);
    assert Ready(t).reader == first.(line := r.line);
    RepeatedBodyStartsAgain(first, Ready(t).reader, r.pos.offset);
  }

  lemma StaysFirst(m: Machine, env: Env, first: Reader)
    requires Sound(m) && Proper(m.reader) && m.loop && !Skipping(m) && Step(m, env).Go? && FirstOf(m, first)
    ensures FirstOf(Step(m, env).value, first)
  {
    hide Sound, Step, Proper, NothingFrom, Closes;
    LoopStep(m, env);
    StepScript(m, env);
  }

  /** The count of entries from any round of a loop on, up to its end. */
  lemma {:induction false} EntriesAre(m: Machine, env: Env, n: nat, first: Reader, anew: bool, left: bool)
    requires Sound(m) && m.loop && InLoop(m, env, n) && FirstOf(m, first)
    requires BracesStand(m, env, n, first.pos.offset, left)
    requires Rounds(m, env, n).Go? && !Rounds(m, env, n).value.loop
    ensures var now := if anew && (SoundProper(m); Start(m) == Eat(first)) then 1 else 0;
            Entries(m, env, n, Eat(first), anew) == now + if left then m.counter - 1 else 0
    decreases n
  {
    hide Sound, Step, Closes, Skipping, Proper, Start, FirstOf, BraceStands, Eat;
    CounterPositive(m);
    SoundProper(m);
    StepSound(m, env);
    LoopStep(m, env);
    StaysFirst(m, env, first);
    var t := Step(m, env).value;
    if t.loop {
      NotYet(t, env, n - 1);
      if Closes(m) {
        ClosingRestartsBody(m, env, first, left);
      }
      EntriesAre(t, env, n - 1, first, Closes(m), left);
    } else {
      LeftLoop(t, env, n - 1);
    }
  }

  /** A loop that has not ended has rounds to come. */
  lemma NotYet(m: Machine, env: Env, n: nat)
    requires Sound(m) && m.loop && InLoop(m, env, n) && Rounds(m, env, n).Go? && !Rounds(m, env, n).value.loop
    ensures n > 0 && !Skipping(m)
  {
    hide Sound;
  }

  /**
   A loop whose opening brace ends its line and whose closing brace stands alone on a
   line: up to its end, its body is entered exactly as often as its number says if
   the closing brace stands left of the place behind the opening one, and only once
   otherwise.
  */
  lemma BodyRunsItsCount(m: Machine, env: Env, n: nat, left: bool)
    requires BehindLoop(m) && InLoop(m, env, n) && Rounds(m, env, n).Go? && !Rounds(m, env, n).value.loop
    requires BracesStand(m, env, n, m.loopPos.offset, left)
    ensures Fits(m.reader) && Entries(m, env, n, Start(m), true) == if left then m.counter else 1
  {
    hide Sound, Rounds, InLoop, BracesStand, Entries, NothingFrom, Eat, Proper;
    SoundProper(m);
    ProperFits(m.reader);
    ReadySound(m);
    ReadyKeeps(m);
    EntriesAre(m, env, n, Ready(m).reader, true, left);
  }

  /** Back at the start of the loop, but with a line on which the closing brace at `j` is still ahead. */
  ghost predicate AtFarBrace(m: Machine, first: Reader, j: nat) {
    && Sound(m) && m.loop && !Skipping(m) && FirstOf(m, first)
    && m.reader.pos == m.loopPos && BraceAlone(m.reader.line, j) && first.pos.offset <= j
  }

  /** A closing brace that does not stand left of the place behind the opening one leads there. */
  lemma ClosingLeadsToFarBrace(m: Machine, env: Env, first: Reader)
    requires Sound(m) && Proper(m.reader) && m.loop && !Skipping(m) && FirstOf(m, first)
    requires Closes(m) && BraceStands(m, first.pos.offset, false) && Step(m, env).Go? && Step(m, env).value.loop
    ensures AtFarBrace(Step(m, env).value, first, Start(m).value.pos.offset)
  {
    hide Sound, NothingFrom, Step, Proper, BraceAlone, CheckLoop;
    ClosingGoes(m, env);
    ReadyKeeps(m);
    EatFlags(Ready(m).reader);
    StepSound(m, env);
    LoopStep(m, env);
    var m1 := Ready(m).(reader := Start(m).value);
    ClosingRound(m1);
  }

  lemma ClosingGoes(m: Machine, env: Env)
    requires Fits(m.reader) && Closes(m)
    ensures Step(m, env).Go?
    ensures var m1 := Ready(m).(reader := Start(m).value);
            Start(m).Go? && Eaten(m1.reader) && CheckLoop(m1).1 && Step(m, env).value == CheckLoop(m1).0
  {
    hide Eat, ParseLabel, CheckLoop, CleanUp, ServiceSkip;
    ReadyKeeps(m);
  }

  lemma ClosingRound(m: Machine)
    requires Eaten(m.reader) && CheckLoop(m).1
    ensures var t := CheckLoop(m).0;
            && (t.loop ==> t.reader == m.reader.(pos := m.loopPos))
            && (!t.loop ==> t.reader == MoveTo(m.reader, m.reader.pos.offset + 1))
  {
  }

  /** There the next round is a closing brace again. */
  lemma FarBraceCloses(m: Machine, first: Reader, j: nat)
    requires AtFarBrace(m, first, j)
    ensures Fits(m.reader) && Closes(m) && Start(m) == Go(MoveTo(Ready(m).reader, j))
  {
    hide Sound, NothingFrom, AddLabel;
    SoundProper(m);
    ReadyKeeps(m);
    var r := Ready(m).reader;
    SkipsTo(r.line, r.pos.offset, j);
    EatHere(r, j);
    assert TokenEnd(r.line, j) == j;
  }

  /**
   In the other case the closing brace is met again at once: the remaining rounds of the loop
   are all closing braces, and the body is met once more behind the loop.
  */
  lemma {:induction false} FarBraceUsesUpCount(m: Machine, env: Env, first: Reader, j: nat)
    requires AtFarBrace(m, first, j)
    ensures m.counter >= 1 && InLoop(m, env, m.counter) && Closings(m, env, m.counter) == m.counter
    ensures Rounds(m, env, m.counter).Go?
    ensures var t := Rounds(m, env, m.counter).value; !t.loop && Fits(t.reader) && Start(t) == Eat(first)
    decreases m.counter
  {
    hide Sound, Step, Closes, Skipping, Proper, Start, AtFarBrace, Eat;
    FarBraceIs(m, first, j);
    CounterPositive(m);
    SoundProper(m);
    FarBraceCloses(m, first, j);
    ClosingGoes(m, env);
    StepSound(m, env);
    LoopStep(m, env);
    var t := Step(m, env).value;
    FarBraceNext(m, env, first, j);
    if t.loop {
      FarBraceUsesUpCount(t, env, first, j);
    }
  }

  lemma FarBraceIs(m: Machine, first: Reader, j: nat)
    requires AtFarBrace(m, first, j)
    ensures Sound(m) && m.loop && !Skipping(m)
  {
  }

  lemma FarBraceNext(m: Machine, env: Env, first: Reader, j: nat)
    requires AtFarBrace(m, first, j) && Fits(m.reader) && Step(m, env).Go?
    ensures var t := Step(m, env).value;
            if t.loop then AtFarBrace(t, first, j) else Fits(t.reader) && Start(t) == Eat(first)
  {
    hide Sound, NothingFrom, AddLabel, Step, Eat, CheckLoop, Proper, Placed, Closes;
    SoundProper(m);
    FarBraceCloses(m, first, j);
    ClosingGoes(m, env);
    StepSound(m, env);
    LoopStep(m, env);
    ReadyKeeps(m);
    var t := Step(m, env).value;
    ClosingRound(Ready(m).(reader := Start(m).value));
    SoundProper(t);
    ProperFits(t.reader);
    ReadyKeeps(t);
    if !t.loop {
      NothingBehindBrace(t.reader.line, j);
      EatNothing(Ready(t).reader);
      EatNothing(first);
      SameNextAt(first, Ready(t).reader);
    }
  }

  lemma NothingBehindBrace(line: string, j: nat)
    requires BraceAlone(line, j)
    ensures NothingFrom(line, j + 1)
  {
    SkipsAll(line, j + 1);
  }

  lemma SameNextAt(r: Reader, t: Reader)
    requires Fits(r) && t == r.(line := t.line, pos := r.pos.(offset := t.pos.offset))
    ensures Fits(t) && NextLine(t) == NextLine(r)
  {
  }

  /** Up to the first closing brace a loop is as it was at its start. */
  lemma {:induction false} UntilClosing(m: Machine, env: Env, k: nat, first: Reader)
    requires Sound(m) && m.loop && FirstOf(m, first) && InLoop(m, env, k + 1) && InLoop(m, env, k)
    requires Closings(m, env, k) == 0 && Rounds(m, env, k).Go?
    ensures var s := Rounds(m, env, k).value;
            && Sound(s) && Proper(s.reader) && s.loop && !Skipping(s) && s.counter == m.counter && FirstOf(s, first)
            && Step(s, env).Go? && Rounds(m, env, k + 1) == Step(s, env)
    decreases k
  {
    hide Sound, Step, Closes, Skipping, Proper, FirstOf;
    SoundProper(m);
    ProperFits(m.reader);
    if k > 0 {
      StepSound(m, env);
      LoopStep(m, env);
      StaysFirst(m, env, first);
      UntilClosing(Step(m, env).value, env, k - 1, first);
    } else {
      StepSound(m, env);
    }
  }

  /**
   From right behind a LOOP whose first closing brace, in round `k`, does not stand left of
   the place behind the opening one: the remaining rounds of the loop are all closing
   braces, as many as the number says less one, and behind the loop the body is met again.
  */
  lemma FarLoopRepeatsBodyOnce(m: Machine, env: Env, k: nat)
    requires BehindLoop(m) && m.counter > 1 && InLoop(m, env, k) && InLoop(m, env, k + 1)
    requires Closings(m, env, k) == 0 && Rounds(m, env, k).Go?
    requires var s := Rounds(m, env, k).value; Fits(s.reader) && Closes(s) && BraceStands(s, m.loopPos.offset, false)
    ensures Rounds(m, env, k + 1).Go? && Fits(m.reader)
    ensures var t := Rounds(m, env, k + 1).value;
            && Sound(t) && InLoop(t, env, m.counter - 1) && Closings(t, env, m.counter - 1) == m.counter - 1
            && Rounds(t, env, m.counter - 1).Go?
            && var end := Rounds(t, env, m.counter - 1).value;
               !end.loop && Fits(end.reader) && Start(end) == Start(m)
  {
    hide Sound, Step, Closes, Skipping, Proper, NothingFrom, InLoop, Closings, Eat, AtFarBrace, BraceStands, Rounds;
    SoundProper(m);
    ProperFits(m.reader);
    ReadySound(m);
    ReadyKeeps(m);
    var first := Ready(m).reader;
    UntilClosing(m, env, k, first);
    var s := Rounds(m, env, k).value;
    LoopStep(s, env);
    StepSound(s, env);
    ClosingGoes(s, env);
    ClosingLeadsToFarBrace(s, env, first);
    FarBraceUsesUpCount(Step(s, env).value, env, first, Start(s).value.pos.offset);
  }
}
