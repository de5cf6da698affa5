/**
 Whole runs of a login script: the invariant of the interpreter, skip mode, loops,
 progress, and the waits for the login prompt.
*/
module ScriptRuns {
  import opened Wrappers
  import opened ScriptText
  import opened ScriptReader
  import opened ScriptStores
  import opened ScriptExpressions
  import opened ScriptMachine
  import opened ScriptSteps
  import Chat

  // ---------- the invariant ----------

  ghost predicate OffsetsIn(m: Machine) {
    && |m.reader.line| <= |m.reader.script|
    && m.reader.pos.offset <= |m.reader.script|
    && m.loopPos.offset <= |m.reader.script|
    && (forall i :: 0 <= i < |m.labels| ==> m.labels[i].pos.offset <= |m.reader.script|)
  }

  /** Every recorded position is that of a line of the script, counted from the same base. */
  ghost predicate Sound(m: Machine) {
    && Placed(m.reader.script, m.reader.pos, BASE)
    && LabelsPlaced(m.reader.script, m.labels, BASE)
    && (m.loop ==> Placed(m.reader.script, m.loopPos, BASE) && m.counter >= 1)
    && OffsetsIn(m)
  }

  lemma SoundProper(m: Machine)
    requires Sound(m)
    ensures Proper(m.reader)
  {
  }

  /** The machine at the next command, which is where a round looks at it. */
  function Ready(m: Machine): Machine {
    ServiceSkip(CleanUp(m))
  }

  lemma ReadySound(m: Machine)
    requires Sound(m)
    ensures Sound(Ready(m)) && Proper(Ready(m).reader)
  {
  }

  lemma EatSound(m: Machine)
    requires Sound(m) && Proper(m.reader) && Eat(m.reader).Go?
    ensures var t := m.(reader := Eat(m.reader).value);
            Sound(t) && Proper(t.reader) && Onward(m.reader, t.reader)
  {
    EatOnward(m.reader);
    hide Placed, Eat;
  }

  lemma ForwardSound(m: Machine, t: Machine)
    requires Sound(m) && Forward(m.reader, t.reader.(toggle := m.reader.toggle))
    requires t.labels == m.labels
    requires t.loop ==> (t.loopPos == m.loopPos && m.loop && t.counter == m.counter) || LoopStarted(m, t)
    requires t.loopPos == m.loopPos || t.loopPos == t.reader.pos
    ensures Sound(t)
  {
    hide Placed;
  }

  lemma LabelSound(m: Machine, name: string, end: nat)
    requires Sound(m) && Proper(m.reader) && m.reader.pos.offset <= end < |m.reader.line|
    requires AddLabel(m.labels, name, m.reader.pos.(offset := end + 1)).Ok?
    ensures var labels := AddLabel(m.labels, name, m.reader.pos.(offset := end + 1)).value;
            Sound(m.(labels := labels, reader := MoveTo(m.reader, end + 1)))
  {
    PlacedOffset(m.reader.script, m.reader.pos, end + 1);
    var pos := m.reader.pos.(offset := end + 1);
    hide Placed;
    LabelsNamePlaces(m.reader.script, m.labels, name, pos, BASE);
  }

  lemma ParseLabelSound(m: Machine)
    requires Sound(m) && Proper(m.reader) && Eaten(m.reader) && ParseLabel(m).Go?
    ensures var (t, consumed) := ParseLabel(m).value;
            && Sound(t) && (!consumed ==> t == m)
            && (consumed ==>
                  && Forward(m.reader, t.reader.(toggle := m.reader.toggle)) && LoopKept(m, t)
                  && t == m.(reader := t.reader, labels := t.labels))
  {
    hide Placed, AddLabel, Forward, Sound, Proper, TokenEnd;
    var line, start := m.reader.line, m.reader.pos.offset;
    var end := TokenEnd(line, start);
    if end < |line| && line[end] == ':' {
      var name := line[start..end];
      LabelSound(m, name, end);
      AlongLine(m.reader, end + 1);
      ToggleSound(m.(labels := AddLabel(m.labels, name, m.reader.pos.(offset := end + 1)).value,
        reader := MoveTo(m.reader, end + 1)),
                  ParseLabel(m).value.0);
    }
  }

  lemma ToggleSound(m: Machine, t: Machine)
    requires Sound(m) && t == m.(reader := m.reader.(toggle := t.reader.toggle))
    ensures Sound(t)
  {
  }

  lemma CheckLoopSound(m: Machine)
    requires Sound(m) && Proper(m.reader) && Eaten(m.reader)
    ensures Sound(CheckLoop(m).0)
  {
    AlongLine(m.reader, m.reader.pos.offset + 1);
    PlacedOffset(m.reader.script, m.reader.pos, m.reader.pos.offset + 1);
    hide Placed, Forward;
  }

  /** A jump back to a label keeps its position and takes the offset of the command. */
  lemma JumpSound(m: Machine, env: Env)
    requires Sound(m) && Eaten(m.reader) && JumpsBack(m) && Dispatch(m, env).Go?
    ensures Sound(Dispatch(m, env).value)
  {
    var end := TokenEnd(m.reader.line, m.reader.pos.offset);
    var start := EatSpaces(m.reader.line, end);
    var stop := TokenEnd(m.reader.line, start);
    var i := LabelAt(m.labels, m.reader.line[start..stop]);
    PlacedOffset(m.reader.script, m.labels[i].pos, stop);
    hide Placed, EatSpaces, TokenEnd, VerbAt, LabelAt;
  }

  /** Every round keeps the invariant. */
  lemma StepSound(m: Machine, env: Env)
    requires Sound(m) && Proper(m.reader) && Step(m, env).Go?
    ensures Sound(Step(m, env).value) && Proper(Step(m, env).value.reader)
  {
    hide Sound, Eat, ParseLabel, CheckLoop, Dispatch, JumpsBack, Advances, Forward, Proper;
    ReadySound(m);
    var m0 := Ready(m);
    ProperFits(m0.reader);
    EatSound(m0);
    var m1 := m0.(reader := Eat(m0.reader).value);
    ParseLabelSound(m1);
    CheckLoopSound(m1);
    if ParseLabel(m1).value.1 || CheckLoop(m1).1 {
    } else if JumpsBack(m1) {
      JumpSound(m1, env);
    } else {
      DispatchAdvances(m1, env);
      AdvancesSound(m1, Dispatch(m1, env).value);
    }
    SoundProper(Step(m, env).value);
  }

  lemma ProperFits(r: Reader)
    requires Proper(r)
    ensures Fits(r)
  {
  }

  lemma AdvancesSound(m: Machine, t: Machine)
    requires Sound(m) && Advances(m.(last := t.last), t)
    ensures Sound(t)
  {
    ForwardSound(m, t);
    hide Forward;
  }

  /** In skip mode, the pending toggle taken into account. */
  predicate Skipping(m: Machine) {
    m.reader.skip != m.reader.toggle
  }

  // ---------- rounds ----------

  /** The machine after `n` rounds of the loop, unless one of them stops it. */
  ghost function Rounds(m: Machine, env: Env, n: nat): Flow<Machine>
    requires Sound(m)
    decreases n
  {
    if n == 0 then Go(m)
    else
      SoundProper(m);
      match Step(m, env)
      case Go(t) =>
        StepSound(m, env);
        Rounds(t, env, n - 1)
      case stop => stop
  }

  /** What a round does, case by case, from the machine at its next command. */
  lemma StepCases(m: Machine, env: Env)
    requires Sound(m) && Proper(m.reader) && Step(m, env).Go?
    ensures var m0 := Ready(m);
            && Fits(m0.reader) && Eat(m0.reader).Go?
            && var m1 := m0.(reader := Eat(m0.reader).value);
               var t := Step(m, env).value;
               && Sound(m1) && Proper(m1.reader) && Eaten(m1.reader) && Onward(m0.reader, m1.reader)
               && ParseLabel(m1).Go?
               && (if ParseLabel(m1).value.1 then t == ParseLabel(m1).value.0
                   else if CheckLoop(m1).1 then t == CheckLoop(m1).0
                   else Dispatch(m1, env) == Go(t))
  {
    hide Sound, Eat, ParseLabel, CheckLoop, Dispatch, Proper, CleanUp, ServiceSkip;
    ReadySound(m);
    ProperFits(Ready(m).reader);
    EatSound(Ready(m));
    var m1 := Ready(m).(reader := Eat(Ready(m).reader).value);
    ParseLabelSound(m1);
  }

  /** Labels are only ever added, and a round that goes on does not finish the script. */
  lemma StepLabels(m: Machine, env: Env)
    requires Sound(m) && Proper(m.reader) && Step(m, env).Go?
    ensures m.labels <= Step(m, env).value.labels && Step(m, env).value.finished == m.finished
  {
    hide Sound, Eat, Dispatch, Proper, Onward, Eaten, ParseLabel, CheckLoop, Ready;
    StepCases(m, env);
    ReadyKeeps(m);
    var m1 := Ready(m).(reader := Eat(Ready(m).reader).value);
    LabelRound(m1);
    LoopRound(m1);
    if !ParseLabel(m1).value.1 && !CheckLoop(m1).1 {
      DispatchLabels(m1, env);
    }
  }

  /** Cleaning up and servicing the skip request touch neither stores nor history. */
  lemma ReadyKeeps(m: Machine)
    ensures var t := Ready(m);
            && t == m.(reader := t.reader, waits := t.waits, chat := t.chat, readPending := t.readPending,
               writePending := t.writePending, last := None)
            && t.reader == m.reader.(skip := Skipping(m), toggle := false)
            && (Running(m) ==> Running(t))
  {
  }

  /** What a label does. */
  lemma LabelRound(m: Machine)
    requires Eaten(m.reader) && ParseLabel(m).Go?
    ensures var (t, consumed) := ParseLabel(m).value;
            && t == m.(reader := t.reader, labels := t.labels)
            && m.labels <= t.labels
            && t.reader == m.reader.(pos := t.reader.pos, toggle := t.reader.toggle)
            && (consumed && m.reader.skip && !m.reader.toggle ==>
               (t.reader.toggle <==> FindLabel(t.labels, m.search).Some?))
  {
    hide FindLabel, TokenEnd;
  }

  /** What a closing brace does. */
  lemma LoopRound(m: Machine)
    requires Eaten(m.reader)
    ensures var t := CheckLoop(m).0;
            && t == m.(reader := t.reader, loop := t.loop, counter := t.counter)
            && t.reader == m.reader.(pos := t.reader.pos)
  {
  }

  lemma DispatchLabels(m: Machine, env: Env)
    requires Eaten(m.reader) && Proper(m.reader) && Dispatch(m, env).Go?
    ensures Dispatch(m, env).value.labels == m.labels && Dispatch(m, env).value.finished == m.finished
  {
    if JumpsBack(m) {
      hide EatSpaces, TokenEnd, VerbAt, FindLabel;
    } else {
      hide Dispatch;
      DispatchAdvances(m, env);
    }
  }

  lemma PrefixFind(a: seq<Label>, b: seq<Label>, name: string)
    requires a <= b && FindLabel(b, name).None?
    ensures FindLabel(a, name).None?
  {
    assert forall k :: 0 <= k < |a| ==> a[k] == b[k];
  }

  // ---------- skip mode ----------

  /** Nothing but the place, temporaries, labels, the loop, and what a WAIT leaves behind differs. */
  ghost predicate Undisturbed(m: Machine, t: Machine) {
    && t.requests == m.requests
    && SameButTemps(m.vars, t.vars)
    && t.charset == m.charset && t.search == m.search && t.login == m.login && t.loginTimeout == m.loginTimeout
    && t.received == m.received && t.finished == m.finished && t.reader.script == m.reader.script
    && (Running(m) ==> Running(t))
  }

  lemma UndisturbedThen(a: Machine, b: Machine, c: Machine)
    requires Undisturbed(a, b) && Undisturbed(b, c)
    ensures Undisturbed(a, c)
  {
    hide IsTemp, Lookup;
  }

  /** One round in skip mode: nothing is asked of the port, and the mode ends exactly with the label searched for. */
  lemma SkipRound(m: Machine, env: Env)
    requires Sound(m) && Proper(m.reader) && Step(m, env).Go?
    requires Skipping(m) && FindLabel(m.labels, m.search).None?
    ensures var t := Step(m, env).value;
            && Undisturbed(m, t)
            && t.reader.skip
            && (Skipping(t) <==> FindLabel(t.labels, m.search).None?)
  {
    hide Sound, Eat, Dispatch, Proper, FindLabel, ParseLabel, CheckLoop, Ready, JumpsBack, Advances, SameButTemps,
      Forward, Eaten;
    StepCases(m, env);
    Same(m.vars);
    ReadyKeeps(m);
    var m0 := Ready(m);
    var m1 := m0.(reader := Eat(m0.reader).value);
    EatFlags(m0.reader);
    LabelRound(m1);
    LoopRound(m1);
    if !ParseLabel(m1).value.1 && !CheckLoop(m1).1 {
      NoJump(m1);
      DispatchAdvances(m1, env);
      AdvancesSkips(m1, Dispatch(m1, env).value);
    }
  }

  lemma EatFlags(r: Reader)
    requires Fits(r) && Eat(r).Go?
    ensures var t := Eat(r).value; t.skip == r.skip && t.toggle == r.toggle && t.script == r.script
  {
  }

  lemma NoJump(m: Machine)
    requires Eaten(m.reader) && m.reader.skip
    ensures !JumpsBack(m)
  {
    hide VerbAt, FindLabel, EatSpaces, TokenEnd;
  }

  lemma AdvancesSkips(m: Machine, t: Machine)
    requires Advances(m.(last := t.last), t) && m.reader.skip && !m.reader.toggle
    ensures t == m.(reader := t.reader, vars := t.vars, temps := t.temps, loop := t.loop, counter := t.counter,
            loopPos := t.loopPos, last := t.last)
    ensures SameButTemps(m.vars, t.vars) && t.reader.skip && !t.reader.toggle && t.labels == m.labels
    ensures t.reader.script == m.reader.script
  {
    hide SameButTemps, Placed;
  }

  /**
   Skip mode is inert. From a GOTO to an unknown label on, in every round until that
   label is defined: no write, read, terminal or line request is made, no variable
   but temporaries changes, and the mode goes on; it ends with the round that defines
   the label, and not before.
  */
  lemma {:induction false} SkipModeIsInert(m: Machine, env: Env, n: nat)
    requires Sound(m) && Skipping(m) && FindLabel(m.labels, m.search).None?
    requires Rounds(m, env, n).Go? && FindLabel(Rounds(m, env, n).value.labels, m.search).None?
    ensures var s := Rounds(m, env, n).value;
            && Sound(s) && Proper(s.reader) && Fits(s.reader) && Undisturbed(m, s) && Skipping(s)
            && (Step(s, env).Go? ==>
                  var t := Step(s, env).value;
                  Undisturbed(m, t) && (Skipping(t) <==> FindLabel(t.labels, m.search).None?))
    decreases n
  {
    hide Sound, Step, Undisturbed, FindLabel, Proper;
    SoundProper(m);
    ProperFits(m.reader);
    if n == 0 {
      UndisturbedSame(m);
      if Step(m, env).Go? {
        SkipRound(m, env);
      }
    } else {
      var t := Step(m, env).value;
      StepSound(m, env);
      SkipRound(m, env);
      LabelsGrow(t, env, n - 1);
      PrefixFind(t.labels, Rounds(m, env, n).value.labels, m.search);
      SameSearch(m, t);
      SkipModeIsInert(t, env, n - 1);
      var s := Rounds(t, env, n - 1).value;
      UndisturbedThen(m, t, s);
      if Step(s, env).Go? {
        UndisturbedThen(m, t, Step(s, env).value);
      }
    }
  }

  lemma UndisturbedSame(m: Machine)
    ensures Undisturbed(m, m)
  {
  }

  lemma SameSearch(m: Machine, t: Machine)
    requires Undisturbed(m, t)
    ensures t.search == m.search
  {
  }

  lemma {:induction false} LabelsGrow(m: Machine, env: Env, n: nat)
    requires Sound(m) && Rounds(m, env, n).Go?
    ensures m.labels <= Rounds(m, env, n).value.labels
    decreases n
  {
    hide Sound, Step, Proper;
    if n > 0 {
      SoundProper(m);
      StepSound(m, env);
      StepLabels(m, env);
      LabelsGrow(Step(m, env).value, env, n - 1);
    }
  }
}
