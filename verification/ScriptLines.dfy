/**
 The text of the current line. A jump restores a position but not the text of its
 line, so the text read and the position can come apart.
*/
module ScriptLines {
  import opened Wrappers
  import opened ScriptText
  import opened ScriptReader
  import opened ScriptStores
  import opened ScriptExpressions
  import opened ScriptMachine
  import opened ScriptSteps
  import opened ScriptRuns

  // ---------- lines with nothing left ----------

  /** Only blanks, or a comment, from `o` to the end of the line. */
  predicate NothingFrom(line: string, o: nat) {
    var start := EatSpaces(line, o);
    start >= |line| || line[start] == '!'
  }

  /** With nothing left on the line, the next command is looked for from the next line on. */
  lemma EatNothing(r: Reader)
    requires Fits(r) && NothingFrom(r.line, r.pos.offset)
    ensures Eat(r) == match NextLine(r) case None => Stop(ScriptCompleted) case Some(n) => Eat(n)
  {
    var o := EatSpaces(r.line, r.pos.offset);
    NextAnyOffset(r, o);
    if o < |r.line| {
      var t := MoveTo(r, o);
      var u := MoveTo(t, |t.line|);
      NextAnyOffset(r, |r.line|);
      assert MoveTo(u, EatSpaces(u.line, u.pos.offset)) == u;
      EatFromNext(u, EatSpaces(u.line, u.pos.offset));
    } else {
      EatFromNext(r, o);
    }
  }

  lemma NextAnyOffset(r: Reader, o: nat)
    requires Fits(r)
    ensures NextLine(MoveTo(r, o)) == NextLine(r)
  {
  }

  lemma EatFromNext(r: Reader, o: nat)
    requires Fits(r) && o == EatSpaces(r.line, r.pos.offset) && o >= |r.line|
    ensures Eat(r) == match NextLine(r) case None => Stop(ScriptCompleted) case Some(n) => Eat(n)
  {
    NextAnyOffset(r, o);
    hide NextLine;
  }

  lemma EatHere(r: Reader, j: nat)
    requires Fits(r) && EatSpaces(r.line, r.pos.offset) == j < |r.line| && r.line[j] != '!'
    ensures Eat(r) == Go(MoveTo(r, j))
  {
  }

  lemma {:induction false} SkipsTo(line: string, o: nat, j: nat)
    requires o <= j < |line| && !Blank(line[j])
    requires forall k :: o <= k < j ==> Blank(line[k])
    ensures EatSpaces(line, o) == j
    decreases j - o
  {
    if o < j {
      SkipsTo(line, o + 1, j);
    }
  }

  lemma {:induction false} SkipsAll(line: string, o: nat)
    requires forall k :: o <= k < |line| ==> Blank(line[k])
    ensures EatSpaces(line, o) >= |line|
    decreases |line| - o
  {
    if o < |line| {
      SkipsAll(line, o + 1);
    }
  }

  // ---------- jumps ----------

  /** The place of the label that a GOTO jumps back to. */
  function Target(m: Machine): LinePosition
    requires Eaten(m.reader) && JumpsBack(m)
  {
    var end := TokenEnd(m.reader.line, m.reader.pos.offset);
    var start := EatSpaces(m.reader.line, end);
    FindLabel(m.labels, m.reader.line[start..TokenEnd(m.reader.line, start)]).value
  }

  lemma JumpShape(m: Machine, env: Env)
    requires Eaten(m.reader) && JumpsBack(m) && Dispatch(m, env).Go?
    ensures var t := Dispatch(m, env).value; t.reader == m.reader.(pos := Target(m).(offset := t.reader.pos.offset))
  {
    hide EatSpaces, TokenEnd, VerbAt;
  }

  /** A round parses what stands at the next command. */
  lemma StepParses(m: Machine, env: Env)
    requires Fits(m.reader) && Eat(Ready(m).reader).Go?
    ensures Step(m, env) == Parse(Ready(m).(reader := Eat(Ready(m).reader).value), env)
  {
    hide Eat, Parse, CleanUp, ServiceSkip;
  }

  // ---------- the text is that of a line of the script ----------

  /** `text` is the line of the script that starts at `p`. */
  predicate LineAt(script: string, p: nat, text: string) {
    Boundary(script, p) && p < |script| && text == script[p..p + LineLength(script, p)]
  }

  /** The text read is that of some line of the script, if not of the one at the position. */
  ghost predicate Reads(r: Reader) {
    exists p: nat :: LineAt(r.script, p, r.line)
  }

  lemma SyncedReads(r: Reader)
    requires Synced(r) && Placed(r.script, r.pos, BASE)
    ensures Reads(r)
  {
    assert LineAt(r.script, r.pos.start, r.line);
  }

  lemma ReachedReads(r: Reader, t: Reader)
    requires Reads(r) && Reached(r, t) && Placed(t.script, t.pos, BASE)
    ensures Reads(t)
  {
    hide LineAt, Placed;
    if t.line != r.line {
      SyncedReads(t);
    }
  }

  lemma SoundPlaced(m: Machine)
    requires Sound(m)
    ensures Placed(m.reader.script, m.reader.pos, BASE)
  {
  }

  /** What a round does to the text: a jump keeps it, everything else reads on. */
  lemma StepText(m: Machine, env: Env)
    requires Sound(m) && Proper(m.reader) && Step(m, env).Go?
    ensures var m0 := Ready(m);
            && Fits(m0.reader) && Eat(m0.reader).Go?
            && var m1 := m0.(reader := Eat(m0.reader).value);
               var t := Step(m, env).value;
               && Eaten(m1.reader) && Sound(m1) && Reached(m0.reader, m1.reader) && t.reader.script == m.reader.script
               && ParseLabel(m1).Go?
               && (|| Reached(m1.reader, t.reader.(toggle := m1.reader.toggle))
                   || (t.reader.line == m1.reader.line
                       && !ParseLabel(m1).value.1
                       && (|| (CheckLoop(m1).1 && CheckLoop(m1).0 == t && t.loop)
                           || (!CheckLoop(m1).1 && JumpsBack(m1) && Dispatch(m1, env) == Go(t)))))
  {
    hide Sound, Eat, Dispatch, Proper, ParseLabel, CheckLoop, Ready, Eaten, Advances, JumpsBack, Synced, Placed;
    StepCases(m, env);
    ReadyKeeps(m);
    var m1 := Ready(m).(reader := Eat(Ready(m).reader).value);
    ProperFits(m1.reader);
    var t := Step(m, env).value;
    if ParseLabel(m1).value.1 {
      LabelText(m1);
    } else if CheckLoop(m1).1 {
      ClosingText(m1);
    } else if JumpsBack(m1) {
      JumpShape(m1, env);
    } else {
      DispatchAdvances(m1, env);
      AdvancesText(m1, t);
    }
  }

  lemma LabelText(m: Machine)
    requires Eaten(m.reader) && ParseLabel(m).Go? && ParseLabel(m).value.1
    ensures Reached(m.reader, ParseLabel(m).value.0.reader.(toggle := m.reader.toggle))
  {
    hide AddLabel, FindLabel, Synced;
  }

  lemma ClosingText(m: Machine)
    requires Eaten(m.reader) && CheckLoop(m).1
    ensures var t := CheckLoop(m).0;
            if t.loop then t.reader == m.reader.(pos := m.loopPos) else Reached(m.reader, t.reader)
  {
    hide Synced;
  }

  lemma AdvancesText(m: Machine, t: Machine)
    requires Advances(m.(last := t.last), t)
    ensures Reached(m.reader, t.reader.(toggle := m.reader.toggle))
  {
    hide Reached, Placed, SameButTemps;
  }

  /** Every round reads a line of the script. */
  lemma StepReads(m: Machine, env: Env)
    requires Sound(m) && Proper(m.reader) && Step(m, env).Go? && Reads(m.reader)
    ensures Reads(Step(m, env).value.reader)
  {
    hide Sound, Step, Eat, Dispatch, Proper, ParseLabel, CheckLoop, JumpsBack, Ready, Reads, Reached, Placed;
    StepText(m, env);
    StepSound(m, env);
    ReadyKeeps(m);
    var m0 := Ready(m);
    var m1 := m0.(reader := Eat(m0.reader).value);
    var t := Step(m, env).value;
    SoundPlaced(m1);
    SoundPlaced(t);
    ReadsFlags(m.reader, m0.reader);
    ReachedReads(m0.reader, m1.reader);
    if Reached(m1.reader, t.reader.(toggle := m1.reader.toggle)) {
      ReachedReads(m1.reader, t.reader.(toggle := m1.reader.toggle));
      ReadsFlags(t.reader.(toggle := m1.reader.toggle), t.reader);
    } else {
      ReachedScript(m0.reader, m1.reader);
      ReadsFlags(m1.reader, t.reader);
    }
  }

  lemma ReachedScript(r: Reader, t: Reader)
    requires Reached(r, t)
    ensures t.script == r.script
  {
  }

  /** Which line is read shows in the script and the text. */
  lemma ReadsFlags(r: Reader, t: Reader)
    requires Reads(r) && t.script == r.script && t.line == r.line
    ensures Reads(t)
  {
  }

  // ---------- the text is that of the position ----------

  /** The text is that of the line at the position, or nothing is left of it. */
  ghost predicate InStep(r: Reader) {
    Synced(r) || NothingFrom(r.line, r.pos.offset)
  }

  /**
   A line with nothing left is followed by the line behind the position, and so the
   next command is read from its own line.
  */
  lemma EatSynced(r: Reader)
    requires Proper(r) && InStep(r) && Eat(r).Go?
    ensures Synced(Eat(r).value)
  {
    hide NothingFrom, Eat, NextLine;
    if Synced(r) {
      ReachedSynced(r, Eat(r).value);
    } else {
      EatNothing(r);
      NextAnyOffset(r, r.pos.offset);
      NextIs(r, r.pos.offset);
      var n := NextLine(r).value;
      assert MoveTo(r, r.pos.offset) == r;
      ReachedSynced(n, Eat(n).value);
    }
  }

  lemma ReachedSynced(r: Reader, t: Reader)
    requires Synced(r) && Reached(r, t)
    ensures Synced(t)
  {
  }
}
