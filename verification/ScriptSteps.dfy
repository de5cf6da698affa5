/** What one round of the script interpreter does to positions, loops, variables and the port. */
module ScriptSteps {
  import opened Wrappers
  import opened ScriptText
  import opened ScriptReader
  import opened ScriptStores
  import opened ScriptExpressions
  import opened ScriptMachine

  // ---------- positions ----------

  /** `t` is further on than `r`: on the same line, or on a later one. */
  ghost predicate Forward(r: Reader, t: Reader) {
    && Reached(r, t)
    && Behind(r.pos, t.pos)
    && t.pos.offset <= |t.line|
    && (Placed(r.script, r.pos, BASE) ==> Placed(t.script, t.pos, BASE))
  }

  /** The same, or at the same place. */
  ghost predicate Onward(r: Reader, t: Reader) {
    && Reached(r, t)
    && (Behind(r.pos, t.pos) || t == r)
    && (Placed(r.script, r.pos, BASE) ==> Placed(t.script, t.pos, BASE))
  }

  /** A line has at least one character. */
  predicate Proper(r: Reader) {
    Fits(r) && r.pos.length > 0
  }

  lemma PlacedOffset(script: string, pos: LinePosition, o: nat)
    ensures Placed(script, pos.(offset := o), BASE) <==> Placed(script, pos, BASE)
  {
  }

  lemma {:induction false} EatLinesOnward(r: Reader)
    requires Proper(r) && EatLines(r).Go?
    ensures Onward(r, EatLines(r).value) && Proper(EatLines(r).value)
    decreases LeftBehind(r)
  {
    var o := EatSpaces(r.line, r.pos.offset);
    PlacedOffset(r.script, r.pos, o);
    if o < |r.line| {
      assert o == r.pos.offset ==> MoveTo(r, o) == r;
    } else {
      NextIs(r, o);
      var n := NextLine(MoveTo(r, o)).value;
      if Placed(r.script, r.pos, BASE) {
        NextLinePlaced(MoveTo(r, o), BASE);
      }
      hide Placed, NextLine, EatSpaces, Synced;
      ProperNext(r, o);
      EatLinesOnward(n);
    }
  }

  lemma ProperNext(r: Reader, o: nat)
    requires Fits(r) && NextLine(MoveTo(r, o)).Some?
    ensures Proper(NextLine(MoveTo(r, o)).value)
  {
  }

  lemma {:induction false} EatOnward(r: Reader)
    requires Proper(r) && Eat(r).Go?
    ensures Onward(r, Eat(r).value) && Proper(Eat(r).value)
    decreases LeftBehind(r), LeftOnLine(r)
  {
    hide Placed, EatLines, Synced;
    EatLinesOnward(r);
    var t := EatLines(r).value;
    if t.line[t.pos.offset] == '!' {
      PlacedOffset(t.script, t.pos, |t.line|);
      EatOnward(MoveTo(t, |t.line|));
    }
  }

  /** Further on along the same line. */
  lemma AlongLine(r: Reader, o: nat)
    requires Proper(r) && r.pos.offset < o <= |r.line|
    ensures Forward(r, MoveTo(r, o)) && Proper(MoveTo(r, o))
  {
    PlacedOffset(r.script, r.pos, o);
  }

  lemma OnwardForward(a: Reader, b: Reader, c: Reader)
    requires Proper(a) && Onward(a, b) && Forward(b, c)
    ensures Forward(a, c)
  {
    hide Placed;
  }

  // ---------- commands in general ----------

  /** Only the place in the script and temporary variables have changed. */
  ghost predicate Inert(m: Machine, t: Machine) {
    && t == m.(reader := t.reader, vars := t.vars, temps := t.temps)
    && SameButTemps(m.vars, t.vars)
  }

  lemma InertThen(m: Machine, t: Machine, u: Machine)
    requires Inert(m, t) && Inert(t, u)
    ensures Inert(m, u)
  {
    hide IsTemp, Lookup;
  }

  lemma SameInert(m: Machine, r: Reader)
    ensures Inert(m, m.(reader := r))
  {
  }

  lemma EvaluateInert(m: Machine, v: Verb, o: nat)
    requires Evaluate(m, v, o).Go?
    ensures Inert(m, Evaluate(m, v, o).value.0)
  {
    hide Compound, SameButTemps;
    CompoundTemps(m.reader.line, m.reader.skip, Eval(m.vars, Temp(m, v), o));
  }

  lemma ConvertInert(m: Machine, env: Env, text: string)
    requires m.reader.pos.offset <= |m.reader.line| && WaitString(m, env, text).Go?
    ensures Inert(m, WaitString(m, env, text).value.0)
  {
    SameInert(m, WaitString(m, env, text).value.0.reader);
    hide CharacterType, SameButTemps;
  }

  lemma WaitItemInert(m: Machine, env: Env)
    requires WaitItem(m, env).Go?
    ensures Inert(m, WaitItem(m, env).value.0)
  {
    hide Inert, Evaluate, WaitString, EatSpaces, TokenEnd;
    EvaluateInert(m, Wait, m.reader.pos.offset);
    var (t, text) := Evaluate(m, Wait, m.reader.pos.offset).value;
    ConvertInert(t, env, text);
    var u := WaitString(t, env, text).value.0;
    SameInert(u, WaitItem(m, env).value.0.reader);
    InertThen(m, t, u);
    InertThen(m, u, WaitItem(m, env).value.0);
  }

  /** A WAIT reads on to behind its closing brace, and changes nothing but temporaries. */
  lemma {:induction false} WaitItemsShape(m: Machine, env: Env, items: seq<Waiting>)
    requires Proper(m.reader) && WaitItems(m, env, items).Go?
    ensures var (u, _) := WaitItems(m, env, items).value;
            Inert(m, u) && Forward(m.reader, u.reader) && Proper(u.reader)
    decreases LeftBehind(m.reader), LeftOnLine(m.reader)
  {
    hide Inert, Eat, WaitItem, Placed, Reached, Forward, Onward;
    EatOnward(m.reader);
    var r := Eat(m.reader).value;
    var t := m.(reader := r);
    SameInert(m, r);
    if r.line[r.pos.offset] == '}' {
      AlongLine(r, r.pos.offset + 1);
      OnwardForward(m.reader, r, MoveTo(r, r.pos.offset + 1));
      SameInert(m, MoveTo(r, r.pos.offset + 1));
    } else {
      WaitItemInert(t, env);
      var (u, item) := WaitItem(t, env).value;
      AlongLine(r, u.reader.pos.offset);
      InertThen(m, t, u);
      WaitItemsShape(u, env, items + [item]);
      var v := WaitItems(u, env, items + [item]).value.0;
      InertThen(m, u, v);
      OnwardForward(m.reader, r, u.reader);
      BothForward(m.reader, u.reader, v.reader);
    }
  }

  lemma BothForward(a: Reader, b: Reader, c: Reader)
    requires Proper(a) && Forward(a, b) && Forward(b, c)
    ensures Forward(a, c)
  {
    hide Placed;
  }

  lemma OpenBraceShape(m: Machine, o: nat)
    requires Proper(m.reader) && m.reader.pos.offset < o <= |m.reader.line| && OpenBrace(m, o).Go?
    ensures Forward(m.reader, OpenBrace(m, o).value.reader) && Proper(OpenBrace(m, o).value.reader)
    ensures Inert(m, OpenBrace(m, o).value)
  {
    hide Eat, Placed, Reached, Forward, Onward, Inert;
    AlongLine(m.reader, o);
    EatOnward(MoveTo(m.reader, o));
    var r := Eat(MoveTo(m.reader, o)).value;
    AlongLine(r, r.pos.offset + 1);
    OnwardForward(MoveTo(m.reader, o), r, MoveTo(r, r.pos.offset + 1));
    BothForward(m.reader, MoveTo(m.reader, o), MoveTo(r, r.pos.offset + 1));
    SameInert(m, MoveTo(r, r.pos.offset + 1));
  }

  // ---------- each command ----------

  ghost predicate LoopKept(m: Machine, t: Machine) {
    t.loop == m.loop && t.counter == m.counter && t.loopPos == m.loopPos
  }

  /** A loop starts at the place reached. */
  ghost predicate LoopStarted(m: Machine, t: Machine) {
    !m.loop && t.loop && t.loopPos == t.reader.pos && KMinLoopCounter <= t.counter <= KMaxLoopCounter
  }

  /** Only the place, temporaries and the loop have changed. */
  ghost predicate SkipInert(m: Machine, t: Machine) {
    && t == m.(reader := t.reader, vars := t.vars, temps := t.temps, loop := t.loop, counter := t.counter,
       loopPos := t.loopPos)
    && t.reader.skip == m.reader.skip
    && SameButTemps(m.vars, t.vars)
  }

  /** What a command does that does not jump back to a label. */
  ghost predicate Advances(m: Machine, t: Machine) {
    && Forward(m.reader, t.reader.(toggle := m.reader.toggle))
    && Proper(t.reader)
    && (LoopKept(m, t) || LoopStarted(m, t))
    && t.labels == m.labels && t.finished == m.finished
    && (m.reader.skip ==> SkipInert(m, t) && t.reader.toggle == m.reader.toggle)
  }

  lemma Same(v: seq<Variable>)
    ensures SameButTemps(v, v)
  {
  }

  /** On along the line, with temporaries changed. */
  lemma AdvanceTo(m: Machine, t: Machine, o: nat)
    requires Proper(m.reader) && m.reader.pos.offset < o <= |m.reader.line|
    requires t.reader.(toggle := m.reader.toggle) == MoveTo(m.reader, o)
    requires LoopKept(m, t) && t.labels == m.labels && t.finished == m.finished
    requires m.reader.skip ==> SkipInert(m, t) && t.reader.toggle == m.reader.toggle
    ensures Advances(m, t)
  {
    AlongLine(m.reader, o);
    hide Forward, SkipInert;
  }

  lemma SetAdvances(m: Machine, end: nat)
    requires Proper(m.reader) && m.reader.pos.offset < end <= |m.reader.line| && DoSet(m, end).Go?
    ensures Advances(m, DoSet(m, end).value)
  {
    hide Advances, Evaluate, EatSpaces, TokenEnd, SameButTemps, Define;
    var line := m.reader.line;
    var start := EatSpaces(line, end);
    var equals := EatSpaces(line, TokenEnd(line, start));
    var o := EatSpaces(line, equals + 1);
    EvaluateInert(m, Set, o);
    AdvanceTo(m, DoSet(m, end).value, DoSet(m, end).value.reader.pos.offset);
  }

  lemma SendAdvances(m: Machine, env: Env, end: nat)
    requires Proper(m.reader) && m.reader.pos.offset < end <= |m.reader.line| && DoSend(m, env, end).Go?
    ensures Advances(m, DoSend(m, env, end).value)
  {
    hide Advances, Evaluate, EatSpaces, Convert, SameButTemps;
    var o := EatSpaces(m.reader.line, end);
    EvaluateInert(m, Send, o);
    AdvanceTo(m, DoSend(m, env, end).value, DoSend(m, env, end).value.reader.pos.offset);
  }

  lemma WaitAdvances(m: Machine, env: Env, end: nat)
    requires Proper(m.reader) && m.reader.pos.offset < end <= |m.reader.line| && DoWait(m, env, end).Go?
    ensures Advances(m, DoWait(m, env, end).value)
  {
    hide OpenBrace, WaitItems, Forward, SameButTemps, ParseReal;
    var o := ParseReal(m.reader.line, end).value.1;
    OpenBraceShape(m, o);
    var t := OpenBrace(m, o).value;
    WaitItemsShape(t, env, []);
    var (u, items) := WaitItems(t, env, []).value;
    InertThen(m, t, u);
    BothForward(m.reader, t.reader, u.reader);
    ForwardFlags(m.reader, u.reader);
  }

  lemma ForwardFlags(r: Reader, t: Reader)
    requires Forward(r, t)
    ensures t.(toggle := r.toggle) == t && t.skip == r.skip
  {
  }

  lemma LoopAdvances(m: Machine, end: nat)
    requires Proper(m.reader) && m.reader.pos.offset < end <= |m.reader.line| && DoLoop(m, end).Go?
    ensures Advances(m, DoLoop(m, end).value) && LoopStarted(m, DoLoop(m, end).value)
  {
    hide OpenBrace, Forward, SameButTemps, ParseInteger;
    var o := ParseInteger(m.reader.line, end).value.1;
    OpenBraceShape(m, o);
    ForwardFlags(m.reader, OpenBrace(m, o).value.reader);
  }

  /** GOTO in normal mode with a label that is known. */
  predicate KnownGoto(m: Machine, end: nat)
    requires end <= |m.reader.line|
  {
    var start := EatSpaces(m.reader.line, end);
    !m.reader.skip && FindLabel(m.labels, m.reader.line[start..TokenEnd(m.reader.line, start)]).Some?
  }

  lemma GotoAdvances(m: Machine, end: nat)
    requires Proper(m.reader) && m.reader.pos.offset < end <= |m.reader.line| && DoGoto(m, end).Go?
            && !KnownGoto(m, end)
    ensures Advances(m, DoGoto(m, end).value)
    ensures !m.reader.skip ==> DoGoto(m, end).value.reader.toggle
                               && FindLabel(m.labels, DoGoto(m, end).value.search).None?
  {
    hide Advances, EatSpaces, TokenEnd, SameButTemps, FindLabel;
    Same(m.vars);
    AdvanceTo(m, DoGoto(m, end).value, DoGoto(m, end).value.reader.pos.offset);
  }

  lemma ReadAdvances(m: Machine, end: nat)
    requires Proper(m.reader) && m.reader.pos.offset < end <= |m.reader.line|
    ensures Advances(m, DoRead(m, end).value)
  {
    hide Advances, SameButTemps;
    Same(m.vars);
    AdvanceTo(m, DoRead(m, end).value, end);
  }

  lemma ExitAdvances(m: Machine, end: nat)
    requires Proper(m.reader) && m.reader.pos.offset < end <= |m.reader.line| && DoExit(m, end).Go?
    ensures Advances(m, DoExit(m, end).value)
  {
    hide Advances, SameButTemps, Compound, Signed, EatSpaces;
    var o := EatSpaces(m.reader.line, end);
    CompoundTemps(m.reader.line, m.reader.skip, Eval(m.vars, Temp(m, Exit), o));
    AdvanceTo(m, DoExit(m, end).value, DoExit(m, end).value.reader.pos.offset);
  }

  lemma DtrAdvances(m: Machine, end: nat)
    requires Proper(m.reader) && m.reader.pos.offset < end <= |m.reader.line| && DoDtr(m, end).Go?
    ensures Advances(m, DoDtr(m, end).value)
  {
    hide Advances, SameButTemps, IsWord, EatSpaces, TokenEnd;
    Same(m.vars);
    AdvanceTo(m, DoDtr(m, end).value, DoDtr(m, end).value.reader.pos.offset);
  }

  lemma CharmapAdvances(m: Machine, end: nat)
    requires Proper(m.reader) && m.reader.pos.offset < end <= |m.reader.line| && DoCharmap(m, end).Go?
    ensures Advances(m, DoCharmap(m, end).value)
  {
    hide Advances, SameButTemps, CharacterType;
    Same(m.vars);
    AdvanceTo(m, DoCharmap(m, end).value, DoCharmap(m, end).value.reader.pos.offset);
  }

  lemma {:induction false} VerbWord(words: seq<(string, Verb)>, line: string, o: nat)
    requires o <= |line| && VerbIn(words, line, o).Some?
    requires forall i :: 0 <= i < |words| ==> words[i].0 != ""
    ensures o < TokenEnd(line, o)
  {
    if IsWord(line, o, words[0].0) {
      assert |Fold(line[o..TokenEnd(line, o)])| == |Fold(words[0].0)|;
    } else {
      VerbWord(words[1..], line, o);
    }
  }

  /** The next command is a GOTO back to a known label. */
  predicate JumpsBack(m: Machine)
    requires Eaten(m.reader)
  {
    && VerbAt(m.reader.line, m.reader.pos.offset) == Some(Goto)
    && KnownGoto(m, TokenEnd(m.reader.line, m.reader.pos.offset))
  }

  lemma DispatchAdvances(m: Machine, env: Env)
    requires Eaten(m.reader) && Proper(m.reader) && Dispatch(m, env).Go? && !JumpsBack(m)
    ensures var t := Dispatch(m, env).value; Advances(m.(last := t.last), t) && t.last.Some?
  {
    hide Advances, DoSet, DoSend, DoWait, DoLoop, DoGoto, DoRead, DoExit, DoDtr, DoCharmap, TokenEnd, KnownGoto, VerbIn,
      Words;
    var o := m.reader.pos.offset;
    VerbWord(Words(), m.reader.line, o) by {
      WordsProper();
    }
    var verb := VerbAt(m.reader.line, o).value;
    var end := TokenEnd(m.reader.line, o);
    match verb {
      case Wait => WaitAdvances(m, env, end);
      case Send => SendAdvances(m, env, end);
      case Read => ReadAdvances(m, end);
      case Loop => LoopAdvances(m, end);
      case Exit => ExitAdvances(m, end);
      case Goto => GotoAdvances(m, end);
      case Set => SetAdvances(m, end);
      case Dtr => DtrAdvances(m, end);
      case Charmap => CharmapAdvances(m, end);
    }
    AdvancesLast(m, Command(m, env, verb).value, Some(verb));
  }

  lemma WordsProper()
    ensures forall i :: 0 <= i < |Words()| ==> Words()[i].0 != ""
  {
  }

  lemma AdvancesLast(m: Machine, t: Machine, last: Option<Verb>)
    requires Advances(m, t)
    ensures Advances(m.(last := last), t.(last := last))
  {
    hide Forward, SameButTemps;
  }
}
