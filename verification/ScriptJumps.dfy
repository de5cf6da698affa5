/** Where jumps land, and three places where skip mode and the parser do not agree. */
module ScriptJumps {
  import opened Wrappers
  import opened ScriptText
  import opened ScriptReader
  import opened ScriptStores
  import opened ScriptExpressions
  import opened ScriptMachine
  import opened ScriptSteps
  import opened ScriptRuns
  import opened ScriptLines
  import opened ScriptWaits
  import opened ScriptLoops
  import Chat

  // ---------- jumps ----------

  /**
   A GOTO that ends its line and jumps back goes on with the line behind that of the
   label: what stands on the label's own line is passed over.
  */
  lemma JumpLandsBehindLabelLine(m: Machine, env: Env)
    requires Sound(m) && Eaten(m.reader) && JumpsBack(m) && Dispatch(m, env).Go?
    requires NothingFrom(m.reader.line, Dispatch(m, env).value.reader.pos.offset)
    ensures var t := Dispatch(m, env).value;
            && Fits(t.reader) && Fits(m.reader.(pos := Target(m)))
            && Eat(t.reader) == (match NextLine(m.reader.(pos := Target(m)))
                                 case None => Stop(ScriptCompleted)
                                 case Some(n) => Eat(n))
  {
    var t := Dispatch(m, env).value;
    JumpShape(m, env);
    JumpSound(m, env);
    SoundProper(t);
    ProperFits(t.reader);
    hide Sound, Dispatch, JumpsBack, Target, Eat, Eaten, NothingFrom, NextLine;
    EatNothing(t.reader);
    SameNextLine(m.reader, t.reader, Target(m));
  }

  lemma SameNextLine(r: Reader, t: Reader, pos: LinePosition)
    requires t == r.(pos := pos.(offset := t.pos.offset)) && Fits(t)
    ensures NextLine(t) == NextLine(r.(pos := pos))
  {
  }

  // ---------- skip mode and the parser ----------

  /** An expression there takes no character: its term is the variable without a name. */
  lemma EmptyExpression(line: string, skip: bool, e: Eval)
    requires e.offset < |line| && StartsNothing(line[e.offset]) && e.temp < 0x8000_0000
    ensures var (e1, value) := Compound(line, skip, e);
            if skip || Lookup(e.vars, "").Some? then value.Ok? && e1.offset == e.offset
              else value == Leave(VariableNotFound)
  {
    assert EatSpaces(line, e.offset) == e.offset;
    assert TokenEnd(line, e.offset) == e.offset;
    assert line[e.offset..e.offset] == "";
    hide Lookup, Define, TempName;
  }

  /**
   Inside the braces of a WAIT such a character ends the script in normal mode, but in skip
   mode, where unknown variables are let pass, the parser never gets past it.
  */
  lemma WaitStuckInSkipMode(m: Machine, env: Env, items: seq<Waiting>)
    requires Eaten(m.reader) && StartsNothing(m.reader.line[m.reader.pos.offset])
            && m.reader.line[m.reader.pos.offset] != '}'
    requires Temp(m, Wait) < 0x8000_0000
    ensures m.reader.skip ==> WaitItems(m, env, items) == Hung
    ensures !m.reader.skip && Lookup(m.vars, "").None? ==> WaitItems(m, env, items) == Stop(VariableNotFound)
  {
    var line, o := m.reader.line, m.reader.pos.offset;
    EatAgain(m.reader);
    EmptyExpression(line, m.reader.skip, Eval(m.vars, Temp(m, Wait), o));
    assert EatSpaces(line, o) == o;
    assert TokenEnd(line, o) == o;
    hide Compound, Lookup, EatSpaces, TokenEnd, StartsNothing, Convert, Eat;
    assert m.(reader := m.reader) == m;
    if m.reader.skip {
      StuckItem(m, env);
    }
  }

  lemma StuckItem(m: Machine, env: Env)
    requires Eaten(m.reader) && m.reader.skip
    requires var (e1, value) := Compound(m.reader.line, true, Eval(m.vars, Temp(m, Wait), m.reader.pos.offset));
             value.Ok? && e1.offset == m.reader.pos.offset
    requires EatSpaces(m.reader.line, m.reader.pos.offset) == m.reader.pos.offset
    requires TokenEnd(m.reader.line, m.reader.pos.offset) == m.reader.pos.offset
    ensures WaitItem(m, env).Go? && WaitItem(m, env).value.0.reader.pos.offset == m.reader.pos.offset
  {
    hide Compound, EatSpaces, TokenEnd;
  }

  /** An opening bracket is no command. */
  lemma BracketIsIllegal(m: Machine, env: Env)
    requires Eaten(m.reader) && m.reader.line[m.reader.pos.offset] == '['
    ensures Parse(m, env) == Stop(IllegalCommand)
  {
    var line, o := m.reader.line, m.reader.pos.offset;
    assert TokenEnd(line, o) == o;
    assert line[o..o] == "";
    EmptyWord(Words(), line, o) by {
      WordsProper();
    }
    hide Words, VerbIn, TokenEnd;
  }

  lemma {:induction false} EmptyWord(words: seq<(string, Verb)>, line: string, o: nat)
    requires o <= |line| && TokenEnd(line, o) == o
    requires forall i :: 0 <= i < |words| ==> words[i].0 != ""
    ensures VerbIn(words, line, o).None?
  {
    if words != [] {
      assert |Fold(line[o..o])| != |Fold(words[0].0)|;
      EmptyWord(words[1..], line, o);
    }
  }

  /**
   CHARMAP with a character set in brackets is legal in normal mode, but in skip mode
   the brackets are left standing, and the next round ends the script with an error.
  */
  lemma CharmapIllegalInSkipMode(m: Machine, env: Env, end: nat)
    requires end <= |m.reader.line| && Fits(m.reader)
    requires EatSpaces(m.reader.line, end) < |m.reader.line| && m.reader.line[EatSpaces(m.reader.line, end)] == '['
    ensures m.reader.skip ==>
              var t := DoCharmap(m, end).value;
              Eat(t.reader).Go? && Parse(t.(reader := Eat(t.reader).value), env) == Stop(IllegalCommand)
    ensures !m.reader.skip ==>
              var close := Find(m.reader.line, EatSpaces(m.reader.line, end) + 1, ']');
              close < |m.reader.line| && close - EatSpaces(m.reader.line, end) - 1 <= KMaxCharacterTypeLength ==>
                DoCharmap(m, end).Go?
                  && DoCharmap(m, end).value.charset == m.reader.line[EatSpaces(m.reader.line, end) + 1..close]
                && DoCharmap(m, end).value.reader.pos.offset == close + 1
  {
    var o := EatSpaces(m.reader.line, end);
    if m.reader.skip {
      var t := DoCharmap(m, end).value;
      EatHere(t.reader, o);
      hide Eat, Parse, EatSpaces;
      BracketIsIllegal(t.(reader := MoveTo(t.reader, o)), env);
    } else {
      hide EatSpaces, Find;
    }
  }
}
