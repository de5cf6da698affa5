/**
 The list of strings of a WAIT, read from the text alone: where each item ends, and
 which lists the parser never gets to the end of.
*/
module ScriptWaits {
  import opened Wrappers
  import opened ScriptText
  import opened ScriptReader
  import opened ScriptStores
  import opened ScriptExpressions
  import opened ScriptMachine
  import opened ScriptSteps
  import opened ScriptRuns
  import opened ScriptLines
  import Chat

  // ---------- where expressions end ----------

  /** Where the term at the next non-blank ends, if it is complete. */
  function TermEnd(line: string, o: nat): (r: Option<nat>)
    ensures r.Some? ==> o <= r.value <= |line|
  {
    var start := EatSpaces(line, o);
    if |line| <= start then None
    else if line[start] == '"' then PastClose(line, Find(line, start + 1, '"'))
    else if line[start] == '<' then PastClose(line, Find(line, start + 1, '>'))
    else Some(TokenEnd(line, start))
  }

  /** The place behind a closing character, if there is one. */
  function PastClose(line: string, at: nat): Option<nat>
    requires at <= |line|
  {
    if at == |line| then None else Some(at + 1)
  }

  /** Where the terms joined with plus signs behind `o` end: at the first non-blank that is no sign. */
  function MoreEnd(line: string, o: nat): (r: Option<nat>)
    requires o <= |line|
    ensures r.Some? ==> o <= r.value <= |line|
    decreases |line| - o
  {
    var sign := EatSpaces(line, o);
    if |line| <= sign || line[sign] != '+' then Some(sign)
    else
      match TermEnd(line, sign + 1)
      case None => None
      case Some(end) => MoreEnd(line, end)
  }

  function TermsEnd(line: string, o: nat): (r: Option<nat>)
    ensures r.Some? ==> o <= r.value <= |line|
  {
    match TermEnd(line, o)
    case None => None
    case Some(end) => MoreEnd(line, end)
  }

  /** Behind the name of a character set in brackets, or at the next non-blank. */
  function CharsetEnd(line: string, o: nat): (r: Option<nat>)
    requires o <= |line|
    ensures r.Some? ==> o <= r.value <= |line|
  {
    var start := EatSpaces(line, o);
    if start == |line| || line[start] != '[' then Some(start) else PastClose(line, Find(line, start + 1, ']'))
  }

  /**
   Where an item at `o` ends: behind its expression, its character set, which is only
   read in normal mode, and its label.
  */
  function ItemEnd(line: string, skip: bool, o: nat): (r: Option<nat>)
    ensures r.Some? ==> o <= r.value <= |line|
  {
    match TermsEnd(line, o)
    case None => None
    case Some(end) =>
      match if skip then Some(end) else CharsetEnd(line, end)
      case None => None
      case Some(behind) => Some(TokenEnd(line, EatSpaces(line, behind)))
  }

  lemma TermPlace(line: string, skip: bool, e: Eval)
    ensures var (e1, value) := Term(line, skip, e); value.Ok? ==> TermEnd(line, e.offset) == Some(e1.offset)
  {
    hide EatSpaces, Find, TokenEnd, CodeText, Lookup, Define, TempName;
  }

  lemma {:induction false} MorePlace(line: string, skip: bool, e: Eval, whole: string)
    requires e.offset <= |line|
    ensures var (e1, value) := More(line, skip, e, whole); value.Ok? ==> MoreEnd(line, e.offset) == Some(e1.offset)
    decreases |line| - e.offset
  {
    hide EatSpaces, Term, TermEnd, Keep;
    var o := EatSpaces(line, e.offset);
    if o < |line| && line[o] == '+' {
      var at := e.(offset := o + 1);
      TermPlace(line, skip, at);
      var (e1, value) := Term(line, skip, at);
      if value.Ok? && Keep(e1, whole + value.value).Ok? {
        KeepOffset(e1, whole + value.value);
        MorePlace(line, skip, Keep(e1, whole + value.value).value, whole + value.value);
      }
    }
  }

  /** An expression without errors ends where its text does, whatever its value. */
  lemma CompoundPlace(line: string, skip: bool, e: Eval)
    ensures var (e1, value) := Compound(line, skip, e); value.Ok? ==> TermsEnd(line, e.offset) == Some(e1.offset)
  {
    hide Term, TermEnd, Keep, More, MoreEnd;
    TermPlace(line, skip, e);
    var (e1, value) := Term(line, skip, e);
    if value.Ok? && Keep(e1, value.value).Ok? {
      KeepOffset(e1, value.value);
      MorePlace(line, skip, Keep(e1, value.value).value, value.value);
    }
  }

  lemma CharsetPlace(m: Machine, env: Env, text: string)
    requires m.reader.pos.offset <= |m.reader.line| && Convert(m, env, text).Go?
    ensures CharsetEnd(m.reader.line, m.reader.pos.offset) == Some(Convert(m, env, text).value.0.reader.pos.offset)
  {
    hide EatSpaces, Find;
  }

  /** An item without errors ends where its text does. */
  lemma ItemPlace(m: Machine, env: Env)
    requires WaitItem(m, env).Go?
    ensures ItemEnd(m.reader.line, m.reader.skip, m.reader.pos.offset)
            == Some(WaitItem(m, env).value.0.reader.pos.offset)
  {
    hide Compound, Convert, TermsEnd, CharsetEnd, EatSpaces, TokenEnd;
    var o := m.reader.pos.offset;
    CompoundPlace(m.reader.line, m.reader.skip, Eval(m.vars, Temp(m, Wait), o));
    var (t, text) := Evaluate(m, Wait, o).value;
    if !m.reader.skip {
      CharsetPlace(t, env, text);
    }
  }

  lemma ItemReturns(m: Machine, env: Env)
    ensures !WaitItem(m, env).Hung?
  {
    hide Compound, EatSpaces, TokenEnd, Find;
  }

  // ---------- items that take nothing ----------

  /** A character that neither starts a term nor continues one. */
  predicate StartsNothing(c: char) {
    !TokenChar(c) && !Blank(c) && c != '"' && c != '<' && c != '+'
  }

  /** An item takes no character exactly when its first one starts nothing; in normal mode a bracket is taken. */
  lemma TakesNothing(line: string, skip: bool, o: nat)
    requires o < |line| && !Blank(line[o])
    ensures ItemEnd(line, skip, o) == Some(o) <==> StartsNothing(line[o]) && (skip || line[o] != '[')
  {
    assert EatSpaces(line, o) == o;
    if StartsNothing(line[o]) {
      assert TokenEnd(line, o) == o;
      assert TermEnd(line, o) == Some(o);
      assert MoreEnd(line, o) == Some(o);
    } else {
      TermsTakeSome(line, o);
    }
  }

  lemma TermsTakeSome(line: string, o: nat)
    requires o < |line| && !Blank(line[o]) && !StartsNothing(line[o])
    ensures TermsEnd(line, o).Some? ==> TermsEnd(line, o).value > o
  {
    assert EatSpaces(line, o) == o;
    if line[o] == '+' {
      assert TermEnd(line, o) == Some(o);
    } else if TokenChar(line[o]) {
      assert TokenEnd(line, o) > o;
    }
  }

  // ---------- lists that are passed ----------

  /** Every item up to the closing brace takes something, or is incomplete. */
  predicate Passable(r: Reader)
    requires Fits(r)
    decreases LeftBehind(r), LeftOnLine(r)
  {
    match Eat(r)
    case Go(t) =>
      || t.line[t.pos.offset] == '}'
      || (match ItemEnd(t.line, t.skip, t.pos.offset)
          case None => true
          case Some(end) => end > t.pos.offset && Passable(MoveTo(t, end)))
    case _ => true
  }

  /**
   A list of strings that is read without an error is passed to its end exactly if each
   of its items takes something; otherwise the parser never returns.
  */
  lemma {:induction false} ListPassed(m: Machine, env: Env, items: seq<Waiting>)
    requires Fits(m.reader)
    ensures WaitItems(m, env, items).Go? ==> Passable(m.reader)
    ensures WaitItems(m, env, items).Hung? ==> !Passable(m.reader)
    decreases LeftBehind(m.reader), LeftOnLine(m.reader)
  {
    hide Eat, WaitItem, ItemEnd, Reached;
    if Eat(m.reader).Go? {
      var r := Eat(m.reader).value;
      var t := m.(reader := r);
      ItemReturns(t, env);
      if r.line[r.pos.offset] != '}' && WaitItem(t, env).Go? {
        ItemPlace(t, env);
        var (u, item) := WaitItem(t, env).value;
        assert u.reader == MoveTo(r, u.reader.pos.offset);
        if u.reader.pos.offset > r.pos.offset {
          ListPassed(u, env, items + [item]);
        }
      }
    }
  }

  /** The place where item `k` of a list starts, if there is one. */
  function ItemAt(r: Reader, k: nat): (t: Option<Reader>)
    requires Fits(r)
    ensures t.Some? ==> Eaten(t.value)
    decreases k
  {
    match Eat(r)
    case Go(t) =>
      if t.line[t.pos.offset] == '}' then None
      else if k == 0 then Some(t)
      else
        (match ItemEnd(t.line, t.skip, t.pos.offset)
         case None => None
         case Some(end) => ItemAt(MoveTo(t, end), k - 1))
    case _ => None
  }

  /** An item starts with a character that starts nothing. */
  predicate Stuck(r: Reader)
    requires Eaten(r)
  {
    var c := r.line[r.pos.offset]; StartsNothing(c) && (r.skip || c != '[')
  }

  lemma {:induction false} StuckItemStops(r: Reader, k: nat)
    requires Fits(r) && ItemAt(r, k).Some? && Stuck(ItemAt(r, k).value)
    ensures !Passable(r)
    decreases k
  {
    hide Eat, ItemEnd, Stuck, Reached;
    var t := Eat(r).value;
    StuckTakesNothing(t);
    if k > 0 {
      StuckItemStops(MoveTo(t, ItemEnd(t.line, t.skip, t.pos.offset).value), k - 1);
    }
  }

  lemma {:induction false} StoppedByItem(r: Reader) returns (k: nat)
    requires Fits(r) && !Passable(r)
    ensures ItemAt(r, k).Some? && Stuck(ItemAt(r, k).value)
    decreases LeftBehind(r), LeftOnLine(r)
  {
    hide Eat, ItemEnd, Stuck, Reached;
    var t := Eat(r).value;
    StuckTakesNothing(t);
    var end := ItemEnd(t.line, t.skip, t.pos.offset).value;
    if end == t.pos.offset {
      k := 0;
    } else {
      k := StoppedByItem(MoveTo(t, end));
      k := k + 1;
    }
  }

  /**
   A list cannot be passed exactly if some item before the closing brace starts with a
   character that starts nothing.
  */
  lemma ImpassableItem(r: Reader)
    requires Fits(r)
    ensures !Passable(r) <==> exists k: nat :: ItemAt(r, k).Some? && Stuck(ItemAt(r, k).value)
  {
    hide Passable, ItemAt, Stuck;
    if !Passable(r) {
      var k := StoppedByItem(r);
    } else if k: nat :| ItemAt(r, k).Some? && Stuck(ItemAt(r, k).value) {
      StuckItemStops(r, k);
    }
  }

  lemma StuckTakesNothing(t: Reader)
    requires Eaten(t)
    ensures Stuck(t) <==> ItemEnd(t.line, t.skip, t.pos.offset) == Some(t.pos.offset)
  {
    TakesNothing(t.line, t.skip, t.pos.offset);
    hide StartsNothing, ItemEnd;
  }

  // ---------- rounds that never return ----------

  /** Where the list of a WAIT at the next command starts, if one stands there with its number and opening brace. */
  function ListStart(r: Reader): (t: Option<Reader>)
    requires Eaten(r)
    ensures t.Some? ==> Fits(t.value)
  {
    if VerbAt(r.line, r.pos.offset) != Some(Wait) then None
    else
      match ParseReal(r.line, TokenEnd(r.line, r.pos.offset))
      case Ok((_, o)) =>
        (match Eat(MoveTo(r, o))
         case Go(t) => if t.line[t.pos.offset] == '{' then Some(MoveTo(t, t.pos.offset + 1)) else None
         case _ => None)
      case _ => None
  }

  /** At the next command stands a WAIT whose list is never passed. */
  predicate NeverPassed(r: Reader)
    requires Eaten(r)
  {
    ListStart(r).Some? && !Passable(ListStart(r).value)
  }

  lemma WaitReturns(m: Machine, env: Env)
    requires Eaten(m.reader) && VerbAt(m.reader.line, m.reader.pos.offset) == Some(Wait)
    ensures var f := DoWait(m, env, TokenEnd(m.reader.line, m.reader.pos.offset));
            (f.Hung? ==> NeverPassed(m.reader)) && (f.Go? ==> !NeverPassed(m.reader))
  {
    hide VerbAt, ParseReal, Eat, TokenEnd, WaitItems, Passable, Reached;
    var end := TokenEnd(m.reader.line, m.reader.pos.offset);
    if ParseReal(m.reader.line, end).Ok? {
      var o := ParseReal(m.reader.line, end).value.1;
      if OpenBrace(m, o).Go? {
        ListPassed(OpenBrace(m, o).value, env, []);
      }
    }
  }

  lemma EvaluateReturns(m: Machine, v: Verb, o: nat)
    ensures !Evaluate(m, v, o).Hung?
  {
    hide Compound;
  }

  lemma SendReturns(m: Machine, env: Env, end: nat)
    ensures !DoSend(m, env, end).Hung?
  {
    hide Evaluate, EatSpaces, Find;
    EvaluateReturns(m, Send, EatSpaces(m.reader.line, end));
  }

  lemma SetReturns(m: Machine, end: nat)
    requires end <= |m.reader.line|
    ensures !DoSet(m, end).Hung?
  {
    hide Evaluate, EatSpaces, TokenEnd, AddVariable;
    var equals := EatSpaces(m.reader.line, TokenEnd(m.reader.line, EatSpaces(m.reader.line, end)));
    EvaluateReturns(m, Set, EatSpaces(m.reader.line, equals + 1));
  }

  lemma PlainReturn(m: Machine, end: nat)
    requires end <= |m.reader.line| && Fits(m.reader)
    ensures !DoGoto(m, end).Hung? && !DoDtr(m, end).Hung? && !DoCharmap(m, end).Hung?
    ensures !DoLoop(m, end).Hung? && !DoRead(m, end).Hung? && !DoExit(m, end).Hung?
  {
    hide Compound, Signed, EatSpaces, TokenEnd, Find, FindLabel, IsWord, ParseInteger, Eat;
  }

  lemma DispatchReturns(m: Machine, env: Env)
    requires Eaten(m.reader)
    ensures Dispatch(m, env).Hung? ==> NeverPassed(m.reader)
    ensures Dispatch(m, env).Go? ==> !NeverPassed(m.reader)
  {
    hide DoSet, DoSend, DoWait, DoLoop, DoGoto, DoRead, DoExit, DoDtr, DoCharmap, TokenEnd, VerbIn, Words, Passable;
    SendReturns(m, env, TokenEnd(m.reader.line, m.reader.pos.offset));
    SetReturns(m, TokenEnd(m.reader.line, m.reader.pos.offset));
    PlainReturn(m, TokenEnd(m.reader.line, m.reader.pos.offset));
    if VerbAt(m.reader.line, m.reader.pos.offset) == Some(Wait) {
      WaitReturns(m, env);
    }
  }

  /** The next round comes to a command, which is a WAIT whose list is never passed. */
  predicate AtNeverPassed(m: Machine)
    requires Fits(m.reader)
  {
    var t := Ready(m);
    Eat(t.reader).Go? &&
    var next := t.(reader := Eat(t.reader).value);
    ParseLabel(next).Go? && !ParseLabel(next).value.1 && !CheckLoop(next).1 && NeverPassed(next.reader)
  }

  /**
   A round that does not end the script never returns exactly if it comes to a WAIT one of
   whose items, before the closing brace, starts with a character that starts nothing.
  */
  lemma RoundReturns(m: Machine, env: Env)
    requires Fits(m.reader)
    ensures Step(m, env).Go? || Step(m, env).Hung? ==> (Step(m, env).Hung? <==> AtNeverPassed(m))
  {
    hide Eat, ParseLabel, CheckLoop, Dispatch, NeverPassed, CleanUp, ServiceSkip;
    ReadyKeeps(m);
    var t := Ready(m);
    if Eat(t.reader).Go? {
      var next := t.(reader := Eat(t.reader).value);
      LabelReturns(next);
      DispatchReturns(next, env);
    }
  }

  lemma LabelReturns(m: Machine)
    requires Eaten(m.reader)
    ensures !ParseLabel(m).Hung?
  {
  }

  /**
   Wherever a WAIT stands on a line of the script, and wherever its list goes on, each
   of its items takes something.
  */
  ghost predicate Clear(script: string) {
    forall r: Reader :: r.script == script && Reads(r) && Placed(script, r.pos, BASE) && Eaten(r) ==> !NeverPassed(r)
  }

  /** In a clear script every round returns. */
  lemma ClearRoundReturns(m: Machine, env: Env)
    requires Sound(m) && Proper(m.reader) && Reads(m.reader) && Clear(m.reader.script)
    ensures !Step(m, env).Hung?
  {
    hide Sound, Proper, Step, Eat, Ready, Reads, Placed, Reached, NeverPassed, ParseLabel, CheckLoop;
    ProperFits(m.reader);
    RoundReturns(m, env);
    if AtNeverPassed(m) && Step(m, env).Hung? {
      ReadySound(m);
      ReadyKeeps(m);
      var m0 := Ready(m);
      EatSound(m0);
      var m1 := m0.(reader := Eat(m0.reader).value);
      SoundPlaced(m1);
      ReadsFlags(m.reader, m0.reader);
      OnwardReached(m0.reader, m1.reader);
      ReachedReads(m0.reader, m1.reader);
      ReachedScript(m0.reader, m1.reader);
      assert false;
    }
  }

  lemma OnwardReached(r: Reader, t: Reader)
    requires Onward(r, t)
    ensures Reached(r, t)
  {
  }

  /** In normal mode a list is only ever stuck if a variable without a name has been defined. */
  lemma {:induction false} NormalListPassed(m: Machine, env: Env, items: seq<Waiting>)
    requires Fits(m.reader) && !m.reader.skip && Lookup(m.vars, "").None?
    ensures !WaitItems(m, env, items).Hung?
    decreases LeftBehind(m.reader), LeftOnLine(m.reader)
  {
    hide Eat, WaitItem, ItemEnd, Reached, Lookup, IsTemp;
    if Eat(m.reader).Go? {
      var r := Eat(m.reader).value;
      var t := m.(reader := r);
      ItemReturns(t, env);
      if r.line[r.pos.offset] != '}' && WaitItem(t, env).Go? {
        var (u, item) := WaitItem(t, env).value;
        EatFlags(m.reader);
        NamedItem(t, env);
        WaitItemInert(t, env);
        NoNameIsNoTemp();
        NormalListPassed(u, env, items + [item]);
      }
    }
  }

  lemma NoNameIsNoTemp()
    ensures !IsTemp("")
  {
    forall n: nat ensures Fold(TempName(n)) != Fold("") {
      assert |Fold(TempName(n))| > 0;
    }
  }

  /** Without a variable of that name, an item that starts with nothing is an error. */
  lemma NamedItem(m: Machine, env: Env)
    requires Eaten(m.reader) && !m.reader.skip && Lookup(m.vars, "").None? && WaitItem(m, env).Go?
    ensures WaitItem(m, env).value.0.reader.pos.offset > m.reader.pos.offset
  {
    hide Lookup, ItemEnd, Convert, Keep, More;
    var line, o := m.reader.line, m.reader.pos.offset;
    ItemPlace(m, env);
    TakesNothing(line, false, o);
    assert EatSpaces(line, o) == o;
    if StartsNothing(line[o]) {
      assert TokenEnd(line, o) == o;
      assert line[o..o] == "";
    }
  }
}
