/**
 CScriptExecutor and its commands in the form of the source: the reader, the label and
 variable stores and the chatter are objects of their own, and parsing is done by loops
 that move the offset. Every method is proved to compute its function on the machine.
*/
module ScriptExecutor {
  import opened Wrappers
  import opened ScriptText
  import opened ScriptReader
  import opened ScriptStores
  import E = ScriptExpressions
  import M = ScriptMachine
  import Steps = ScriptSteps
  import Runs = ScriptRuns
  import Port = ScriptPort
  import Progress = ScriptProgress
  import Chat

  /** What a method reports of a flow: only a normal end says what the machine is now. */
  ghost predicate Tells(f: M.Flow<M.Machine>, r: M.Flow<()>, s: M.Machine) {
    match f
    case Go(t) => r == M.Go(()) && s == t
    case Stop(error) => r == M.Stop(error)
    case Panicked => r == M.Panicked
    case Hung => r == M.Hung
  }

  // ---------- loops over a line ----------

  /** EatSpaces */
  method SkipBlanks(line: string, offset: nat) returns (o: nat)
    ensures o == EatSpaces(line, offset)
  {
    o := offset;
    while o < |line| && Blank(line[o])
      invariant EatSpaces(line, o) == EatSpaces(line, offset)
      decreases |line| - o
    {
      o := o + 1;
    }
  }

  /** FindTokenEnd */
  method FindTokenEnd(line: string, offset: nat) returns (end: nat)
    requires offset <= |line|
    ensures end == TokenEnd(line, offset)
  {
    if offset == |line| {
      return offset;
    }
    end := offset;
    while TokenChar(line[end])
      invariant offset <= end < |line|
      invariant TokenEnd(line, end) == TokenEnd(line, offset)
      decreases |line| - end
    {
      if end >= |line| - 1 {
        return end + 1;
      }
      end := end + 1;
    }
  }

  /** The loop of ParseEnclosedStringL. */
  method FindClosing(line: string, offset: nat, close: char) returns (end: nat)
    requires offset <= |line|
    ensures end == Find(line, offset, close)
  {
    end := offset;
    while end < |line| && line[end] != close
      invariant offset <= end <= |line|
      invariant Find(line, end, close) == Find(line, offset, close)
    {
      end := end + 1;
    }
  }

  /** The strings of a WAIT, in their order, behind what the chatter looks for already. */
  method AddStrings(chat: Chat.CommChatter, waits: seq<M.Waiting>)
    requires chat.Valid() && forall i :: 0 <= i < |waits| ==> waits[i].text != []
    modifies chat`list
    ensures chat.Valid() && chat.list == old(chat.list) + M.Strings(waits)
  {
    hide M.Strings;
    ghost var strings := M.Strings(waits);
    var i := 0;
    while i < |waits|
      invariant 0 <= i <= |waits| && chat.Valid()
      invariant chat.list == old(chat.list) + strings[..i]
    {
      assert strings[..i + 1] == strings[..i] + [strings[i]];
      chat.AddString(Chat.ChatString(waits[i].text, false));
      i := i + 1;
    }
    assert strings[..i] == strings;
  }

  class Executor {
    const reader: ScriptReader
    const vars: VarMan
    const labels: LabelMan
    const chat: Chat.CommChatter
    const convert: (string, string) -> Option<seq<Chat.Byte>>
    const txSize: nat
    var temps: map<M.Verb, nat>
    var loop: bool
    var counter: int
    var loopPos: LinePosition
    var search: string
    var waits: seq<M.Waiting>
    var last: Option<M.Verb>
    var charset: string
    var writePending: bool
    var readPending: bool
    var terminalPending: bool
    var login: M.Login
    var loginTimeout: real
    var finished: Option<Error>
    ghost var requests: seq<M.Request>

    ghost function S(): M.Machine
      reads this, reader, vars, labels, chat
    {
      M.Machine(reader.R(), vars.vars, labels.labels, temps, loop, counter, loopPos, search, waits, last, charset,
                chat.list, chat.history, writePending, readPending, terminalPending, login, loginTimeout, finished,
                  requests)
    }

    ghost function Env(): M.Env
      reads chat
    {
      M.Env(convert, chat.fold, chat.buffer.Length, txSize)
    }

    /** The expression state of command `v` at offset `o`. */
    ghost function At(v: M.Verb, o: nat): E.Eval
      reads this, vars
    {
      E.Eval(vars.vars, if v in temps then temps[v] else 0, o)
    }

    ghost predicate Valid()
      reads this, reader, vars, labels, chat, chat.buffer
    {
      chat.Valid() && Runs.Sound(S()) && Port.PortOk(S())
    }

    /** The objects of a script, and the script at its start: reset, and the port being opened for writing. */
    constructor (script: string, vars: VarMan, convert: (string, string) -> Option<seq<Chat.Byte>>, fold: Chat.Folding,
                 size: nat, txSize: nat)
      requires script != "" && size > 0
      ensures this.vars == vars && fresh(reader) && fresh(labels) && fresh(chat) && fresh(chat.buffer)
      ensures Valid() && S() == Port.Started(script, vars.vars)
      ensures Env() == M.Env(convert, fold, size, txSize)
    {
      this.vars, this.convert, this.txSize := vars, convert, txSize;
      reader := new ScriptReader();
      labels := new LabelMan();
      chat := new Chat.CommChatter(fold, size);
      temps, loop, counter, loopPos, search, waits, last := map[], false, 0, LinePosition(0, 0, 0, 0), "", [], None;
      charset, writePending, readPending, terminalPending := "", true, false, false;
      login, loginTimeout, finished, requests := M.FirstWait, 0.0, None, [];
      new;
      reader.SetScript(script);
      var _ := reader.Reset();
      Port.StartedSound(script, vars.vars);
    }

    // ---------- expressions ----------

    /** The next temporary variable. */
    method Keep(v: M.Verb, value: string, ghost o: nat) returns (r: Result<()>)
      requires v in temps
      modifies vars, this`temps
      ensures v in temps && temps == old(temps)[v := temps[v]]
      ensures match E.Keep(old(At(v, o)), value)
              case Ok(e) => r == Ok(()) && At(v, o) == e && temps[v] > 0
                            && Lookup(vars.vars, E.TempName(temps[v] - 1)) == Some(value)
              case _ => r == Panic && At(v, o) == old(At(v, o))
    {
      hide E.TempName, Lookup, Define;
      var n := temps[v];
      if n >= 0x8000_0000 {
        return Panic;
      }
      E.TempNamesFit(n);
      DefineThenLookup(vars.vars, E.TempName(n), value, E.TempName(n));
      temps := temps[v := n + 1];
      r := vars.Add(E.TempName(n), value);
    }

    /** ParseEnclosedStringL */
    method ParseEnclosed(v: M.Verb, line: string, o: nat, close: char, error: Error) returns (r: Result<string>,
                         end: nat)
      requires o <= |line|
      ensures (At(v, end), r) == E.Enclosed(line, At(v, o), close, error)
      ensures o <= end <= |line|
    {
      var at := FindClosing(line, o, close);
      if at >= |line| {
        return Leave(error), o;
      }
      return Ok(line[o..at]), at + 1;
    }

    /** ParseCharacterL */
    method ParseCharacter(v: M.Verb, line: string, o: nat) returns (r: Result<string>, end: nat)
      requires o <= |line| && v in temps
      modifies vars, this`temps
      ensures v in temps && temps == old(temps)[v := temps[v]]
      ensures (At(v, end), r) == E.Character(line, old(At(v, o)))
    {
      hide CodeText, E.Enclosed, E.Keep;
      r, end := ParseEnclosed(v, line, o, '>', MissingChevron);
      if !r.Ok? {
        return;
      }
      r := CodeText(r.value);
      if !r.Ok? {
        return;
      }
      var kept := Keep(v, r.value, end);
      if !kept.Ok? {
        KeepPanics(old(At(v, end)), r.value);
        return Panic, end;
      }
    }

    /** ParseVariableL */
    method ParseVariable(v: M.Verb, line: string, o: nat) returns (r: Result<string>, end: nat)
      requires o <= |line|
      modifies vars`index
      ensures (At(v, end), r) == E.VariableValue(line, reader.skip, old(At(v, o)))
    {
      end := FindTokenEnd(line, o);
      var content := vars.Find(line[o..end]);
      if content.None? {
        r := if reader.skip then Ok("") else Leave(VariableNotFound);
      } else {
        r := Ok(content.value);
      }
    }

    /** ParseExpressionL */
    method ParseExpression(v: M.Verb, o: nat) returns (r: Result<string>, end: nat)
      requires v in temps
      modifies vars, this`temps
      ensures v in temps && temps == old(temps)[v := temps[v]]
      ensures (At(v, end), r) == E.Term(reader.line, reader.skip, old(At(v, o)))
    {
      hide EatSpaces, E.Enclosed, E.Character, E.VariableValue;
      var line := reader.line;
      var start := SkipBlanks(line, o);
      if |line| <= start {
        return Leave(NoExpression), start;
      }
      if line[start] == '"' {
        r, end := ParseEnclosed(v, line, start + 1, '"', MissingQuote);
      } else if line[start] == '<' {
        r, end := ParseCharacter(v, line, start + 1);
      } else {
        r, end := ParseVariable(v, line, start);
      }
    }

    /** One term, appended to the text so far and kept. */
    method AddTerm(v: M.Verb, o: nat, whole: string) returns (r: Result<string>, end: nat)
      requires v in temps
      modifies vars, this`temps
      ensures v in temps && temps == old(temps)[v := temps[v]]
      ensures (At(v, end), r) == OneMore(reader.line, reader.skip, old(At(v, o)), whole)
      ensures r.Ok? ==> temps[v] > 0 && Lookup(vars.vars, E.TempName(temps[v] - 1)) == Some(r.value)
    {
      hide E.Term, E.Keep, Lookup, E.TempName;
      r, end := ParseExpression(v, o);
      if r.Ok? {
        r := Ok(whole + r.value);
        KeepOffset(At(v, end), r.value);
        var kept := Keep(v, r.value, end);
        if !kept.Ok? {
          r := Panic;
        }
      }
    }

    /** ParseCompoundExpressionL: the value is read back from the last temporary variable. */
    method ParseCompoundExpression(v: M.Verb, o: nat) returns (r: Result<string>, end: nat)
      requires v in temps
      modifies vars, this`temps
      ensures v in temps && temps == old(temps)[v := temps[v]]
      ensures (At(v, end), r) == E.Compound(reader.line, reader.skip, old(At(v, o)))
    {
      hide OneMore, Lookup, E.TempName, E.More, E.Compound;
      CompoundIs(reader.line, reader.skip, At(v, o));
      r, end := AddTerm(v, o, "");
      if r.Ok? {
        r, end := ParseMore(v, end, r.value);
      }
    }

    /** The loop of ParseCompoundExpressionL. */
    method ParseMore(v: M.Verb, o: nat, first: string) returns (r: Result<string>, end: nat)
      requires v in temps && temps[v] > 0 && Lookup(vars.vars, E.TempName(temps[v] - 1)) == Some(first)
      requires o <= |reader.line|
      modifies vars, this`temps
      ensures v in temps && temps == old(temps)[v := temps[v]]
      ensures (At(v, end), r) == E.More(reader.line, reader.skip, old(At(v, o)), first)
    {
      hide EatSpaces, OneMore, Lookup, E.TempName, E.More;
      ghost var all := E.More(reader.line, reader.skip, At(v, o), first);
      var whole := first;
      end := o;
      while true
        invariant v in temps && temps == old(temps)[v := temps[v]] && temps[v] > 0
        invariant end <= |reader.line| && E.More(reader.line, reader.skip, At(v, end), whole) == all
        invariant Lookup(vars.vars, E.TempName(temps[v] - 1)) == Some(whole)
        decreases |reader.line| - end
      {
        MoreIs(reader.line, reader.skip, At(v, end), whole);
        var sign := SkipBlanks(reader.line, end);
        if sign >= |reader.line| || reader.line[sign] != '+' {
          end := sign;
          r := ReadBack(v);
          return;
        }
        r, end := AddTerm(v, sign + 1, whole);
        if !r.Ok? {
          return;
        }
        whole := r.value;
      }
    }

    /** The content of the last temporary variable. */
    method ReadBack(v: M.Verb) returns (r: Result<string>)
      requires v in temps && temps[v] > 0
      modifies vars`index
      ensures r == match Lookup(vars.vars,
              E.TempName(temps[v] - 1)) case None => Leave(VariableNotFound) case Some(content) => Ok(content)
    {
      hide Lookup, E.TempName;
      var content := vars.Find(E.TempName(temps[v] - 1));
      r := if content.None? then Leave(VariableNotFound) else Ok(content.value);
    }

    // ---------- getting to the next command ----------

    method SetOffset(o: nat)
      modifies reader`pos
      ensures reader.R() == M.MoveTo(old(reader.R()), o)
    {
      reader.pos := reader.pos.(offset := o);
    }

    /** EatSpacesAndLinesL */
    method EatLines() returns (r: M.Flow<()>)
      requires M.Fits(reader.R())
      modifies reader`pos, reader`line
      ensures match M.EatLines(old(reader.R()))
              case Go(t) => r == M.Go(()) && reader.R() == t
              case Stop(error) => r == M.Stop(error)
              case _ => false
    {
      hide EatSpaces, M.EatLines, NextLine;
      ghost var first := reader.R();
      EatLinesIs(first);
      var o := SkipBlanks(reader.line, reader.pos.offset);
      SetOffset(o);
      while reader.pos.offset >= |reader.line|
        invariant M.Fits(reader.R()) && EatSpaces(reader.line, reader.pos.offset) == reader.pos.offset
        invariant M.EatLines(reader.R()) == M.EatLines(first)
        decreases M.LeftBehind(reader.R())
      {
        EatLinesIs(reader.R());
        if NextLine(reader.R()).Some? {
          M.NextIs(reader.R(), reader.pos.offset);
          SamePlace(reader.R());
        }
        var ret := reader.GetNextLine();
        if ret != KErrNone {
          return M.Stop(ScriptCompleted);
        }
        EatLinesIs(reader.R());
        o := SkipBlanks(reader.line, reader.pos.offset);
        SetOffset(o);
      }
      EatLinesIs(reader.R());
      SamePlace(reader.R());
      return M.Go(());
    }

    /** EatSpacesAndLinesAndCommentsL */
    method Eat() returns (r: M.Flow<()>)
      requires M.Fits(reader.R())
      modifies reader`pos, reader`line
      ensures match M.Eat(old(reader.R()))
              case Go(t) => r == M.Go(()) && reader.R() == t
              case Stop(error) => r == M.Stop(error)
              case _ => false
    {
      hide M.EatLines, M.Eat, M.Reached;
      ghost var first := reader.R();
      EatIs(first);
      r := EatLines();
      if !r.Go? {
        return;
      }
      while reader.line[reader.pos.offset] == '!'
        invariant reader.pos.offset < |reader.line| && M.Fits(reader.R())
        invariant M.Eat(first) == if reader.line[reader.pos.offset] == '!' then
                M.Eat(M.MoveTo(reader.R(), |reader.line|)) else M.Go(reader.R())
        decreases M.LeftBehind(reader.R()), M.LeftOnLine(reader.R())
      {
        ghost var t := M.MoveTo(reader.R(), |reader.line|);
        EatIs(t);
        SetOffset(|reader.line|);
        r := EatLines();
        if !r.Go? {
          return;
        }
      }
      return M.Go(());
    }

    // ---------- commands ----------

    /** A compound expression for command `v`, which moves the offset behind itself. */
    method Evaluate(v: M.Verb, o: nat) returns (r: M.Flow<string>)
      modifies vars, this`temps, reader`pos
      ensures match M.Evaluate(old(S()), v, o)
              case Go((t, text)) => r == M.Go(text) && S() == t
              case Stop(error) => r == M.Stop(error)
              case Panicked => r == M.Panicked
              case Hung => false
    {
      hide E.Compound, M.Evaluate;
      EvaluateIs(S(), v, o);
      temps := temps[v := if v in temps then temps[v] else 0];
      var value, end := ParseCompoundExpression(v, o);
      SetOffset(end);
      assert S() == M.Evaluated(old(S()), v, At(v, end));
      match value {
        case Ok(text) => return M.Go(text);
        case Leave(error) => return M.Stop(error);
        case Panic => return M.Panicked;
      }
    }

    /** ParseCharacterTypeL: the name in brackets and the offset behind it. */
    method ParseCharacterType(line: string, offset: nat) returns (r: M.Flow<(string, nat)>)
      requires offset <= |line|
      ensures r == M.CharacterType(line, offset)
    {
      var start := SkipBlanks(line, offset);
      if |line| <= start {
        return M.Go(("", start));
      }
      if line[start] != '[' {
        return M.Go(("", start));
      }
      var end := FindClosing(line, start + 1, ']');
      if end >= |line| {
        return M.Stop(MissingBracket);
      }
      if end - start - 1 > M.KMaxCharacterTypeLength {
        return M.Panicked;
      }
      return M.Go((line[start + 1..end], end + 1));
    }

    /** ConvertLC */
    method Convert(text: string) returns (r: M.Flow<seq<Chat.Byte>>)
      requires reader.pos.offset <= |reader.line|
      modifies reader`pos
      ensures match M.Convert(old(S()), Env(), text)
              case Go((t, bytes)) => r == M.Go(bytes) && S() == t
              case Stop(error) => r == M.Stop(error)
              case Panicked => r == M.Panicked
              case Hung => r == M.Hung
    {
      hide M.CharacterType;
      var name := ParseCharacterType(reader.line, reader.pos.offset);
      if !name.Go? {
        match name {
          case Stop(error) => return M.Stop(error);
          case Panicked => return M.Panicked;
          case Hung => return M.Hung;
        }
      }
      var bytes := convert(text, if name.value.0 == "" then charset else name.value.0);
      if bytes.None? {
        return M.Stop(CharacterConversionError);
      }
      SetOffset(name.value.1);
      return M.Go(bytes.value);
    }

    /** SET */
    method DoSet(end: nat) returns (r: M.Flow<()>)
      requires end <= |reader.line|
      modifies vars, this`temps, reader`pos
      ensures Tells(M.DoSet(old(S()), end), r, S())
    {
      hide EatSpaces, TokenEnd, M.Evaluate, Define;
      var line := reader.line;
      var start := SkipBlanks(line, end);
      var nameEnd := FindTokenEnd(line, start);
      var equals := SkipBlanks(line, nameEnd);
      if equals >= |line| {
        return M.Panicked;
      }
      if line[equals] != '=' {
        return M.Stop(NoEquals);
      }
      var o := SkipBlanks(line, equals + 1);
      var value := Evaluate(M.Set, o);
      match value {
        case Go(text) =>
          if reader.skip {
            return M.Go(());
          }
          var added := vars.Add(line[start..nameEnd], text);
          return if added.Ok? then M.Go(()) else M.Stop(VariableNameTooLong);
        case Stop(error) => return M.Stop(error);
        case Panicked => return M.Panicked;
        case Hung => return M.Hung;
      }
    }

    /** SEND */
    method DoSend(end: nat) returns (r: M.Flow<()>)
      modifies vars, this`temps, this`writePending, this`requests, reader`pos
      ensures Tells(M.DoSend(old(S()), old(Env()), end), r, S())
      ensures !r.Go? ==> requests == old(requests)
    {
      hide EatSpaces, M.Evaluate, M.Convert;
      var o := SkipBlanks(reader.line, end);
      var value := Evaluate(M.Send, o);
      match value {
        case Go(text) =>
          ghost var t := S();
          var bytes := Convert(text);
          match bytes {
            case Go(data) =>
              if !reader.skip {
                writePending := true;
                requests := requests + [M.Write(if |data| > txSize then data[..txSize] else data)];
              }
              return M.Go(());
            case Stop(error) => return M.Stop(error);
            case Panicked => return M.Panicked;
            case Hung => return M.Hung;
          }
        case Stop(error) => return M.Stop(error);
        case Panicked => return M.Panicked;
        case Hung => return M.Hung;
      }
    }

    /** One string of a WAIT and its label. */
    method WaitItem() returns (r: M.Flow<M.Waiting>)
      modifies vars, this`temps, reader`pos
      ensures match M.WaitItem(old(S()), old(Env()))
              case Go((t, item)) => r == M.Go(item) && S() == t
              case Stop(error) => r == M.Stop(error)
              case Panicked => r == M.Panicked
              case Hung => r == M.Hung
    {
      hide EatSpaces, TokenEnd, M.Evaluate, M.Convert;
      var value := Evaluate(M.Wait, reader.pos.offset);
      match value {
        case Stop(error) => return M.Stop(error);
        case Panicked => return M.Panicked;
        case Hung => return M.Hung;
        case Go(text) =>
          var bytes := M.Go([]);
          SamePlace(reader.R());
          if !reader.skip {
            bytes := Convert(text);
          }
          match bytes {
            case Stop(error) => return M.Stop(error);
            case Panicked => return M.Panicked;
            case Hung => return M.Hung;
            case Go(data) =>
              var start := SkipBlanks(reader.line, reader.pos.offset);
              var end := FindTokenEnd(reader.line, start);
              var target := reader.line[start..end];
              if !reader.skip && data == [] {
                return M.Panicked;
              }
              SetOffset(end);
              return M.Go(M.Waiting(data, target));
          }
      }
    }

    /** The opening brace of WAIT and LOOP. */
    method OpenBrace(o: nat) returns (r: M.Flow<()>)
      requires M.Fits(reader.R())
      modifies reader`pos, reader`line
      ensures Tells(M.OpenBrace(old(S()), o), r, S())
      ensures r.Go? ==> M.Fits(reader.R())
    {
      hide M.Eat, M.Reached;
      SetOffset(o);
      r := Eat();
      if !r.Go? {
        return;
      }
      EatFits(M.MoveTo(old(reader.R()), o));
      var c := reader.line[reader.pos.offset];
      SetOffset(reader.pos.offset + 1);
      if c != '{' {
        return M.Stop(NoOpenExpression);
      }
    }

    /** The closing brace of a WAIT, or its next string. */
    method NextString() returns (r: M.Flow<Option<M.Waiting>>)
      requires M.Fits(reader.R())
      modifies vars, this`temps, reader`pos, reader`line
      ensures match NextStringOf(old(S()), old(Env()))
              case Go((t, item)) => r == M.Go(item) && S() == t
              case Stop(error) => r == M.Stop(error)
              case Panicked => r == M.Panicked
              case Hung => r == M.Hung
    {
      hide M.Eat, M.Reached, M.WaitItem;
      ghost var m := S();
      var eaten := Eat();
      if !eaten.Go? {
        return if eaten.Stop? then M.Stop(eaten.error) else if eaten.Panicked? then M.Panicked else M.Hung;
      }
      assert S() == m.(reader := M.Eat(m.reader).value);
      var o := reader.pos.offset;
      if reader.line[o] == '}' {
        SetOffset(o + 1);
        return M.Go(None);
      }
      var item := WaitItem();
      if !item.Go? {
        return if item.Stop? then M.Stop(item.error) else if item.Panicked? then M.Panicked else M.Hung;
      }
      return if reader.pos.offset == o then M.Hung else M.Go(Some(item.value));
    }

    /** The strings of a WAIT up to the closing brace. Where no character is taken, the source goes round for ever. */
    method WaitItems() returns (r: M.Flow<seq<M.Waiting>>)
      requires M.Fits(reader.R())
      modifies vars, this`temps, reader`pos, reader`line
      ensures match M.WaitItems(old(S()), old(Env()), [])
              case Go((t, items)) => r == M.Go(items) && S() == t
              case Stop(error) => r == M.Stop(error)
              case Panicked => r == M.Panicked
              case Hung => r == M.Hung
    {
      hide NextStringOf, M.WaitItems;
      ghost var all := M.WaitItems(S(), Env(), []);
      var items: seq<M.Waiting> := [];
      while true
        invariant M.Fits(reader.R())
        invariant M.WaitItems(S(), Env(), items) == all
        decreases M.LeftBehind(reader.R()), M.LeftOnLine(reader.R())
      {
        WaitItemsIs(S(), Env(), items);
        var next := NextString();
        if !next.Go? {
          return if next.Stop? then M.Stop(next.error) else if next.Panicked? then M.Panicked else M.Hung;
        }
        if next.value.None? {
          return M.Go(items);
        }
        items := items + [next.value.value];
      }
    }

    /** SetRetransmittedLoginTimeout and CScriptIO::Read; the timer and the port are not shown. */
    method StartRead(found: seq<M.Waiting>, value: real)
      requires chat.Valid() && forall i :: 0 <= i < |found| ==> found[i].text != []
      modifies this`waits, this`loginTimeout, this`readPending, this`requests, chat`list, chat`stringFound
      ensures chat.Valid() && chat.stringFound == KErrNotFound
      ensures S() == M.StartRead(old(S()), found, value)
    {
      hide M.Strings, Chat.CommChatter.Valid;
      AddStrings(chat, found);
      chat.Begin();
      AskPort(found, value);
    }

    method AskPort(found: seq<M.Waiting>, value: real)
      modifies this`waits, this`loginTimeout, this`readPending, this`requests
      ensures waits == found && loginTimeout == value && readPending
      ensures requests == old(requests) + [M.ReadPort(if login == M.FirstWait && value > 30.0 then 30.0 else value)]
    {
      waits := found;
      loginTimeout := value;
      var period := value;
      if login == M.FirstWait && value > 30.0 {
        period := 30.0;
      }
      readPending := true;
      requests := requests + [M.ReadPort(period)];
    }

    /** WAIT */
    method DoWait(end: nat) returns (r: M.Flow<()>)
      requires end <= |reader.line| && M.Fits(reader.R()) && chat.Valid()
      modifies vars, this`temps, this`waits, this`loginTimeout, this`readPending, this`requests, reader`pos,
               reader`line, chat`list, chat`stringFound
      ensures Tells(M.DoWait(old(S()), old(Env()), end), r, S())
      ensures !r.Go? ==> requests == old(requests)
      ensures chat.Valid()
    {
      hide M.OpenBrace, M.WaitItems, ParseReal;
      var period := ParseReal(reader.line, end);
      match period {
        case Leave(error) => return M.Stop(error);
        case Panic => return M.Panicked;
        case Ok((value, o)) =>
          r := OpenBrace(o);
          if !r.Go? {
            return;
          }
          ghost var t := S();
          var items := WaitItems();
          match items {
            case Stop(error) => return M.Stop(error);
            case Panicked => return M.Panicked;
            case Hung => return M.Hung;
            case Go(found) =>
              if !reader.skip {
                StringsNotEmpty(t, Env(), []);
                StartRead(found, value);
              }
          }
      }
    }

    /** LOOP */
    method DoLoop(end: nat) returns (r: M.Flow<()>)
      requires end <= |reader.line| && M.Fits(reader.R())
      modifies this`loop, this`counter, this`loopPos, reader`pos, reader`line
      ensures Tells(M.DoLoop(old(S()), end), r, S())
    {
      hide M.OpenBrace, ParseInteger;
      if loop {
        return M.Stop(NestedLoop);
      }
      var count := ParseInteger(reader.line, end);
      match count {
        case Leave(error) => return M.Stop(error);
        case Panic => return M.Panicked;
        case Ok((value, o)) =>
          if value < M.KMinLoopCounter || value > M.KMaxLoopCounter {
            return M.Stop(LoopCounterOutOfRange);
          }
          r := OpenBrace(o);
          if !r.Go? {
            return;
          }
          loop, counter := true, value;
          loopPos := reader.pos;
      }
    }

    /** CGotoCommand::Goto */
    method GotoLabel(name: string) returns (r: M.Flow<()>)
      modifies this`search, reader`toggle, reader`pos
      ensures Tells(M.GotoLabel(old(S()), name), r, S())
    {
      if reader.skip {
        return M.Go(());
      }
      var pos := labels.Find(name);
      if pos.None? {
        if |name| > KMaxLabelLength {
          return M.Panicked;
        }
        search := name;
        reader.toggle := true;
      } else {
        reader.SetCurrentPos(pos.value);
      }
      return M.Go(());
    }

    /** GOTO */
    method DoGoto(end: nat) returns (r: M.Flow<()>)
      requires end <= |reader.line|
      modifies this`search, reader`toggle, reader`pos
      ensures Tells(M.DoGoto(old(S()), end), r, S())
    {
      hide M.GotoLabel, EatSpaces, TokenEnd;
      var start := SkipBlanks(reader.line, end);
      var stop := FindTokenEnd(reader.line, start);
      r := GotoLabel(reader.line[start..stop]);
      SetOffset(stop);
    }

    /** CScriptIO::Cancel */
    method CancelIO()
      requires chat.Valid()
      modifies this`readPending, this`writePending, chat`list
      ensures chat.Valid() && S() == M.CancelIO(old(S()))
    {
      readPending, writePending := false, false;
      chat.DeleteAll();
    }

    /** DTR */
    method DoDtr(end: nat) returns (r: M.Flow<()>)
      requires end <= |reader.line| && chat.Valid()
      modifies this`readPending, this`writePending, this`requests, reader`pos, chat`list
      ensures Tells(M.DoDtr(old(S()), end), r, S()) && chat.Valid()
      ensures !r.Go? ==> requests == old(requests)
    {
      hide IsWord, EatSpaces, TokenEnd, Chat.CommChatter.Valid;
      var line := reader.line;
      var start := SkipBlanks(line, end);
      var stop := FindTokenEnd(line, start);
      SetOffset(stop);
      if IsWord(line, start, "DROP") {
        if !reader.skip {
          CancelIO();
          requests := requests + [M.RaiseDTR];
        }
      } else if IsWord(line, start, "RAISE") {
        if !reader.skip {
          CancelIO();
          requests := requests + [M.DropDTR];
        }
      } else {
        return M.Stop(NoDropOrRaise);
      }
      return M.Go(());
    }

    /** READ */
    method DoRead(end: nat) returns (r: M.Flow<()>)
      modifies this`readPending, this`terminalPending, this`requests, reader`pos
      ensures r.Go? && Tells(M.DoRead(old(S()), end), r, S())
    {
      SetOffset(end);
      if !reader.skip {
        readPending, terminalPending := true, true;
        requests := requests + [M.ReadTerminal];
      }
      return M.Go(());
    }

    /** CHARMAP */
    method DoCharmap(end: nat) returns (r: M.Flow<()>)
      requires end <= |reader.line|
      modifies this`charset, reader`pos
      ensures Tells(M.DoCharmap(old(S()), end), r, S())
    {
      hide M.CharacterType;
      SetOffset(end);
      if !reader.skip {
        var name := ParseCharacterType(reader.line, end);
        match name {
          case Go((text, o)) =>
            charset := text;
            SetOffset(o);
          case Stop(error) => return M.Stop(error);
          case Panicked => return M.Panicked;
          case Hung => return M.Hung;
        }
      }
      return M.Go(());
    }

    /** EXIT: leaving errors are trapped. */
    method DoExit(end: nat) returns (r: M.Flow<()>)
      modifies vars, this`temps, reader`pos
      ensures Tells(M.DoExit(old(S()), end), r, S())
    {
      hide E.Compound, EatSpaces, M.DoExit, M.ExitError;
      ExitIs(S(), end);
      var o := SkipBlanks(reader.line, end);
      temps := temps[M.Exit := if M.Exit in temps then temps[M.Exit] else 0];
      var value, stop := ParseCompoundExpression(M.Exit, o);
      SetOffset(stop);
      assert S() == M.Evaluated(old(S()), M.Exit, At(M.Exit, stop));
      if value.Panic? {
        return M.Panicked;
      }
      if reader.skip {
        return M.Go(());
      }
      var error := Leaving(value);
      return M.Stop(error);
    }

    /** The number of an EXIT, or the trapped error, as the error the script ends with. */
    static method Leaving(value: Result<string>) returns (error: Error)
      requires !value.Panic?
      ensures error == M.ExitError(value)
    {
      if value.Leave? {
        return if value.error == NoExpression then ScriptCompleted else value.error;
      }
      var code := Signed(value.value, 0);
      if code.None? {
        return InvalidNumber;
      }
      if code.value.0 > 0 {
        return NumberOutOfRange;
      }
      return if code.value.0 == 0 then ScriptCompleted else ExitCode(code.value.0);
    }

    // ---------- the loop of ProcessNextLinesL ----------

    /** CleanupLastCommand */
    method CleanupLastCommand()
      requires chat.Valid()
      modifies this`waits, this`last, this`readPending, this`writePending, chat`list
      ensures chat.Valid() && S() == M.CleanUp(old(S()))
    {
      hide Chat.CommChatter.Valid;
      if last == Some(M.Wait) && !reader.skip {
        CancelIO();
        waits := [];
      }
      last := None;
    }

    /** ServiceSkipReqs */
    method ServiceSkipReqs()
      modifies reader`skip, reader`toggle
      ensures S() == M.ServiceSkip(old(S()))
    {
      if reader.toggle {
        reader.toggle := false;
        reader.skip := !reader.skip;
      }
    }

    /** ParseLabelL, at the next command. */
    method ParseLabel() returns (r: M.Flow<bool>)
      requires M.Eaten(reader.R())
      modifies labels, reader`pos, reader`toggle
      ensures match M.ParseLabel(old(S()))
              case Go((t, consumed)) => r == M.Go(consumed) && S() == t
              case Stop(error) => r == M.Stop(error)
              case Panicked => r == M.Panicked
              case Hung => r == M.Hung
    {
      hide AddLabel, FindLabel, TokenEnd, Blank;
      var start := reader.pos.offset;
      var end := FindTokenEnd(reader.line, start);
      if end >= |reader.line| || reader.line[end] != ':' {
        return M.Go(false);
      }
      var pos := reader.pos.(offset := end + 1);
      var added := labels.Add(reader.line[start..end], pos);
      match added {
        case Leave(error) => return M.Stop(error);
        case Panic => return M.Panicked;
        case Ok(_) =>
          SetOffset(end + 1);
          if reader.skip {
            var known := labels.Find(search);
            if known.Some? {
              reader.toggle := true;
            }
          }
          return M.Go(true);
      }
    }

    /** CheckLoopL, at the next command. */
    method CheckLoop() returns (consumed: bool)
      requires M.Eaten(reader.R())
      modifies this`loop, this`counter, reader`pos
      ensures (S(), consumed) == M.CheckLoop(old(S()))
    {
      if loop {
        if reader.line[reader.pos.offset] == '}' {
          counter := counter - 1;
          if counter == 0 || reader.skip {
            loop := false;
            SetOffset(reader.pos.offset + 1);
          } else {
            reader.SetCurrentPos(loopPos);
          }
          return true;
        }
      }
      return false;
    }

    /** The loop over the commands: whose word stands at the offset? */
    method FindCommand() returns (verb: Option<M.Verb>)
      requires reader.pos.offset <= |reader.line|
      ensures verb == M.VerbAt(reader.line, reader.pos.offset)
    {
      hide IsWord;
      var words := M.Words();
      var i := 0;
      assert words[0..] == words;
      while i < |words|
        invariant 0 <= i <= |words|
        invariant M.VerbIn(words[i..], reader.line, reader.pos.offset) == M.VerbAt(reader.line, reader.pos.offset)
      {
        assert words[i..][0] == words[i] && words[i..][1..] == words[i + 1..];
        if IsWord(reader.line, reader.pos.offset, words[i].0) {
          return Some(words[i].1);
        }
        i := i + 1;
      }
      return None;
    }

    /** The rest of ParseL, behind the word of the command. */
    method RunCommand(verb: M.Verb) returns (r: M.Flow<()>)
      requires M.Eaten(reader.R()) && chat.Valid()
      modifies this`temps, this`loop, this`counter, this`loopPos, this`search, this`waits, this`charset,
               this`writePending, this`readPending,
               this`terminalPending, this`loginTimeout, this`requests, vars, reader`pos, reader`line, reader`toggle,
                 chat`list, chat`stringFound
      ensures Tells(M.Command(old(S()), old(Env()), verb), r, S()) && chat.Valid()
      ensures !r.Go? ==> requests == old(requests)
    {
      hide M.DoWait, M.DoSend, M.DoRead, M.DoLoop, M.DoExit, M.DoGoto, M.DoSet, M.DoDtr, M.DoCharmap, TokenEnd, Blank,
        Chat.CommChatter.Valid;
      var end := FindTokenEnd(reader.line, reader.pos.offset);
      match verb {
        case Wait => r := DoWait(end);
        case Send => r := DoSend(end);
        case Read => r := DoRead(end);
        case Loop => r := DoLoop(end);
        case Exit => r := DoExit(end);
        case Goto => r := DoGoto(end);
        case Set => r := DoSet(end);
        case Dtr => r := DoDtr(end);
        case Charmap => r := DoCharmap(end);
      }
    }

    /** One round of the loop of ProcessNextLinesL. */
    method ProcessNextLine() returns (r: M.Flow<()>)
      requires M.Fits(reader.R()) && chat.Valid()
      modifies this`temps, this`loop, this`counter, this`loopPos, this`search, this`waits, this`last, this`charset,
               this`writePending, this`readPending,
               this`terminalPending, this`loginTimeout, this`requests, vars, labels, reader`pos, reader`line,
                 reader`skip, reader`toggle, chat`list, chat`stringFound
      ensures Tells(M.Step(old(S()), old(Env())), r, S()) && chat.Valid()
      ensures !r.Go? ==> requests == old(requests)
    {
      hide M.CleanUp, M.ServiceSkip, M.Eat, M.Eaten, M.ParseLabel, M.CheckLoop, M.Dispatch, M.Reached,
        Chat.CommChatter.Valid;
      ReadyFits(S());
      CleanupLastCommand();
      ServiceSkipReqs();
      ghost var m0 := S();
      r := Eat();
      if !r.Go? {
        return;
      }
      assert S() == m0.(reader := M.Eat(m0.reader).value);
      r := ParseNext();
    }

    /** A label, a closing brace, or a command, at the next command. */
    method ParseNext() returns (r: M.Flow<()>)
      requires M.Eaten(reader.R()) && chat.Valid()
      modifies this`temps, this`loop, this`counter, this`loopPos, this`search, this`waits, this`last, this`charset,
               this`writePending, this`readPending,
               this`terminalPending, this`loginTimeout, this`requests, vars, labels, reader`pos, reader`line,
                 reader`toggle, chat`list, chat`stringFound
      ensures Tells(M.Parse(old(S()), old(Env())), r, S()) && chat.Valid()
      ensures !r.Go? ==> requests == old(requests)
    {
      hide M.Eaten, M.CheckLoop, M.Dispatch, M.ParseLabel, Chat.CommChatter.Valid;
      ghost var m := S();
      LabelSame(m);
      var labelled := ParseLabel();
      match labelled {
        case Stop(error) => return M.Stop(error);
        case Panicked => return M.Panicked;
        case Hung => return M.Hung;
        case Go(consumed) =>
          if consumed {
            return M.Go(());
          }
      }
      LoopSame(m);
      var closed := CheckLoop();
      if closed {
        return M.Go(());
      }
      r := RunNext();
    }

    /** The command at the offset; it is remembered for its clean-up. */
    method RunNext() returns (r: M.Flow<()>)
      requires M.Eaten(reader.R()) && chat.Valid()
      modifies this`temps, this`loop, this`counter, this`loopPos, this`search, this`waits, this`last, this`charset,
               this`writePending, this`readPending,
               this`terminalPending, this`loginTimeout, this`requests, vars, reader`pos, reader`line, reader`toggle,
                 chat`list, chat`stringFound
      ensures Tells(M.Dispatch(old(S()), old(Env())), r, S()) && chat.Valid()
      ensures !r.Go? ==> requests == old(requests)
    {
      hide M.Command, M.VerbAt, Blank, Chat.CommChatter.Valid;
      var verb := FindCommand();
      if verb.None? {
        return M.Stop(IllegalCommand);
      }
      r := RunCommand(verb.value);
      if r.Go? {
        last := verb;
      }
    }

    // ---------- completions ----------

    /** CompletedScript */
    method CompletedScript(error: Error)
      requires chat.Valid()
      modifies this`waits, this`last, this`loop, this`readPending, this`writePending, this`finished, chat`list
      ensures chat.Valid() && S() == M.Finish(old(S()), error)
    {
      hide Chat.CommChatter.Valid, M.CleanUp;
      CleanupLastCommand();
      loop := false;
      CancelIO();
      finished := Some(error);
    }

    /** CompletedWrite */
    method CompletedWrite(error: Option<Error>)
      requires chat.Valid()
      modifies this`waits, this`last, this`loop, this`readPending, this`writePending, this`finished, this`login,
               this`requests, chat`list
      ensures chat.Valid() && S() == M.CompletedWrite(old(S()), error)
    {
      hide Chat.CommChatter.Valid, M.Finish;
      if error.Some? && error != Some(TimedOut) {
        CompletedScript(error.value);
      } else if login == M.SendingCR {
        login := M.SecondWait;
        readPending := true;
        requests := requests + [M.ReadPort(loginTimeout)];
      }
    }

    /** CompletedReadL with an error. */
    method CompletedRead(error: Error)
      requires chat.Valid()
      modifies this`waits, this`last, this`loop, this`readPending, this`writePending, this`finished, this`login,
               this`requests, chat`list
      ensures chat.Valid() && S() == M.CompletedRead(old(S()), error)
    {
      hide Chat.CommChatter.Valid, M.Finish, M.CompletedRead;
      CompletedReadIs(S(), error);
      if login == M.SecondWait {
        login := M.Deactivated;
      }
      if error == TimedOut && login == M.FirstWait {
        SendCR();
        return;
      }
      login := M.Deactivated;
      assert S() == old(S()).(login := M.Deactivated);
      if error != TimedOut && error != CommsError {
        CompletedScript(error);
      }
    }

    /** The carriage return that makes the server repeat its login prompt. */
    method SendCR()
      modifies this`login, this`writePending, this`requests
      ensures login == M.SendingCR && writePending && requests == old(requests) + [M.WriteCR]
    {
      login := M.SendingCR;
      writePending := true;
      requests := requests + [M.WriteCR];
    }

    /** CompletedReadL with a string found: LabelFromIndexL and Goto. */
    method FoundString(index: int) returns (r: M.Flow<()>)
      modifies this`login, this`search, reader`toggle, reader`pos
      ensures Tells(M.FoundString(old(S()), index), r, S())
    {
      hide M.GotoLabel;
      login := M.Deactivated;
      if 0 <= index < |waits| {
        r := GotoLabel(waits[index].target);
      } else {
        r := M.Panicked;
      }
    }

    /** CommReadComplete */
    method CommReadComplete(status: M.IoStatus, rx: seq<Chat.Byte>) returns (r: M.Flow<()>)
      requires chat.Valid()
      modifies this`waits, this`last, this`loop, this`readPending, this`writePending, this`finished, this`login,
               this`requests, this`search,
               reader`toggle, reader`pos, chat, chat.buffer
      ensures chat.Valid()
      ensures Tells(M.AfterRead(old(S()), old(Env()), status, rx), r, S())
    {
      hide Chat.CommChatter.Valid, M.CompletedRead, M.FoundString, Chat.ScanAll;
      match status {
        case LineFail =>
          readPending := false;
          CompletedRead(CommsError);
          return M.Go(());
        case OtherError(code) =>
          readPending := false;
          CompletedRead(ExitCode(code));
          return M.Go(());
        case _ =>
      }
      r := LookThrough(rx);
    }

    /** The part of CommReadComplete that looks at the received characters. */
    method LookThrough(rx: seq<Chat.Byte>) returns (r: M.Flow<()>)
      requires chat.Valid()
      modifies this`readPending, this`login, this`search, reader`toggle, reader`pos, chat, chat.buffer
      ensures chat.Valid()
      ensures Tells(M.AfterRead(old(S()), old(Env()), M.Fine, rx), r, S())
    {
      hide M.FoundString, Chat.ScanAll;
      if terminalPending {
        return M.Go(());
      }
      chat.Begin();
      var excess := chat.Scan(rx);
      if chat.stringFound == KErrNotFound {
        return M.Go(());
      }
      readPending := false;
      r := FoundString(chat.stringFound);
    }

    /** CommWriteComplete */
    method CommWriteComplete(status: M.IoStatus)
      requires chat.Valid()
      modifies this`waits, this`last, this`loop, this`readPending, this`writePending, this`finished, this`login,
               this`requests, chat`list
      ensures chat.Valid() && S() == M.AfterWrite(old(S()), status)
    {
      hide Chat.CommChatter.Valid, M.CompletedWrite;
      writePending := false;
      match status {
        case LineFail => CompletedWrite(Some(CommsError));
        case OtherError(code) => CompletedWrite(Some(ExitCode(code)));
        case _ => CompletedWrite(None);
      }
    }

    /** ChatTimeout */
    method ChatTimeout()
      requires chat.Valid() && (writePending || readPending)
      modifies this`waits, this`last, this`loop, this`readPending, this`writePending, this`finished, this`login,
               this`requests, chat`list
      ensures chat.Valid() && S() == M.AfterTimeout(old(S()))
    {
      hide Chat.CommChatter.Valid, M.CompletedWrite, M.CompletedRead;
      if writePending {
        writePending := false;
        CompletedWrite(Some(TimedOut));
      } else {
        readPending := false;
        CompletedRead(TimedOut);
      }
    }

    /**
     ProcessNextLinesL with the completion of ProcessScript, for a script that comes to rest
     after at most `jumps` jumps back to labels; one that jumps back for ever does not.
    */
    method ProcessScript(ghost jumps: nat) returns (r: M.Flow<()>)
      requires Valid() && finished.None? && Settles(S(), Env(), jumps)
      modifies this`temps, this`loop, this`counter, this`loopPos, this`search, this`waits, this`last, this`charset,
               this`writePending, this`readPending,
               this`terminalPending, this`loginTimeout, this`requests, this`finished, vars, labels,
               reader`pos, reader`line, reader`skip, reader`toggle, chat`list, chat`stringFound
      ensures chat.Valid()
      ensures match Progress.Process(old(S()), old(Env()), jumps)
              case Go(t) =>
                && r == M.Go(()) && !M.Running(S())
                && (t.finished.None? ==> S() == t && Valid())
                && (t.finished.Some? ==> finished == t.finished && requests == t.requests)
              case Stop(error) => false
              case Panicked => r == M.Panicked
              case Hung => r == M.Hung
    {
      hide M.Step, Runs.Sound, Port.PortOk, Progress.Process, Progress.Measure, Progress.TurnsBack, Progress.Less,
        Chat.CommChatter.Valid, M.Finish, Steps.Proper;
      ghost var all := Progress.Process(S(), Env(), jumps);
      ghost var left := jumps;
      while Busy()
        invariant chat.Valid() && Runs.Sound(S()) && Port.PortOk(S()) && finished.None?
        invariant Settles(S(), Env(), left) && Progress.Process(S(), Env(), left) == all
        decreases left, Progress.Measure(S())[0], Progress.Measure(S())[1], Progress.Measure(S())[2],
                  Progress.Measure(S())[3], Progress.Measure(S())[4], Progress.Measure(S())[5]
      {
        ghost var m := S();
        ghost var env := Env();
        Round(m, env, left);
        r := ProcessNextLine();
        match r {
          case Stop(error) =>
            FinishIs(S(), error);
            CompletedScript(error);
            FinishIs(m, error);
            return M.Go(());
          case Panicked => return;
          case Hung => return;
          case Go(_) =>
            Progress.LessIs(S(), m);
            left := if Progress.TurnsBack(m) then left - 1 else left;
        }
      }
      Rest(S(), Env(), left);
      return M.Go(());
    }

    /** Nothing is pending, so the next line can be processed. */
    predicate Busy()
      reads this
    {
      !(writePending || readPending) && !terminalPending
    }
  }

  /** A term behind the text so far, kept in a temporary variable. */
  function OneMore(line: string, skip: bool, e: E.Eval, whole: string): (E.Eval, Result<string>) {
    var (e1, value) := E.Term(line, skip, e);
    if !value.Ok? then (e1, value)
    else
      match E.Keep(e1, whole + value.value)
      case Ok(e2) => (e2, Ok(whole + value.value))
      case _ => (e1, Panic)
  }

  lemma CompoundIs(line: string, skip: bool, e: E.Eval)
    ensures var (e1, r) := OneMore(line, skip, e, "");
            && (r.Ok? ==> e1.offset <= |line|)
            && E.Compound(line, skip, e) == if r.Ok? then E.More(line, skip, e1, r.value) else (e1, r)
  {
    hide E.Term, Define, E.TempName;
    var value := E.Term(line, skip, e).1;
    if value.Ok? {
      assert "" + value.value == value.value;
    }
  }

  lemma KeepPanics(e: E.Eval, value: string)
    ensures E.Keep(e, value).Ok? || E.Keep(e, value) == Panic
  {
  }

  lemma KeepOffset(e: E.Eval, value: string)
    ensures E.Keep(e, value).Ok? ==> E.Keep(e, value).value.offset == e.offset
    ensures E.Keep(e, value).Ok? || E.Keep(e, value) == Panic
  {
  }

  /** One round of the loop over the terms. */
  lemma MoreIs(line: string, skip: bool, e: E.Eval, whole: string)
    requires e.offset <= |line|
    ensures var o := EatSpaces(line, e.offset);
            if o >= |line| || line[o] != '+' then E.More(line, skip, e, whole) == (e.(offset := o), Ok(whole))
            else
              var (e1, r) := OneMore(line, skip, e.(offset := o + 1), whole);
              && (r.Ok? ==> o < e1.offset <= |line|)
              && E.More(line, skip, e, whole) == if r.Ok? then E.More(line, skip, e1, r.value) else (e1, r)
  {
    hide EatSpaces, E.Term, Define, E.TempName;
  }

  /** In normal mode no string of a WAIT is empty. */
  lemma {:induction false} StringsNotEmpty(m: M.Machine, env: M.Env, items: seq<M.Waiting>)
    requires M.Fits(m.reader) && !m.reader.skip && M.WaitItems(m, env, items).Go?
    requires forall i :: 0 <= i < |items| ==> items[i].text != []
    ensures forall i :: 0 <= i < |M.WaitItems(m, env, items).value.1| ==>
            M.WaitItems(m, env, items).value.1[i].text != []
    decreases M.LeftBehind(m.reader), M.LeftOnLine(m.reader)
  {
    hide NextStringOf, M.WaitItems;
    WaitItemsIs(m, env, items);
    StringNotEmpty(m, env);
    var next := NextStringOf(m, env);
    if next.value.1.Some? {
      StringsNotEmpty(next.value.0, env, items + [next.value.1.value]);
    }
  }

  lemma StringNotEmpty(m: M.Machine, env: M.Env)
    requires M.Fits(m.reader) && !m.reader.skip && NextStringOf(m, env).Go?
    ensures !NextStringOf(m, env).value.0.reader.skip
    ensures NextStringOf(m, env).value.1.Some? ==> NextStringOf(m, env).value.1.value.text != []
  {
    hide M.Eat, M.WaitItem;
    var t := m.(reader := M.Eat(m.reader).value);
    if t.reader.line[t.reader.pos.offset] != '}' {
      ItemNotEmpty(t, env);
    }
  }

  lemma ItemNotEmpty(m: M.Machine, env: M.Env)
    requires !m.reader.skip && M.WaitItem(m, env).Go?
    ensures M.WaitItem(m, env).value.1.text != []
  {
    hide M.Evaluate, M.Convert, EatSpaces, TokenEnd;
  }

  lemma EatFits(r: Reader)
    requires M.Fits(r) && M.Eat(r).Go?
    ensures M.Fits(M.Eat(r).value)
  {
  }

  /** The failure of one flow as a failure of another. */
  predicate SameFailure<A, B>(a: M.Flow<A>, b: M.Flow<B>) {
    match a
    case Go(_) => false
    case Stop(error) => b.Stop? && b.error == error
    case Panicked => b.Panicked?
    case Hung => b.Hung?
  }

  /** The closing brace or the next string; `Hung` if no character is taken. */
  ghost function NextStringOf(m: M.Machine, env: M.Env): M.Flow<(M.Machine, Option<M.Waiting>)>
    requires M.Fits(m.reader)
  {
    match M.Eat(m.reader)
    case Go(r) =>
      var t := m.(reader := r);
      if r.line[r.pos.offset] == '}' then M.Go((t.(reader := M.MoveTo(r, r.pos.offset + 1)), None))
      else
        (match M.WaitItem(t, env)
         case Go((u, item)) => if u.reader.pos.offset == r.pos.offset then M.Hung else M.Go((u, Some(item)))
         case Stop(error) => M.Stop(error)
         case Panicked => M.Panicked
         case Hung => M.Hung)
    case Stop(error) => M.Stop(error)
    case Panicked => M.Panicked
    case Hung => M.Hung
  }

  /** One round of the loop over the strings. */
  lemma WaitItemsIs(m: M.Machine, env: M.Env, items: seq<M.Waiting>)
    requires M.Fits(m.reader)
    ensures var next := NextStringOf(m, env);
            && (!next.Go? ==> SameFailure(next, M.WaitItems(m, env, items)))
            && (next.Go? && next.value.1.None? ==> M.WaitItems(m, env, items) == M.Go((next.value.0, items)))
            && (next.Go? && next.value.1.Some? ==>
                  var u := next.value.0;
                  && M.Fits(u.reader)
                  && (M.LeftBehind(u.reader) < M.LeftBehind(m.reader)
                      || (M.LeftBehind(u.reader) == M.LeftBehind(m.reader)
                         && M.LeftOnLine(u.reader) < M.LeftOnLine(m.reader)))
                  && M.WaitItems(m, env, items) == M.WaitItems(u, env, items + [next.value.1.value]))
  {
    hide M.Eat, M.WaitItem, M.Reached;
  }

  /** The run of rounds ends before the jumps back are used up. */
  ghost predicate Settles(m: M.Machine, env: M.Env, jumps: nat)
    requires Runs.Sound(m)
  {
    Progress.Process(m, env, jumps).Go? ==> !M.Running(Progress.Process(m, env, jumps).value)
  }

  lemma FinishIs(m: M.Machine, error: Error)
    ensures M.Finish(m, error).finished == Some(error) && M.Finish(m, error).requests == m.requests
            && !M.Running(M.Finish(m, error))
  {
  }

  lemma Rest(m: M.Machine, env: M.Env, jumps: nat)
    requires Runs.Sound(m) && !M.Running(m)
    ensures Progress.Process(m, env, jumps) == M.Go(m)
  {
  }

  /** One round of a run that ends. */
  lemma Round(m: M.Machine, env: M.Env, jumps: nat)
    requires Runs.Sound(m) && Port.PortOk(m) && M.Running(m) && Settles(m, env, jumps)
    ensures M.Fits(m.reader)
    ensures Progress.TurnsBack(m) ==> jumps > 0
    ensures forall i :: 0 <= i < 6 ==> Progress.Measure(m)[i] >= 0
    ensures match M.Step(m, env)
            case Go(t) =>
              var left := if Progress.TurnsBack(m) then jumps - 1 else jumps;
              && left >= 0 && Runs.Sound(t) && Port.PortOk(t) && t.finished == m.finished
              && Progress.Process(t, env, left) == Progress.Process(m, env, jumps)
              && Settles(t, env, left)
              && (!Progress.TurnsBack(m) ==> Progress.Less(t, m))
              && (forall i :: 0 <= i < 6 ==> Progress.Measure(t)[i] >= 0)
            case Stop(error) => Progress.Process(m, env, jumps) == M.Go(M.Finish(m, error))
            case Panicked => Progress.Process(m, env, jumps) == M.Panicked
            case Hung => Progress.Process(m, env, jumps) == M.Hung
  {
    hide M.Step, Runs.Sound, Port.PortOk, Progress.TurnsBack, Progress.Measure, M.Finish, M.Running, Steps.Proper,
      M.Fits, Progress.Less;
    Runs.SoundProper(m);
    Runs.ProperFits(m.reader);
    Progress.MeasureBounded(m);
    if M.Step(m, env).Go? {
      var t := M.Step(m, env).value;
      Runs.StepSound(m, env);
      Port.StepPort(m, env);
      Runs.StepLabels(m, env);
      Progress.MeasureBounded(t);
      if !Progress.TurnsBack(m) {
        Progress.StepProgresses(m, env);
      }
    }
  }

  lemma CompletedReadIs(m: M.Machine, error: Error)
    ensures error == TimedOut && m.login == M.FirstWait ==>
              M.CompletedRead(m, error)
                == m.(login := M.SendingCR, writePending := true, requests := m.requests + [M.WriteCR])
    ensures !(error == TimedOut && m.login == M.FirstWait) && (error == TimedOut || error == CommsError) ==>
              M.CompletedRead(m, error) == m.(login := M.Deactivated)
    ensures error != TimedOut && error != CommsError ==>
            M.CompletedRead(m, error) == M.Finish(m.(login := M.Deactivated), error)
  {
    hide M.Finish;
  }

  lemma ReadyFits(m: M.Machine)
    requires M.Fits(m.reader)
    ensures M.Fits(M.ServiceSkip(M.CleanUp(m)).reader)
  {
  }

  /** Without a label nothing has changed. */
  lemma LabelSame(m: M.Machine)
    requires M.Eaten(m.reader)
    ensures M.ParseLabel(m).Go? && !M.ParseLabel(m).value.1 ==> M.ParseLabel(m).value.0 == m
  {
    hide AddLabel, TokenEnd, FindLabel;
  }

  lemma LoopSame(m: M.Machine)
    requires M.Eaten(m.reader)
    ensures !M.CheckLoop(m).1 ==> M.CheckLoop(m).0 == m
  {
  }

  lemma ExitIs(m: M.Machine, end: nat)
    ensures var t := E.Eval(m.vars, if M.Exit in m.temps then m.temps[M.Exit] else 0, EatSpaces(m.reader.line, end));
            var (e, value) := E.Compound(m.reader.line, m.reader.skip, t);
            M.DoExit(m, end) == if value.Panic? then M.Panicked
                                else if m.reader.skip then M.Go(M.Evaluated(m, M.Exit, e))
                                else M.Stop(M.ExitError(value))
  {
    hide E.Compound, EatSpaces, M.ExitError;
  }

  lemma EvaluateIs(m: M.Machine, v: M.Verb, o: nat)
    ensures var (e, value) := E.Compound(m.reader.line, m.reader.skip,
            E.Eval(m.vars, if v in m.temps then m.temps[v] else 0, o));
            M.Evaluate(m, v, o) == match value
                                   case Ok(text) => M.Go((M.Evaluated(m, v, e), text))
                                   case Leave(error) => M.Stop(error)
                                   case Panic => M.Panicked
  {
    hide E.Compound;
  }

  lemma SamePlace(r: Reader)
    ensures M.MoveTo(r, r.pos.offset) == r
  {
  }

  /** Blanks first, then the next line if nothing is left. */
  lemma EatLinesIs(r: Reader)
    requires M.Fits(r)
    ensures var t := M.MoveTo(r, EatSpaces(r.line, r.pos.offset));
            && M.Fits(t) && M.EatLines(t) == M.EatLines(r)
            && EatSpaces(t.line, t.pos.offset) == t.pos.offset
            && (t.pos.offset < |t.line| ==> M.EatLines(r) == M.Go(t))
            && (t.pos.offset >= |t.line| ==>
                  M.EatLines(r) == match NextLine(t)
                                   case None => M.Stop(ScriptCompleted)
                                   case Some(n) => if M.Fits(n) then M.EatLines(n) else M.Hung)
  {
    var o := EatSpaces(r.line, r.pos.offset);
    var t := M.MoveTo(r, o);
    assert EatSpaces(t.line, o) == o;
    hide EatSpaces, NextLine;
    SamePlace(t);
    assert M.MoveTo(t, o) == M.MoveTo(r, o);
    if o >= |r.line| && NextLine(t).Some? {
      M.NextIs(r, o);
    }
  }

  lemma EatIs(r: Reader)
    requires M.Fits(r)
    ensures match M.EatLines(r)
            case Go(t) => && M.Fits(t) && t.pos.offset < |t.line|
                          && M.Eat(r) == if t.line[t.pos.offset] == '!' then M.Eat(M.MoveTo(t, |t.line|)) else M.Go(t)
            case Stop(error) => M.Eat(r) == M.Stop(error)
            case _ => false
  {
    hide M.EatLines, M.Reached;
  }
}
