/**
 The interpreter of login scripts: CScriptExecutor with its commands, and the
 serial port as far as the commands use it. `Step` is one round of the loop of
 ProcessNextLinesL; the functions at the end are the completions of reads,
 writes and timeouts.
*/
module ScriptMachine {
  import opened Wrappers
  import opened ScriptText
  import opened ScriptReader
  import opened ScriptStores
  import opened ScriptExpressions
  import Chat

  /** A step goes on, ends the script with an error, panics the thread, or never returns. */
  datatype Flow<+T> = Go(value: T) | Stop(error: Error) | Panicked | Hung

  datatype Verb = Wait | Send | Read | Loop | Exit | Goto | Set | Dtr | Charmap

  /** iServerRetransmitLoginPromptStatus */
  datatype Login = FirstWait | SendingCR | SecondWait | Deactivated

  datatype Request =
    | Write(data: seq<Chat.Byte>)
    | WriteCR
    | ReadPort(timeout: real)
    | ReadTerminal
    | RaiseDTR
    | DropDTR

  /** One line of a WAIT: the string to look for, and the label beside it. */
  datatype Waiting = Waiting(text: seq<Chat.Byte>, target: string)

  datatype Machine = Machine(
    reader: Reader,
    vars: seq<Variable>,
    labels: seq<Label>,
    temps: map<Verb, nat>,       // iTempVarNum of each command
    loop: bool,                  // iLoop
    counter: int,                // iLoopCounter
    loopPos: LinePosition,       // iLoopPosition
    search: string,              // iSearchName
    waits: seq<Waiting>,         // iLabelArray
    last: Option<Verb>,          // iLastCommand
    charset: string,             // iDefaultCharSet
    chat: seq<Chat.ChatString>,  // the strings of the chatter
    received: seq<Chat.Byte>,    // history of the chatter
    writePending: bool,
    readPending: bool,
    terminalPending: bool,       // iReadFromPctPending
    login: Login,
    loginTimeout: real,          // iRetransmitLoginTimeOut
    finished: Option<Error>,     // the completion of the script
    requests: seq<Request>)      // history: what has been asked of the port

  /** What the machine does not decide: character conversion, folding, and sizes of buffers. */
  datatype Env = Env(convert: (string, string) -> Option<seq<Chat.Byte>>, fold: Chat.Folding, history: nat, txSize: nat)

  const KMaxCharacterTypeLength := 60
  const KMinLoopCounter := 1
  const KMaxLoopCounter := 10000

  /** Line counts start at two: a reset reads the first line twice. */
  const BASE := 2

  function Temp(m: Machine, v: Verb): nat {
    if v in m.temps then m.temps[v] else 0
  }

  function MoveTo(r: Reader, o: nat): Reader {
    r.(pos := r.pos.(offset := o))
  }

  // ---------- getting to the next command ----------

  /** The next line can be asked for. */
  predicate Fits(r: Reader) {
    r.pos.start + r.pos.length <= |r.script|
  }

  /** Position `b` is behind position `a`. */
  predicate Behind(a: LinePosition, b: LinePosition) {
    a.start < b.start || (a.start == b.start && a.offset < b.offset)
  }

  /** `t` reads the same line as `r` no earlier, or a later line from the script. */
  ghost predicate Reached(r: Reader, t: Reader) {
    && t.script == r.script && t.skip == r.skip && t.toggle == r.toggle && Fits(t)
    && (|| (t.line == r.line && t.pos == r.pos.(offset := t.pos.offset) && r.pos.offset <= t.pos.offset)
        || (r.pos.start + r.pos.length <= t.pos.start && Synced(t)))
  }

  /** What is left of the script behind the current line, and of the line behind the offset. */
  function LeftBehind(r: Reader): nat
    requires Fits(r)
  {
    |r.script| - r.pos.start - r.pos.length
  }

  function LeftOnLine(r: Reader): nat {
    if r.pos.offset < |r.line| then |r.line| - r.pos.offset else 0
  }

  /** The next line, whatever the offset was. */
  lemma NextIs(r: Reader, o: nat)
    requires Fits(r) && NextLine(MoveTo(r, o)).Some?
    ensures var n := NextLine(MoveTo(r, o)).value;
            && n.script == r.script && n.skip == r.skip && n.toggle == r.toggle
            && Fits(n) && Synced(n) && LeftBehind(n) < LeftBehind(r)
            && n.pos.start == r.pos.start + r.pos.length && n.pos.offset == 0
  {
  }

  /** What is reached from the next line is reached from this one. */
  lemma ReachedOverNext(r: Reader, o: nat)
    requires Fits(r) && NextLine(MoveTo(r, o)).Some?
    ensures forall t: Reader :: Reached(NextLine(MoveTo(r, o)).value, t) ==> Reached(r, t)
  {
    NextIs(r, o);
    hide NextLine;
  }

  /** EatSpacesAndLinesL */
  function EatLines(r: Reader): (f: Flow<Reader>)
    requires Fits(r)
    ensures f.Go? ==> Reached(r, f.value)
    ensures f.Go? ==> f.value.pos.offset < |f.value.line| && !Blank(f.value.line[f.value.pos.offset])
    ensures f.Go? ==> LeftBehind(f.value) < LeftBehind(r)
                      || (LeftBehind(f.value) == LeftBehind(r) && LeftOnLine(f.value) <= LeftOnLine(r))
    ensures f.Go? || f == Stop(ScriptCompleted)
    decreases LeftBehind(r)
  {
    var o := EatSpaces(r.line, r.pos.offset);
    if o < |r.line| then Go(MoveTo(r, o))
    else if NextLine(MoveTo(r, o)).None? then Stop(ScriptCompleted)
    else
      NextIs(r, o);
      ReachedOverNext(r, o);
      EatLines(NextLine(MoveTo(r, o)).value)
  }

  /** EatSpacesAndLinesAndCommentsL: the next character that is neither blank nor in a comment. */
  function Eat(r: Reader): (f: Flow<Reader>)
    requires Fits(r)
    ensures f.Go? ==> Reached(r, f.value) && Eaten(f.value)
    ensures f.Go? ==> LeftBehind(f.value) < LeftBehind(r)
                      || (LeftBehind(f.value) == LeftBehind(r) && LeftOnLine(f.value) <= LeftOnLine(r))
    ensures f.Go? || f == Stop(ScriptCompleted)
    decreases LeftBehind(r), LeftOnLine(r)
  {
    match EatLines(r)
    case Go(t) => if t.line[t.pos.offset] == '!' then Eat(MoveTo(t, |t.line|)) else Go(t)
    case stop => stop
  }

  predicate Eaten(r: Reader) {
    Fits(r) && r.pos.offset < |r.line| && !Blank(r.line[r.pos.offset]) && r.line[r.pos.offset] != '!'
  }

  /** Looking for the next command again finds the same place. */
  lemma EatAgain(r: Reader)
    requires Eaten(r)
    ensures Eat(r) == Go(r)
  {
    assert MoveTo(r, r.pos.offset) == r;
  }

  // ---------- labels and loops ----------

  /** ParseLabelL, at the next command; false if there is no label. */
  function ParseLabel(m: Machine): Flow<(Machine, bool)>
    requires Eaten(m.reader)
  {
    var line, start := m.reader.line, m.reader.pos.offset;
    var end := TokenEnd(line, start);
    if end == |line| || line[end] != ':' then Go((m, false))
    else
      match AddLabel(m.labels, line[start..end], m.reader.pos.(offset := end + 1))
      case Ok(labels) =>
        var found := m.reader.skip && FindLabel(labels, m.search).Some?;
        Go((m.(labels := labels, reader := MoveTo(m.reader, end + 1).(toggle := m.reader.toggle || found)), true))
      case Leave(error) => Stop(error)
      case Panic => Panicked
  }

  /** CheckLoopL, at the next command: a closing brace in a loop goes back or ends it. */
  function CheckLoop(m: Machine): (Machine, bool)
    requires Eaten(m.reader)
  {
    if !m.loop || m.reader.line[m.reader.pos.offset] != '}' then (m, false)
    else if m.counter - 1 == 0 || m.reader.skip then
      (m.(counter := m.counter - 1, loop := false, reader := MoveTo(m.reader, m.reader.pos.offset + 1)), true)
    else
      (m.(counter := m.counter - 1, reader := m.reader.(pos := m.loopPos)), true)
  }

  // ---------- commands ----------

  /** A compound expression at `o`, with the temporaries of command `v`; errors end the command. */
  function Evaluate(m: Machine, v: Verb, o: nat): (f: Flow<(Machine, string)>)
    ensures f.Go? ==> f.value.0.reader == MoveTo(m.reader, f.value.0.reader.pos.offset)
                      && o <= f.value.0.reader.pos.offset <= |m.reader.line|
  {
    var (e, value) := Compound(m.reader.line, m.reader.skip, Eval(m.vars, Temp(m, v), o));
    match value
    case Ok(text) => Go((Evaluated(m, v, e), text))
    case Leave(error) => Stop(error)
    case Panic => Panicked
  }

  function Evaluated(m: Machine, v: Verb, e: Eval): Machine {
    m.(vars := e.vars, temps := m.temps[v := e.temp], reader := MoveTo(m.reader, e.offset))
  }

  /** ParseCharacterTypeL at `o`: the name in brackets, or nothing. */
  function CharacterType(line: string, o: nat): (f: Flow<(string, nat)>)
    requires o <= |line|
    ensures f.Go? ==> o <= f.value.1 <= |line|
  {
    var start := EatSpaces(line, o);
    if start == |line| || line[start] != '[' then Go(("", start))
    else
      var end := Find(line, start + 1, ']');
      if end == |line| then Stop(MissingBracket)
      else if end - start - 1 > KMaxCharacterTypeLength then Panicked
      else Go((line[start + 1..end], end + 1))
  }

  /** ConvertLC: the text in the character set named behind it, or in the default one. */
  function Convert(m: Machine, env: Env, text: string): (f: Flow<(Machine, seq<Chat.Byte>)>)
    requires m.reader.pos.offset <= |m.reader.line|
    ensures f.Go? ==> f.value.0 == m.(reader := MoveTo(m.reader, f.value.0.reader.pos.offset))
                      && m.reader.pos.offset <= f.value.0.reader.pos.offset <= |m.reader.line|
  {
    match CharacterType(m.reader.line, m.reader.pos.offset)
    case Go((name, o)) =>
      var bytes := env.convert(text, if name == "" then m.charset else name);
      if bytes.None? then Stop(CharacterConversionError)
      else Go((m.(reader := MoveTo(m.reader, o)), bytes.value))
    case Stop(error) => Stop(error)
    case Panicked => Panicked
    case Hung => Hung
  }

  function DoSet(m: Machine, end: nat): Flow<Machine>
    requires end <= |m.reader.line|
  {
    var line := m.reader.line;
    var start := EatSpaces(line, end);
    var name := line[start..TokenEnd(line, start)];
    var equals := EatSpaces(line, TokenEnd(line, start));
    if equals == |line| then Panicked
    else if line[equals] != '=' then Stop(NoEquals)
    else
      match Evaluate(m, Set, EatSpaces(line, equals + 1))
      case Go((t, value)) =>
        if t.reader.skip then Go(t)
        else
          (match AddVariable(t.vars, name, value)
           case Ok(vars) => Go(t.(vars := vars))
           case Leave(error) => Stop(error)
           case Panic => Panicked)
      case Stop(error) => Stop(error)
      case Panicked => Panicked
      case Hung => Hung
  }

  function DoSend(m: Machine, env: Env, end: nat): Flow<Machine> {
    match Evaluate(m, Send, EatSpaces(m.reader.line, end))
    case Go((t, text)) =>
      (match Convert(t, env, text)
       case Go((u, bytes)) =>
         if u.reader.skip then Go(u)
         else
           var sent := if |bytes| > env.txSize then bytes[..env.txSize] else bytes;
           Go(u.(writePending := true, requests := u.requests + [Write(sent)]))
       case Stop(error) => Stop(error)
       case Panicked => Panicked
       case Hung => Hung)
    case Stop(error) => Stop(error)
    case Panicked => Panicked
    case Hung => Hung
  }

  /** In skip mode the string of a WAIT is not converted. */
  function WaitString(m: Machine, env: Env, text: string): (f: Flow<(Machine, seq<Chat.Byte>)>)
    requires m.reader.pos.offset <= |m.reader.line|
    ensures f.Go? ==> f.value.0 == m.(reader := MoveTo(m.reader, f.value.0.reader.pos.offset))
                      && m.reader.pos.offset <= f.value.0.reader.pos.offset <= |m.reader.line|
  {
    assert MoveTo(m.reader, m.reader.pos.offset) == m.reader;
    if m.reader.skip then Go((m, [])) else Convert(m, env, text)
  }

  /** One string of a WAIT and its label, at the next non-blank. */
  function WaitItem(m: Machine, env: Env): (f: Flow<(Machine, Waiting)>)
    ensures f.Go? ==> f.value.0.reader == MoveTo(m.reader, f.value.0.reader.pos.offset)
                      && m.reader.pos.offset <= f.value.0.reader.pos.offset <= |m.reader.line|
  {
    match Evaluate(m, Wait, m.reader.pos.offset)
    case Go((t, text)) =>
      (match WaitString(t, env, text)
       case Go((u, bytes)) =>
         var line := u.reader.line;
         var start := EatSpaces(line, u.reader.pos.offset);
         var end := TokenEnd(line, start);
         if !u.reader.skip && bytes == [] then Panicked
         else Go((u.(reader := MoveTo(u.reader, end)), Waiting(bytes, line[start..end])))
       case Stop(error) => Stop(error)
       case Panicked => Panicked
       case Hung => Hung)
    case Stop(error) => Stop(error)
    case Panicked => Panicked
    case Hung => Hung
  }

  /**
   The strings up to the closing brace. An item that takes no character is taken
   again and again.
  */
  function WaitItems(m: Machine, env: Env, items: seq<Waiting>): Flow<(Machine, seq<Waiting>)>
    requires Fits(m.reader)
    decreases LeftBehind(m.reader), LeftOnLine(m.reader)
  {
    match Eat(m.reader)
    case Go(r) =>
      var t := m.(reader := r);
      if r.line[r.pos.offset] == '}' then Go((t.(reader := MoveTo(r, r.pos.offset + 1)), items))
      else
        (match WaitItem(t, env)
         case Go((u, item)) =>
           if u.reader.pos.offset == r.pos.offset then Hung else WaitItems(u, env, items + [item])
         case Stop(error) => Stop(error)
         case Panicked => Panicked
         case Hung => Hung)
    case Stop(error) => Stop(error)
    case Panicked => Panicked
    case Hung => Hung
  }

  /** The opening brace of WAIT and LOOP. */
  function OpenBrace(m: Machine, o: nat): (f: Flow<Machine>)
    requires Fits(m.reader)
    ensures f.Go? ==> f.value == m.(reader := f.value.reader) && Reached(MoveTo(m.reader, o), f.value.reader)
    ensures f.Go? ==> 0 < f.value.reader.pos.offset <= |f.value.reader.line|
  {
    match Eat(MoveTo(m.reader, o))
    case Go(r) => if r.line[r.pos.offset] != '{' then Stop(NoOpenExpression)
      else Go(m.(reader := MoveTo(r, r.pos.offset + 1)))
    case Stop(error) => Stop(error)
    case Panicked => Panicked
    case Hung => Hung
  }

  function Strings(waits: seq<Waiting>): (r: seq<Chat.ChatString>)
    ensures |r| == |waits|
    ensures forall i :: 0 <= i < |r| ==> r[i] == Chat.ChatString(waits[i].text, false)
  {
    seq(|waits|, i requires 0 <= i < |waits| => Chat.ChatString(waits[i].text, false))
  }

  /** SetRetransmittedLoginTimeout and Read: the very first wait is at most thirty seconds. */
  function StartRead(m: Machine, waits: seq<Waiting>, period: real): Machine {
    m.(waits := waits,
       loginTimeout := period,
       chat := m.chat + Strings(waits),
       readPending := true,
       requests := m.requests + [ReadPort(if m.login == FirstWait && period > 30.0 then 30.0 else period)])
  }

  function DoWait(m: Machine, env: Env, end: nat): Flow<Machine>
    requires end <= |m.reader.line| && Fits(m.reader)
  {
    match ParseReal(m.reader.line, end)
    case Ok((period, o)) =>
      (match OpenBrace(m, o)
       case Go(t) =>
         (match WaitItems(t, env, [])
          case Go((u, items)) => if u.reader.skip then Go(u) else Go(StartRead(u, items, period))
          case Stop(error) => Stop(error)
          case Panicked => Panicked
          case Hung => Hung)
       case Stop(error) => Stop(error)
       case Panicked => Panicked
       case Hung => Hung)
    case Leave(error) => Stop(error)
    case Panic => Panicked
  }

  function DoLoop(m: Machine, end: nat): Flow<Machine>
    requires end <= |m.reader.line| && Fits(m.reader)
  {
    if m.loop then Stop(NestedLoop)
    else
      match ParseInteger(m.reader.line, end)
      case Ok((count, o)) =>
        if count < KMinLoopCounter || count > KMaxLoopCounter then Stop(LoopCounterOutOfRange)
        else
          (match OpenBrace(m, o)
           case Go(t) => Go(t.(loop := true, counter := count, loopPos := t.reader.pos))
           case Stop(error) => Stop(error)
           case Panicked => Panicked
           case Hung => Hung)
      case Leave(error) => Stop(error)
      case Panic => Panicked
  }

  /** CGotoCommand::Goto: back to a known label, or forward in skip mode until an unknown one is found. */
  function GotoLabel(m: Machine, name: string): Flow<Machine> {
    if m.reader.skip then Go(m)
    else
      match FindLabel(m.labels, name)
      case None =>
        if |name| > KMaxLabelLength then Panicked
        else Go(m.(search := name, reader := m.reader.(toggle := true)))
      case Some(pos) => Go(m.(reader := m.reader.(pos := pos)))
  }

  /** GOTO: whatever the jump, the offset is that behind the command's own label name. */
  function DoGoto(m: Machine, end: nat): Flow<Machine>
    requires end <= |m.reader.line|
  {
    var line := m.reader.line;
    var start := EatSpaces(line, end);
    var stop := TokenEnd(line, start);
    match GotoLabel(m, line[start..stop])
    case Go(t) => Go(t.(reader := MoveTo(t.reader, stop)))
    case Stop(error) => Stop(error)
    case Panicked => Panicked
    case Hung => Hung
  }

  /** CScriptIO::Cancel */
  function CancelIO(m: Machine): Machine {
    m.(readPending := false, writePending := false, chat := [])
  }

  /** DTR: the word DROP raises the line, and RAISE drops it. */
  function DoDtr(m: Machine, end: nat): Flow<Machine>
    requires end <= |m.reader.line|
  {
    var line := m.reader.line;
    var start := EatSpaces(line, end);
    var t := m.(reader := MoveTo(m.reader, TokenEnd(line, start)));
    if IsWord(line, start, "DROP") then
      Go(if m.reader.skip then t else CancelIO(t).(requests := t.requests + [RaiseDTR]))
    else if IsWord(line, start, "RAISE") then
      Go(if m.reader.skip then t else CancelIO(t).(requests := t.requests + [DropDTR]))
    else Stop(NoDropOrRaise)
  }

  /** READ: the character set is looked for at the word itself, so none is ever found. */
  function DoRead(m: Machine, end: nat): Flow<Machine> {
    var t := m.(reader := MoveTo(m.reader, end));
    if m.reader.skip then Go(t)
    else Go(t.(terminalPending := true, readPending := true, requests := t.requests + [ReadTerminal]))
  }

  /** CHARMAP: in skip mode the name in brackets is not passed over. */
  function DoCharmap(m: Machine, end: nat): Flow<Machine>
    requires end <= |m.reader.line|
  {
    var t := m.(reader := MoveTo(m.reader, end));
    if m.reader.skip then Go(t)
    else
      match CharacterType(m.reader.line, end)
      case Go((name, o)) => Go(t.(charset := name, reader := MoveTo(m.reader, o)))
      case Stop(error) => Stop(error)
      case Panicked => Panicked
      case Hung => Hung
  }

  /** How an EXIT with this value, or this error of its expression, ends the script. */
  function ExitError(value: Result<string>): Error
    requires !value.Panic?
  {
    if value.Leave? then
      if value.error == NoExpression then ScriptCompleted else value.error
    else
      var code := Signed(value.value, 0);
      if code.None? then InvalidNumber
      else if code.value.0 > 0 then NumberOutOfRange
      else if code.value.0 == 0 then ScriptCompleted
      else ExitCode(code.value.0)
  }

  /** EXIT: errors of its expression are trapped, and in skip mode ignored. */
  function DoExit(m: Machine, end: nat): Flow<Machine> {
    var (e, value) := Compound(m.reader.line, m.reader.skip,
      Eval(m.vars, Temp(m, Exit), EatSpaces(m.reader.line, end)));
    if value.Panic? then Panicked
    else if m.reader.skip then Go(Evaluated(m, Exit, e))
    else Stop(ExitError(value))
  }

  // ---------- one round of the loop ----------

  /** CleanupLastCommand: only a WAIT that was not skipped has anything to clean up. */
  function CleanUp(m: Machine): Machine {
    (if m.last == Some(Wait) && !m.reader.skip then CancelIO(m).(waits := []) else m).(last := None)
  }

  /** ServiceSkipReqs */
  function ServiceSkip(m: Machine): Machine {
    if m.reader.toggle then m.(reader := m.reader.(toggle := false, skip := !m.reader.skip)) else m
  }

  function Words(): seq<(string, Verb)> {
    [("WAIT", Wait), ("SEND", Send), ("READ", Read), ("LOOP", Loop), ("EXIT", Exit), ("GOTO", Goto), ("SET", Set),
     ("DTR", Dtr), ("CHARMAP", Charmap)]
  }

  /** The command whose word stands at `o`. */
  function VerbAt(line: string, o: nat): Option<Verb>
    requires o <= |line|
  {
    VerbIn(Words(), line, o)
  }

  function VerbIn(words: seq<(string, Verb)>, line: string, o: nat): Option<Verb>
    requires o <= |line|
  {
    if words == [] then None
    else if IsWord(line, o, words[0].0) then Some(words[0].1)
    else VerbIn(words[1..], line, o)
  }

  /** The ParseL methods, behind the command word. */
  function Command(m: Machine, env: Env, verb: Verb): Flow<Machine>
    requires Eaten(m.reader)
  {
    var end := TokenEnd(m.reader.line, m.reader.pos.offset);
    match verb
    case Wait => DoWait(m, env, end)
    case Send => DoSend(m, env, end)
    case Read => DoRead(m, end)
    case Loop => DoLoop(m, end)
    case Exit => DoExit(m, end)
    case Goto => DoGoto(m, end)
    case Set => DoSet(m, end)
    case Dtr => DoDtr(m, end)
    case Charmap => DoCharmap(m, end)
  }

  function Dispatch(m: Machine, env: Env): Flow<Machine>
    requires Eaten(m.reader)
  {
    match VerbAt(m.reader.line, m.reader.pos.offset)
    case None => Stop(IllegalCommand)
    case Some(verb) =>
      match Command(m, env, verb)
      case Go(t) => Go(t.(last := Some(verb)))
      case stop => stop
  }

  /** A label, a closing brace of a loop, or a command, at the next command. */
  function Parse(m: Machine, env: Env): Flow<Machine>
    requires Eaten(m.reader)
  {
    match ParseLabel(m)
    case Go((t, true)) => Go(t)
    case Go((_, false)) =>
      var (t, consumed) := CheckLoop(m);
      if consumed then Go(t) else Dispatch(m, env)
    case Stop(error) => Stop(error)
    case Panicked => Panicked
    case Hung => Hung
  }

  /** One round of ProcessNextLinesL. */
  function Step(m: Machine, env: Env): Flow<Machine>
    requires Fits(m.reader)
  {
    var t := ServiceSkip(CleanUp(m));
    match Eat(t.reader)
    case Go(r) => Parse(t.(reader := r), env)
    case Stop(error) => Stop(error)
    case Panicked => Panicked
    case Hung => Hung
  }

  // ---------- completions ----------

  datatype IoStatus = Fine | FrameError | LineFail | OtherError(code: int)

  /** CompletedScript */
  function Finish(m: Machine, error: Error): Machine {
    CancelIO(CleanUp(m)).(loop := false, finished := Some(error))
  }

  /** CompletedWrite: behind a repeated carriage return the login prompt is waited for again. */
  function CompletedWrite(m: Machine, error: Option<Error>): Machine {
    if error.Some? && error != Some(TimedOut) then Finish(m, error.value)
    else if m.login == SendingCR then
      m.(login := SecondWait, readPending := true, requests := m.requests + [ReadPort(m.loginTimeout)])
    else m
  }

  /** CompletedReadL for anything but a string found. */
  function CompletedRead(m: Machine, error: Error): Machine {
    if error == TimedOut && m.login == FirstWait then
      m.(login := SendingCR, writePending := true, requests := m.requests + [WriteCR])
    else if error == TimedOut || error == CommsError then m.(login := Deactivated)
    else Finish(m.(login := Deactivated), error)
  }

  /** CompletedReadL for the string with index `i`: on to the label beside it. */
  function FoundString(m: Machine, i: int): Flow<Machine> {
    if 0 <= i < |m.waits| then GotoLabel(m.(login := Deactivated), m.waits[i].target) else Panicked
  }

  datatype Move = Round | WriteDone(status: IoStatus) | Arrived(status: IoStatus, rx: seq<Chat.Byte>) | Timeout

  /** Neither finished nor waiting for the port or the terminal. */
  predicate Running(m: Machine) {
    m.finished.None? && !m.writePending && !m.readPending && !m.terminalPending
  }

  function AfterRound(m: Machine, env: Env): Flow<Machine>
    requires Fits(m.reader)
  {
    match Step(m, env)
    case Go(t) => Go(t)
    case Stop(error) => Go(Finish(m, error))
    case Panicked => Panicked
    case Hung => Hung
  }

  /** CommWriteComplete */
  function AfterWrite(m: Machine, status: IoStatus): Machine {
    var t := m.(writePending := false);
    match status
    case Fine => CompletedWrite(t, None)
    case FrameError => CompletedWrite(t, None)
    case LineFail => CompletedWrite(t, Some(CommsError))
    case OtherError(code) => CompletedWrite(t, Some(ExitCode(code)))
  }

  /** CommReadComplete: received characters are looked through unless the terminal is being read. */
  function AfterRead(m: Machine, env: Env, status: IoStatus, rx: seq<Chat.Byte>): Flow<Machine> {
    match status
    case LineFail => Go(CompletedRead(m.(readPending := false), CommsError))
    case OtherError(code) => Go(CompletedRead(m.(readPending := false), ExitCode(code)))
    case _ =>
      if m.terminalPending || env.history == 0 then Go(m)
      else
        var scan := Chat.ScanAll(m.chat, m.received, env.history, env.fold, rx);
        var t := m.(received := scan.history);
        if scan.found == KErrNotFound then Go(t) else FoundString(t.(readPending := false), scan.found)
  }

  /** ChatTimeout */
  function AfterTimeout(m: Machine): Machine {
    if m.writePending then CompletedWrite(m.(writePending := false), Some(TimedOut))
    else CompletedRead(m.(readPending := false), TimedOut)
  }

  /** A move of the machine or of the port; a move that is not possible changes nothing. */
  function Take(m: Machine, env: Env, move: Move): Flow<Machine>
    requires Fits(m.reader)
  {
    match move
    case Round => if Running(m) then AfterRound(m, env) else Go(m)
    case WriteDone(status) => if m.finished.None? && m.writePending then Go(AfterWrite(m, status)) else Go(m)
    case Arrived(status, rx) => if m.finished.None? && m.readPending then AfterRead(m, env, status, rx) else Go(m)
    case Timeout => if m.finished.None? && (m.writePending || m.readPending) then Go(AfterTimeout(m)) else Go(m)
  }
}
