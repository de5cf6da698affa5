/** What WAIT asks of the port: for how long, for which strings, and where to go on for each. */
module ScriptWaiting {
  import opened Wrappers
  import opened ScriptText
  import opened ScriptReader
  import opened ScriptStores
  import opened ScriptExpressions
  import opened ScriptMachine
  import opened ScriptSteps
  import opened ScriptLines
  import opened ScriptCommands
  import opened ScriptNumbers
  import Chat

  /** A string as it is written in a WAIT: an expression, and the name of its character set, if one is given. */
  datatype Item = Item(x: Expression, charset: string)

  /** Where the label beside a string begins: behind the brackets of its character set. */
  function LabelPlace(line: string, o: nat, item: Item): nat
    requires |item.x.gaps| >= |item.x.more|
  {
    var p := EatSpaces(line, EatSpaces(line, o + |Text(item.x)|));
    EatSpaces(line, if p < |line| && line[p] == '[' then p + |item.charset| + 2 else p)
  }

  /** The string stands at `o`, with `target` beside it up to `end`. */
  ghost predicate ItemStands(line: string, o: nat, item: Item, target: string, end: nat) {
    && Stands(line, o, item.x)
    && CharsetStands(line, EatSpaces(line, o + |Text(item.x)|), item.charset)
    && var start := LabelPlace(line, o, item);
       start <= |line| && end == TokenEnd(line, start) && target == line[start..end]
  }

  /** The bytes of the string, in its character set or in that of CHARMAP. */
  ghost predicate Means(m: Machine, env: Env, item: Item, bytes: seq<Chat.Byte>) {
    && Meaning(item.x, m).Ok?
    && env.convert(Meaning(item.x, m).value, if item.charset == "" then m.charset else item.charset) == Some(bytes)
  }

  /**
   From the reader on stand these strings with their labels, in any spacing and with
   comments between them, and then the closing brace.
  */
  ghost predicate Listed(m: Machine, env: Env, r: Reader, items: seq<Item>, out: seq<Waiting>, close: Reader)
    requires Fits(r)
    decreases |items|
  {
    Eat(r).Go? && |out| == |items|
    && var t := Eat(r).value;
       var o := t.pos.offset;
       if items == [] then t.line[o] == '}' && close == MoveTo(t, o + 1)
       else
         && t.line[o] != '}'
         && exists end: nat :: o < end && ItemStands(t.line, o, items[0], out[0].target, end)
                          && Means(m, env, items[0], out[0].text) && out[0].text != []
                          && Listed(m, env, MoveTo(t, end), items[1..], out[1..], close)
  }

  /** How many temporary variables the strings may need. */
  function Uses(items: seq<Item>): nat {
    if items == [] then 0 else 2 * |items[0].x.more| + 2 + Uses(items[1..])
  }

  // ---------- one string ----------

  lemma CharsetPlace(line: string, p: nat, charset: string)
    requires CharsetStands(line, p, charset)
    ensures p <= |line|
    ensures var start := EatSpaces(line, p);
            CharacterType(line, p)
            == Go((charset, if start < |line| && line[start] == '[' then start + |charset| + 2 else start))
  {
    hide EatSpaces;
    var start := EatSpaces(line, p);
    if start < |line| && line[start] == '[' {
      AtParts(line, start + 1, charset, "]");
      AtFits(line, start + 1 + |charset|, "]");
      AtText(line, start + 1, charset);
      BracketThere(line, start + 1 + |charset|);
      FindFirst(line, start + 1, charset, ']');
    }
  }

  lemma {:induction false} SameValues(ts: seq<Syntax>, a: seq<Variable>, b: seq<Variable>)
    requires SameButTemps(a, b) && NoTempNames(ts)
    ensures ValueAll(ts, a, false) == ValueAll(ts, b, false)
  {
    hide IsTemp, Lookup;
    if ts != [] {
      assert forall i :: 0 <= i < |ts[1..]| ==> ts[1..][i] == ts[i + 1];
      SameValues(ts[1..], a, b);
    }
  }

  lemma SameMeaning(m: Machine, u: Machine, x: Expression)
    requires SameButTemps(m.vars, u.vars) && Usual(x) && !m.reader.skip && !u.reader.skip
    ensures Meaning(x, u) == Meaning(x, m)
  {
    hide SameButTemps, NoTempNames;
    SameValues([x.first] + x.more, m.vars, u.vars);
  }

  /** The expression of a string. */
  lemma TextReads(m: Machine, u: Machine, item: Item, text: string)
    requires u.reader.pos.offset <= |u.reader.line| && !u.reader.skip && !m.reader.skip
    requires Stands(u.reader.line, u.reader.pos.offset, item.x) && Meaning(item.x, m) == Ok(text)
    requires SameButTemps(m.vars, u.vars) && TempsLeft(u, Wait, item.x)
    ensures var f := Evaluate(u, Wait, u.reader.pos.offset);
            && f.Go? && f.value.1 == text
            && var t := f.value.0;
               && t == u.(reader := t.reader, vars := t.vars, temps := t.temps) && SameButTemps(u.vars, t.vars)
               && t.reader == MoveTo(u.reader, EatSpaces(u.reader.line, u.reader.pos.offset + |Text(item.x)|))
               && Temp(t, Wait) <= Temp(u, Wait) + 2 * |item.x.more| + 2
  {
    hide EatSpaces, SameButTemps, Compound, Meaning, Text, Stands, Usual;
    StandsUsual(u.reader.line, u.reader.pos.offset, item.x);
    SameMeaning(m, u, item.x);
    Evaluates(u, Wait, u.reader.pos.offset, item.x);
  }

  /** Its bytes. */
  lemma BytesRead(t: Machine, env: Env, text: string, charset: string, bytes: seq<Chat.Byte>)
    requires t.reader.pos.offset <= |t.reader.line| && CharsetStands(t.reader.line, t.reader.pos.offset, charset)
    requires env.convert(text, if charset == "" then t.charset else charset) == Some(bytes)
    ensures var p := EatSpaces(t.reader.line, t.reader.pos.offset);
            var q := if p < |t.reader.line| && t.reader.line[p] == '[' then p + |charset| + 2 else p;
            Convert(t, env, text) == Go((t.(reader := MoveTo(t.reader, q)), bytes))
  {
    hide EatSpaces, CharsetStands, CharacterType;
    CharsetPlace(t.reader.line, t.reader.pos.offset, charset);
  }

  lemma ItemReads(m: Machine, u: Machine, env: Env, item: Item, bytes: seq<Chat.Byte>, target: string, end: nat)
    requires u.reader.pos.offset <= |u.reader.line| && !u.reader.skip && !m.reader.skip
    requires ItemStands(u.reader.line, u.reader.pos.offset, item, target, end) && Means(m, env, item, bytes)
    requires bytes != [] && SameButTemps(m.vars, u.vars) && u.charset == m.charset && TempsLeft(u, Wait, item.x)
    ensures WaitItem(u, env).Go?
    ensures var (v, w) := WaitItem(u, env).value;
            && w == Waiting(bytes, target) && v.reader == MoveTo(u.reader, end)
            && v == u.(reader := v.reader, vars := v.vars, temps := v.temps) && SameButTemps(u.vars, v.vars)
            && Temp(v, Wait) <= Temp(u, Wait) + 2 * |item.x.more| + 2
  {
    hide EatSpaces, TokenEnd, SameButTemps, Evaluate, Convert, Meaning, Text, CharsetStands, Stands, TempsLeft,
      WaitItem,
      ItemStands;
    var line, o := u.reader.line, u.reader.pos.offset;
    var q := ItemParts(line, o, item, target, end);
    var text := Meaning(item.x, m).value;
    TextReads(m, u, item, text);
    var t := Evaluate(u, Wait, o).value.0;
    BytesRead(t, env, text, item.charset, bytes);
    ItemBy(u, env, t, text, q, bytes);
  }

  /** Where the character set of a string ends. */
  lemma ItemParts(line: string, o: nat, item: Item, target: string, end: nat) returns (q: nat)
    requires ItemStands(line, o, item, target, end)
    ensures Stands(line, o, item.x) && |item.x.gaps| >= |item.x.more|
    ensures CharsetStands(line, EatSpaces(line, o + |Text(item.x)|), item.charset)
    ensures var p := EatSpaces(line, EatSpaces(line, o + |Text(item.x)|));
            q == (if p < |line| && line[p] == '[' then p + |item.charset| + 2 else p) <= |line|
    ensures EatSpaces(line, q) <= |line| && end == TokenEnd(line, EatSpaces(line, q))
    ensures target == line[EatSpaces(line, q)..end]
  {
    hide EatSpaces, TokenEnd, Text, CharsetStands, Stands;
    StandsUsual(line, o, item.x);
    CharsetFits(line, EatSpaces(line, o + |Text(item.x)|), item.charset);
    var p := EatSpaces(line, EatSpaces(line, o + |Text(item.x)|));
    q := if p < |line| && line[p] == '[' then p + |item.charset| + 2 else p;
  }

  /** The string, its bytes and the label beside it together. */
  lemma ItemBy(u: Machine, env: Env, t: Machine, text: string, q: nat, bytes: seq<Chat.Byte>)
    requires Evaluate(u, Wait, u.reader.pos.offset) == Go((t, text)) && !u.reader.skip
    requires q <= |u.reader.line| && Convert(t, env, text) == Go((t.(reader := MoveTo(t.reader, q)), bytes))
    ensures bytes == [] ==> WaitItem(u, env) == Panicked
    ensures var line := u.reader.line;
            var start := EatSpaces(line, q);
            bytes != [] ==>
              WaitItem(u, env) == Go((t.(reader := MoveTo(t.reader, TokenEnd(line, start))),
                                      Waiting(bytes, line[start..TokenEnd(line, start)])))
  {
    hide EatSpaces, TokenEnd, Evaluate, Convert;
  }

  /** A string of no bytes panics. */
  lemma EmptyStringPanics(m: Machine, env: Env, item: Item)
    requires m.reader.pos.offset <= |m.reader.line| && !m.reader.skip && TempsLeft(m, Wait, item.x)
    requires Stands(m.reader.line, m.reader.pos.offset, item.x)
    requires CharsetStands(m.reader.line, EatSpaces(m.reader.line, m.reader.pos.offset + |Text(item.x)|), item.charset)
    requires Means(m, env, item, [])
    ensures WaitItem(m, env) == Panicked
  {
    hide EatSpaces, TokenEnd, SameButTemps, Evaluate, Convert, Meaning, Text, CharsetStands, Stands, TempsLeft,
      WaitItem;
    var line, o := m.reader.line, m.reader.pos.offset;
    StandsUsual(line, o, item.x);
    var text := Meaning(item.x, m).value;
    SameSelf(m.vars);
    TextReads(m, m, item, text);
    var t := Evaluate(m, Wait, o).value.0;
    BytesRead(t, env, text, item.charset, []);
    CharsetFits(line, t.reader.pos.offset, item.charset);
    var p := EatSpaces(line, t.reader.pos.offset);
    ItemBy(m, env, t, text, if p < |line| && line[p] == '[' then p + |item.charset| + 2 else p, []);
  }

  lemma CharsetFits(line: string, p: nat, charset: string)
    requires CharsetStands(line, p, charset)
    ensures var start := EatSpaces(line, p);
            start <= |line| && (start < |line| && line[start] == '[' ==> start + |charset| + 2 <= |line|)
  {
    hide EatSpaces;
  }

  lemma StandsUsual(line: string, o: nat, x: Expression)
    requires Stands(line, o, x)
    ensures Usual(x) && |x.gaps| >= |x.more|
  {
  }

  // ---------- all strings ----------

  lemma SameTemps(a: seq<Variable>, b: seq<Variable>, c: seq<Variable>)
    requires SameButTemps(a, b) && SameButTemps(b, c)
    ensures SameButTemps(a, c)
  {
    hide IsTemp, Lookup;
  }

  lemma {:induction false} ListReads(m: Machine, u: Machine, env: Env, items: seq<Item>, got: seq<Waiting>,
                                     out: seq<Waiting>, close: Reader)
    requires Fits(u.reader) && Listed(m, env, u.reader, items, out, close)
    requires !u.reader.skip && !m.reader.skip && SameButTemps(m.vars, u.vars) && u.charset == m.charset
    requires Temp(u, Wait) + Uses(items) < 0x8000_0000
    ensures WaitItems(u, env, got).Go?
    ensures var (v, all) := WaitItems(u, env, got).value;
            && all == got + out && v.reader == close && !close.skip
            && v == u.(reader := close, vars := v.vars, temps := v.temps) && SameButTemps(m.vars, v.vars)
    decreases |items|
  {
    hide Eat, SameButTemps, ItemStands, Means, WaitItem, Temp, WaitItems, TempsLeft, Listed, Uses;
    ListedHere(m, env, u.reader, items, out, close);
    EatKeeps(u.reader);
    var r := Eat(u.reader).value;
    var o := r.pos.offset;
    if items == [] {
      assert got + out == got;
      ListCloses(u, env, got);
    } else {
      var end := ListedNext(m, env, u.reader, items, out, close);
      var t := u.(reader := r);
      ItemTemps(t, items, u);
      ItemReads(m, t, env, items[0], out[0].text, out[0].target, end);
      var (v, w) := WaitItem(t, env).value;
      ListGoesOn(u, env, got);
      SameTemps(m.vars, u.vars, v.vars);
      ItemTemps(t, items, u);
      ListReads(m, v, env, items[1..], got + [w], out[1..], close);
      assert w == out[0];
      assert (got + [w]) + out[1..] == got + out;
    }
  }

  lemma ListedHere(m: Machine, env: Env, r: Reader, items: seq<Item>, out: seq<Waiting>, close: Reader)
    requires Fits(r) && Listed(m, env, r, items, out, close)
    ensures Eat(r).Go? && |out| == |items|
    ensures items == [] ==> var t := Eat(r).value; t.line[t.pos.offset] == '}' && close == MoveTo(t, t.pos.offset + 1)
  {
    hide Eat, ItemStands, Means;
  }

  lemma ListedNext(m: Machine, env: Env, r: Reader, items: seq<Item>, out: seq<Waiting>, close: Reader)
    returns (end: nat)
    requires Fits(r) && Listed(m, env, r, items, out, close) && items != []
    ensures Eat(r).Go? && out != []
    ensures var t := Eat(r).value;
            && t.line[t.pos.offset] != '}' && t.pos.offset < end
            && ItemStands(t.line, t.pos.offset, items[0], out[0].target, end)
            && Means(m, env, items[0], out[0].text) && out[0].text != []
            && Listed(m, env, MoveTo(t, end), items[1..], out[1..], close)
  {
    hide Eat, ItemStands, Means;
    var t := Eat(r).value;
    end :| t.pos.offset < end && ItemStands(t.line, t.pos.offset, items[0], out[0].target, end)
           && Means(m, env, items[0], out[0].text) && out[0].text != []
           && Listed(m, env, MoveTo(t, end), items[1..], out[1..], close);
  }

  lemma ListCloses(u: Machine, env: Env, got: seq<Waiting>)
    requires Fits(u.reader) && Eat(u.reader).Go? && var t := Eat(u.reader).value; t.line[t.pos.offset] == '}'
    ensures var t := Eat(u.reader).value;
            WaitItems(u, env, got) == Go((u.(reader := MoveTo(t, t.pos.offset + 1)), got))
  {
    hide Eat, WaitItem;
  }

  lemma ListGoesOn(u: Machine, env: Env, got: seq<Waiting>)
    requires Fits(u.reader) && Eat(u.reader).Go?
    requires var r := Eat(u.reader).value;
             && r.line[r.pos.offset] != '}' && WaitItem(u.(reader := r), env).Go?
             && WaitItem(u.(reader := r), env).value.0.reader.pos.offset != r.pos.offset
    ensures var (v, w) := WaitItem(u.(reader := Eat(u.reader).value), env).value;
            Fits(v.reader) && WaitItems(u, env, got) == WaitItems(v, env, got + [w])
  {
    hide Eat, WaitItem;
  }

  lemma EatKeeps(r: Reader)
    requires Fits(r) && Eat(r).Go?
    ensures Eat(r).value.skip == r.skip && Eat(r).value.pos.offset <= |Eat(r).value.line|
  {
    hide Eat, Reached;
    ReachedKeeps(r);
  }

  lemma ReachedKeeps(r: Reader)
    requires Fits(r) && Eat(r).Go?
    ensures Eat(r).value.skip == r.skip
  {
    hide Eat;
  }

  lemma ItemTemps(t: Machine, items: seq<Item>, u: Machine)
    requires items != [] && t.temps == u.temps && Temp(u, Wait) + Uses(items) < 0x8000_0000
    ensures TempsLeft(t, Wait, items[0].x) && Temp(t, Wait) == Temp(u, Wait)
    ensures Uses(items) == 2 * |items[0].x.more| + 2 + Uses(items[1..])
  {
  }

  // ---------- WAIT ----------

  /** From `m` on to `t` the port has been asked for these seconds and to look for these strings, and nothing else. */
  ghost predicate Waits(m: Machine, t: Machine, seconds: real, out: seq<Waiting>, close: Reader) {
    && t.requests == m.requests + [ReadPort(if m.login == FirstWait && seconds > 30.0 then 30.0 else seconds)]
    && |t.chat| == |m.chat| + |out| && m.chat <= t.chat
    && (forall i :: 0 <= i < |out| ==> t.chat[|m.chat| + i] == Chat.ChatString(out[i].text, false))
    && SameButTemps(m.vars, t.vars)
    && t == m.(reader := close, vars := t.vars, temps := t.temps, requests := t.requests, loginTimeout := seconds,
               waits := out, readPending := true, chat := t.chat)
  }

  /**
   WAIT with its seconds, an opening brace and a list of strings, in normal mode: the port is
   asked for exactly that long, but thirty seconds at most if it is the first wait of the
   script, and for nothing else; the strings are looked for in the order in which they are
   written, each with its label; the seconds are kept for a second wait. Nothing else
   changes but temporary variables.
  */
  lemma WaitAsks(m: Machine, env: Env, end: nat, gap: string, n: nat, digits: string, r: Reader, items: seq<Item>,
                 out: seq<Waiting>, close: Reader)
    requires end <= |m.reader.line| && Fits(m.reader) && !m.reader.skip
    requires forall i :: 0 <= i < |digits| ==> '0' <= digits[i] <= '9'
    requires NumberStands(m.reader.line, end, gap, Seconds(n, digits))
    requires var behind := end + |gap| + |Seconds(n, digits)|;
             && (behind < |m.reader.line| && digits == "" ==> m.reader.line[behind] != '.')
             && Eat(MoveTo(m.reader, behind)) == Go(r) && Eaten(r) && r.line[r.pos.offset] == '{' && !r.skip
    requires Listed(m, env, MoveTo(r, r.pos.offset + 1), items, out, close)
    requires Temp(m, Wait) + Uses(items) < 0x8000_0000
    ensures var seconds := n as real + Fraction(digits);
            if seconds > 500000.0 then DoWait(m, env, end) == Stop(NumberOutOfRange)
            else DoWait(m, env, end).Go? && Waits(m, DoWait(m, env, end).value, seconds, out, close)
  {
    hide ParseReal, Eat, Decimal, NumberStands, SameButTemps, Fraction, WaitItems, Listed, Seconds, DoWait, Uses, Waits,
      StartRead;
    SecondsRead(m.reader.line, end, gap, n, digits);
    var u := m.(reader := MoveTo(r, r.pos.offset + 1));
    SameSelf(m.vars);
    ListReads(m, u, env, items, [], out, close);
    assert [] + out == out;
    if n as real + Fraction(digits) <= 500000.0 {
      var v := WaitItems(u, env, []).value.0;
      WaitBy(m, env, end, r, v, out);
      Started(m, v, n as real + Fraction(digits), out, close);
    } else {
      WaitFails(m, env, end);
    }
  }

  lemma Started(m: Machine, v: Machine, seconds: real, out: seq<Waiting>, close: Reader)
    requires v == m.(reader := close, vars := v.vars, temps := v.temps) && SameButTemps(m.vars, v.vars)
    ensures Waits(m, StartRead(v, out, seconds), seconds, out, close)
  {
    hide SameButTemps, Strings;
    StringsAre(v.chat, out);
  }

  lemma StringsAre(chat: seq<Chat.ChatString>, out: seq<Waiting>)
    ensures var more := chat + Strings(out);
            && |more| == |chat| + |out| && chat <= more
            && (forall i :: 0 <= i < |out| ==> more[|chat| + i] == Chat.ChatString(out[i].text, false))
  {
  }

  lemma WaitFails(m: Machine, env: Env, end: nat)
    requires end <= |m.reader.line| && Fits(m.reader) && ParseReal(m.reader.line, end).Leave?
    ensures DoWait(m, env, end) == Stop(ParseReal(m.reader.line, end).error)
  {
    hide ParseReal;
  }

  lemma WaitBy(m: Machine, env: Env, end: nat, r: Reader, v: Machine, out: seq<Waiting>)
    requires end <= |m.reader.line| && Fits(m.reader) && ParseReal(m.reader.line, end).Ok?
    requires Eat(MoveTo(m.reader, ParseReal(m.reader.line, end).value.1)) == Go(r) && Eaten(r)
    requires r.line[r.pos.offset] == '{'
    requires WaitItems(m.(reader := MoveTo(r, r.pos.offset + 1)), env, []) == Go((v, out)) && !v.reader.skip
    ensures DoWait(m, env, end) == Go(StartRead(v, out, ParseReal(m.reader.line, end).value.0))
  {
    hide ParseReal, Eat, WaitItems;
  }

  lemma SameSelf(vars: seq<Variable>)
    ensures SameButTemps(vars, vars)
  {
  }
}
