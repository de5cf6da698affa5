/**
 A login script with a WAIT over several lines inside a LOOP, as a test configuration of
 the stack has it (telephonyutils/etel3rdpartyapi/Test/te_etelIsv/TE_EtelIsv.cfg, line
 830): it is well laid out and its WAIT is passed, so that all its runs come to rest.
*/
module ScriptLogin {
  import opened Wrappers
  import opened ScriptText
  import opened ScriptReader
  import opened ScriptStores
  import opened ScriptMachine
  import opened ScriptSteps
  import opened ScriptRuns
  import opened ScriptLines
  import opened ScriptWaits
  import opened ScriptLoops
  import Port = ScriptPort
  import Progress = ScriptProgress
  import opened ScriptLabels
  import opened ScriptLayout
  import opened ScriptRest

  // ---------- scripts given by their lines ----------

  /** The place where line `i` starts. */
  function StartOf(lines: seq<string>, i: nat): nat
    requires i <= |lines|
  {
    |Concat(lines[..i])|
  }

  lemma {:induction false} ConcatParts(a: seq<string>, b: seq<string>)
    ensures Concat(a + b) == Concat(a) + Concat(b)
  {
    if a == [] {
      assert a + b == b;
    } else {
      assert (a + b)[1..] == a[1..] + b;
      ConcatParts(a[1..], b);
    }
  }

  /** Line `i` stands at its place. */
  lemma LineStands(lines: seq<string>, i: nat)
    requires i < |lines|
    ensures StartOf(lines, i) + |lines[i]| == StartOf(lines, i + 1) <= |Concat(lines)|
    ensures Concat(lines)[StartOf(lines, i)..StartOf(lines, i + 1)] == lines[i]
  {
    var one := lines[i..i + 1];
    assert lines == lines[..i] + one + lines[i + 1..] && lines[..i + 1] == lines[..i] + one;
    assert one == [lines[i]] && one[1..] == [];
    ConcatParts(lines[..i], one);
    ConcatParts(lines[..i + 1], lines[i + 1..]);
    assert Concat(one) == lines[i] + "";
  }

  /** In a script cut into lines, every line is one of them, at its place. */
  lemma {:induction false} LineAmong(lines: seq<string>, p: nat, line: string) returns (i: nat)
    requires WellCut(lines) && LineAt(Concat(lines), p, line)
    ensures i < |lines| && lines[i] == line && p == StartOf(lines, i)
  {
    hide LineLength, WellCut, StartOf, LineAt;
    SomeLine(lines, p, line);
    if p == 0 {
      FirstLineAt(lines, line);
      i := 0;
    } else {
      LineBehindFirst(lines, p, line);
      WellCutRest(lines);
      i := LineAmong(lines[1..], p - |lines[0]|, line);
      StartInRest(lines, i);
      i := i + 1;
    }
  }

  lemma SomeLine(lines: seq<string>, p: nat, line: string)
    requires LineAt(Concat(lines), p, line)
    ensures lines != []
  {
  }

  lemma FirstLineAt(lines: seq<string>, line: string)
    requires WellCut(lines) && lines != [] && LineAt(Concat(lines), 0, line)
    ensures line == lines[0] && StartOf(lines, 0) == 0
  {
    hide LineLength, WellCut;
    FirstLineIs(lines);
    assert lines[..0] == [];
  }

  lemma StartInRest(lines: seq<string>, i: nat)
    requires lines != [] && i < |lines[1..]|
    ensures StartOf(lines, i + 1) == |lines[0]| + StartOf(lines[1..], i)
  {
    var rest := lines[1..];
    assert lines[..i + 1] == [lines[0]] + rest[..i];
    assert ([lines[0]] + rest[..i])[1..] == rest[..i];
  }

  lemma LineBehindFirst(lines: seq<string>, p: nat, line: string)
    requires WellCut(lines) && lines != [] && p != 0 && LineAt(Concat(lines), p, line)
    ensures p >= |lines[0]| && LineAt(Concat(lines[1..]), p - |lines[0]|, line)
  {
    BehindFirst(lines, p);
    LineLater(lines[0], Concat(lines[1..]), p - |lines[0]|, line) by {
      assert Concat(lines) == lines[0] + Concat(lines[1..]);
    }
  }

  /** A line behind a text is a line without the text before it. */
  lemma LineLater(a: string, b: string, p: nat, line: string)
    requires LineAt(a + b, |a| + p, line)
    ensures LineAt(b, p, line)
  {
    hide LineLength;
    assert p > 0 ==> (a + b)[|a| + p - 1] == b[p - 1];
    SameLengthLater(a, b, p);
  }

  /** No line starts within the first one. */
  lemma BehindFirst(lines: seq<string>, p: nat)
    requires WellCut(lines) && lines != [] && p != 0 && Boundary(Concat(lines), p)
    ensures p >= |lines[0]|
  {
    assert Concat(lines) == lines[0] + Concat(lines[1..]);
  }

  lemma FirstLineIs(lines: seq<string>)
    requires WellCut(lines) && lines != []
    ensures Concat(lines) != "" && LineLength(Concat(lines), 0) == |lines[0]| && Concat(lines)[..|lines[0]|] == lines[0]
  {
    assert Concat(lines) == lines[0] + Concat(lines[1..]);
    if |lines| == 1 {
      assert Concat(lines[1..]) == "";
    }
    LineLengthIs(Concat(lines), 0, |lines[0]|);
  }

  lemma {:induction false} SameLengthLater(a: string, b: string, p: nat)
    requires p < |b|
    ensures LineLength(a + b, |a| + p) == LineLength(b, p)
    ensures (a + b)[|a| + p..|a| + p + LineLength(b, p)] == b[p..p + LineLength(b, p)]
    decreases |b| - p
  {
    if !(Ends(b[p]) || p + 1 == |b|) {
      SameLengthLater(a, b, p + 1);
    }
  }

  /** The reader at line `i`, with the text of that line. */
  ghost predicate OnLine(lines: seq<string>, i: nat, r: Reader) {
    && i < |lines| && r.script == Concat(lines) && r.line == lines[i]
    && r.pos.start == StartOf(lines, i) && r.pos.length == |lines[i]|
  }

  /** Line `i` is the line that starts at its place. */
  lemma LineLengthOf(lines: seq<string>, i: nat)
    requires WellCut(lines) && i < |lines|
    ensures StartOf(lines, i) + |lines[i]| == StartOf(lines, i + 1) <= |Concat(lines)|
            && StartOf(lines, i) < |Concat(lines)|
    ensures LineLength(Concat(lines), StartOf(lines, i)) == |lines[i]|
    ensures Concat(lines)[StartOf(lines, i)..StartOf(lines, i) + |lines[i]|] == lines[i]
  {
    hide LineLength;
    LineStands(lines, i);
    assert lines == lines[..i] + lines[i..];
    ConcatParts(lines[..i], lines[i..]);
    WellCutFrom(lines, i);
    FirstLineIs(lines[i..]);
    SameLengthLater(Concat(lines[..i]), Concat(lines[i..]), 0);
  }

  /** From line `i` the next line is line `i + 1`. */
  lemma NextOnLine(lines: seq<string>, i: nat, r: Reader) returns (n: Reader)
    requires WellCut(lines) && OnLine(lines, i, r) && i + 1 < |lines|
    ensures Fits(r) && NextLine(r) == Some(n)
    ensures OnLine(lines, i + 1, n) && n.pos.offset == 0 && n.skip == r.skip && n.toggle == r.toggle && Fits(n)
  {
    hide LineLength, StartOf, WellCut, Concat;
    LineLengthOf(lines, i);
    LineLengthOf(lines, i + 1);
    n := NextLine(r).value;
  }

  lemma WellCutFrom(lines: seq<string>, i: nat)
    requires WellCut(lines) && i <= |lines|
    ensures WellCut(lines[i..])
  {
    var rest := lines[i..];
    assert forall k :: 0 <= k < |rest| ==> rest[k] == lines[i + k];
  }

  // ---------- a WAIT over four lines ----------

  /** WAIT with its number, and on the next lines the opening brace, one item, and the closing brace,
    each at the start of its line. */
  ghost predicate WaitLines(lines: seq<string>, i: nat, skip: bool) {
    && i + 3 < |lines| && lines[i] != "" && lines[i + 1] != "" && lines[i + 2] != "" && lines[i + 3] != ""
    && ParseReal(lines[i], TokenEnd(lines[i], 0)).Ok?
    && NothingFrom(lines[i], ParseReal(lines[i], TokenEnd(lines[i], 0)).value.1)
    && lines[i + 1][0] == '{' && NothingFrom(lines[i + 1], 1)
    && EatSpaces(lines[i + 2], 0) == 0 && lines[i + 2][0] != '!' && lines[i + 2][0] != '}'
    && ItemEnd(lines[i + 2], skip, 0).Some? && ItemEnd(lines[i + 2], skip, 0).value > 0
    && NothingFrom(lines[i + 2], ItemEnd(lines[i + 2], skip, 0).value)
    && lines[i + 3][0] == '}'
  }

  lemma EatFirst(r: Reader)
    requires Fits(r) && r.pos.offset == 0 && r.line != "" && !Blank(r.line[0]) && r.line[0] != '!'
    ensures Eat(r) == Go(r)
  {
    EatHere(r, 0);
    assert MoveTo(r, 0) == r;
  }

  /** Such a WAIT is passed. */
  lemma WaitLinesPassed(lines: seq<string>, i: nat, r: Reader)
    requires WellCut(lines) && OnLine(lines, i, r) && WaitLines(lines, i, r.skip) && Eaten(r) && r.pos.offset == 0
    ensures !NeverPassed(r)
  {
    hide EatSpaces, TokenEnd, ParseReal, NothingFrom, Eat, ItemEnd, VerbAt, NextLine, WellCut, StartOf;
    var o := ParseReal(lines[i], TokenEnd(lines[i], 0)).value.1;
    var at := MoveTo(r, o);
    var open := NextOnLine(lines, i, at);
    EatNothing(at);
    EatFirst(open);
    var behind := MoveTo(open, 1);
    var item := NextOnLine(lines, i + 1, behind);
    EatNothing(behind);
    EatFirstOf(item);
    var end := ItemEnd(item.line, item.skip, 0).value;
    var done := MoveTo(item, end);
    var close := NextOnLine(lines, i + 2, done);
    EatNothing(done);
    EatFirst(close);
    ListOfOne(behind, item, close, end);
  }

  lemma EatFirstOf(r: Reader)
    requires Fits(r) && r.pos.offset == 0 && r.line != "" && EatSpaces(r.line, 0) == 0 && r.line[0] != '!'
    ensures Eat(r) == Go(r)
  {
    EatHere(r, 0);
    assert MoveTo(r, 0) == r;
  }

  lemma ListOfOne(behind: Reader, item: Reader, close: Reader, end: nat)
    requires Fits(behind) && Fits(item) && Eat(behind) == Go(item) && item.line[item.pos.offset] != '}'
    requires ItemEnd(item.line, item.skip, item.pos.offset) == Some(end) && end > item.pos.offset
    requires Eat(MoveTo(item, end)) == Go(close) && close.line[close.pos.offset] == '}'
    ensures Passable(behind)
  {
    hide Eat, ItemEnd;
    assert Passable(MoveTo(item, end));
  }

  // ---------- the login script ----------

  function LoginLines(): seq<string> {
    ["CHARMAP [windows-1252]\n", "LOOP 10\n", "{\n", "SEND \"CLIENT\"+<0x0d>\n", "WAIT 3\n", "{\n", "\"SERVER\" OK\n",
      "}\n",
     "}\n", "EXIT KErrNoAnswer$\n", "\n", "OK:\n", "EXIT\n"]
  }

  function LoginScript(): (r: string)
    ensures r != ""
  {
    assert Concat(LoginLines()) == LoginLines()[0] + Concat(LoginLines()[1..]);
    Concat(LoginLines())
  }

  /** No character from `o` on is `c`, in either case. */
  predicate FreeOf(s: string, o: nat, c: char)
    requires o <= |s|
    decreases |s| - o
  {
    o == |s| || (Lower(s[o]) != c && FreeOf(s, o + 1, c))
  }

  /** From `o` on no `w` is followed by an `a`. */
  predicate NoWait(s: string, o: nat)
    requires o <= |s|
    decreases |s| - o
  {
    o == |s| || (!(Lower(s[o]) == 'w' && o + 1 < |s| && Lower(s[o + 1]) == 'a') && NoWait(s, o + 1))
  }

  /** From `o` on the line ends with its last character and not before. */
  predicate EndsLast(s: string, o: nat)
    requires o < |s|
    decreases |s| - o
  {
    if o + 1 == |s| then Ends(s[o]) else !Ends(s[o]) && EndsLast(s, o + 1)
  }

  lemma {:induction false} FreeOfAll(s: string, o: nat, c: char)
    requires o <= |s| && FreeOf(s, o, c)
    ensures forall k :: o <= k < |s| ==> Lower(s[k]) != c
    decreases |s| - o
  {
    if o < |s| {
      FreeOfAll(s, o + 1, c);
    }
  }

  lemma {:induction false} NoWaitAll(s: string, o: nat)
    requires o <= |s| && NoWait(s, o)
    ensures forall k :: o <= k < |s| - 1 ==> !(Lower(s[k]) == 'w' && Lower(s[k + 1]) == 'a')
    decreases |s| - o
  {
    if o < |s| {
      NoWaitAll(s, o + 1);
    }
  }

  lemma {:induction false} EndsLastAll(s: string, o: nat)
    requires o < |s| && EndsLast(s, o)
    ensures Ends(s[|s| - 1]) && forall k :: o <= k < |s| - 1 ==> !Ends(s[k])
    decreases |s| - o
  {
    if o + 1 < |s| {
      EndsLastAll(s, o + 1);
    }
  }

  /** The line ends where it should, has no GOTO in it, no WAIT but at its start, and no brace but one at its start. */
  predicate Ordinary(s: string) {
    s != "" && EndsLast(s, 0) && FreeOf(s, 0, 'g') && NoWait(s, 1) && FreeOf(s, 1, '}') && (s[0] == '}' ==> s == "}\n")
  }

  lemma CharmapLine()
    ensures Ordinary("CHARMAP [windows-1252]\n")
  {
    var s := "CHARMAP [windows-1252]\n";
    assert EndsLast(s, 17) && FreeOf(s, 17, 'g') && NoWait(s, 17) && FreeOf(s, 17, '}');
    assert EndsLast(s, 12) && FreeOf(s, 12, 'g') && NoWait(s, 12) && FreeOf(s, 12, '}');
    assert EndsLast(s, 6) && FreeOf(s, 6, 'g') && NoWait(s, 6) && FreeOf(s, 6, '}');
    assert EndsLast(s, 1) && FreeOf(s, 1, 'g') && NoWait(s, 1) && FreeOf(s, 1, '}');
  }

  lemma SendLine()
    ensures Ordinary("SEND \"CLIENT\"+<0x0d>\n")
  {
    var s := "SEND \"CLIENT\"+<0x0d>\n";
    assert EndsLast(s, 15) && FreeOf(s, 15, 'g') && NoWait(s, 15) && FreeOf(s, 15, '}');
    assert EndsLast(s, 10) && FreeOf(s, 10, 'g') && NoWait(s, 10) && FreeOf(s, 10, '}');
    assert EndsLast(s, 5) && FreeOf(s, 5, 'g') && NoWait(s, 5) && FreeOf(s, 5, '}');
    assert EndsLast(s, 1) && FreeOf(s, 1, 'g') && NoWait(s, 1) && FreeOf(s, 1, '}');
  }

  lemma ExitLine()
    ensures Ordinary("EXIT KErrNoAnswer$\n")
  {
    var s := "EXIT KErrNoAnswer$\n";
    assert EndsLast(s, 14) && FreeOf(s, 14, 'g') && NoWait(s, 14) && FreeOf(s, 14, '}');
    assert EndsLast(s, 8) && FreeOf(s, 8, 'g') && NoWait(s, 8) && FreeOf(s, 8, '}');
    assert EndsLast(s, 4) && FreeOf(s, 4, 'g') && NoWait(s, 4) && FreeOf(s, 4, '}');
    assert EndsLast(s, 1) && FreeOf(s, 1, 'g') && NoWait(s, 1) && FreeOf(s, 1, '}');
  }

  lemma ShortLines()
    ensures Ordinary("LOOP 10\n") && Ordinary("{\n") && Ordinary("}\n") && Ordinary("WAIT 3\n")
    ensures Ordinary("\n") && Ordinary("OK:\n") && Ordinary("EXIT\n")
  {
  }

  lemma ItemLine()
    ensures Ordinary("\"SERVER\" OK\n")
  {
    var s := "\"SERVER\" OK\n";
    assert EndsLast(s, 6) && FreeOf(s, 6, 'g') && NoWait(s, 6) && FreeOf(s, 6, '}');
    assert EndsLast(s, 1) && FreeOf(s, 1, 'g') && NoWait(s, 1) && FreeOf(s, 1, '}');
  }

  lemma LoginOrdinary(i: nat)
    requires i < |LoginLines()|
    ensures Ordinary(LoginLines()[i])
    ensures i != 4 ==> Lower(LoginLines()[i][0]) != 'w'
  {
    hide Ordinary;
    CharmapLine();
    SendLine();
    ExitLine();
    ItemLine();
    ShortLines();
  }

  lemma LoginCut()
    ensures WellCut(LoginLines()) && |LoginLines()| == 13
  {
    hide LoginLines, Ordinary;
    LoginCount();
    var lines := LoginLines();
    forall i | 0 <= i < |lines|
      ensures lines[i] != "" && Ends(lines[i][|lines[i]| - 1]) && forall k ::
              0 <= k < |lines[i]| - 1 ==> !Ends(lines[i][k])
    {
      LoginOrdinary(i);
      OrdinaryEnds(lines[i]);
    }
  }

  lemma LoginCount()
    ensures |LoginLines()| == 13
  {
  }

  lemma OrdinaryEnds(s: string)
    requires Ordinary(s)
    ensures s != "" && Ends(s[|s| - 1]) && forall k :: 0 <= k < |s| - 1 ==> !Ends(s[k])
  {
    EndsLastAll(s, 0);
  }

  /** The word of a command is written where the command stands. */
  lemma {:induction false} WordWritten(words: seq<(string, Verb)>, line: string, o: nat)
    requires o <= |line| && VerbIn(words, line, o).Some?
    ensures exists i :: 0 <= i < |words| && words[i].1 == VerbIn(words, line, o).value && IsWord(line, o, words[i].0)
  {
    if !IsWord(line, o, words[0].0) {
      WordWritten(words[1..], line, o);
      var i :| 0 <= i < |words[1..]| && words[1..][i].1 == VerbIn(words[1..], line, o).value
        && IsWord(line, o, words[1..][i].0);
      assert words[i + 1] == words[1..][i];
    }
  }

  lemma WaitWritten(line: string, o: nat)
    requires o <= |line| && VerbAt(line, o) == Some(Wait)
    ensures o + 1 < |line| && Lower(line[o]) == 'w' && Lower(line[o + 1]) == 'a'
  {
    WordWritten(Words(), line, o);
    FoldedWord(line, o, "WAIT");
  }

  lemma GotoWritten(line: string, o: nat)
    requires o <= |line| && VerbAt(line, o) == Some(Goto)
    ensures o < |line| && Lower(line[o]) == 'g'
  {
    WordWritten(Words(), line, o);
    FoldedWord(line, o, "GOTO");
  }

  lemma FoldedWord(line: string, o: nat, word: string)
    requires o <= |line| && IsWord(line, o, word)
    ensures o + |word| <= |line| && forall k :: 0 <= k < |word| ==> Lower(line[o + k]) == Lower(word[k])
  {
    var token := line[o..TokenEnd(line, o)];
    assert |Fold(token)| == |Fold(word)|;
    forall k | 0 <= k < |word| ensures Lower(line[o + k]) == Lower(word[k]) {
      assert Fold(token)[k] == Lower(token[k]) && Fold(word)[k] == Lower(word[k]);
    }
  }

  lemma LoginGotos()
    ensures GotosEndLines(LoginScript())
  {
    hide LoginLines, VerbAt, NothingFrom, GotoEnd, Synced, Placed, Ordinary;
    LoginCut();
    forall r: Reader | AtPlace(LoginScript(), r) && VerbAt(r.line, r.pos.offset) == Some(Goto)
      ensures NothingFrom(r.line, GotoEnd(r))
    {
      PlaceIsLine(LoginScript(), r);
      var i := LineAmong(LoginLines(), r.pos.start, r.line);
      LoginOrdinary(i);
      OrdinaryGoto(r.line, r.pos.offset);
    }
  }

  lemma OrdinaryGoto(line: string, o: nat)
    requires Ordinary(line) && o <= |line|
    ensures VerbAt(line, o) != Some(Goto)
  {
    FreeOfAll(line, 0, 'g');
    if VerbAt(line, o) == Some(Goto) {
      GotoWritten(line, o);
    }
  }

  lemma LoginBraces()
    ensures BracesLeft(LoginScript())
  {
    hide LoginLines, LineAt, BraceAlone, Ordinary;
    LoginCut();
    forall p: nat, q: nat, opening: string, closing: string, i: nat, j: nat |
      && LineAt(LoginScript(), p, opening) && LineAt(LoginScript(), q, closing)
      && i < |opening| && (opening[i] == '{' || opening[i] == ':')
      && j < |closing| && closing[j] == '}'
      ensures BraceAlone(closing, j) && j <= i
    {
      var k := LineAmong(LoginLines(), q, closing);
      LoginOrdinary(k);
      OrdinaryBrace(closing, j);
    }
  }

  lemma OrdinaryBrace(line: string, j: nat)
    requires Ordinary(line) && j < |line| && line[j] == '}'
    ensures BraceAlone(line, j) && j == 0
  {
    FreeOfAll(line, 1, '}');
  }

  lemma LoginWaitNumber()
    ensures TokenEnd("WAIT 3\n", 0) == 4
    ensures ParseReal("WAIT 3\n", 4).Ok? && ParseReal("WAIT 3\n", 4).value.1 == 6 && NothingFrom("WAIT 3\n", 6)
  {
    var wait := "WAIT 3\n";
    assert EatSpaces(wait, 4) == 5;
    assert DigitsEnd(wait, 5, 10) == 6 && DigitsEnd(wait, 6, 10) == 6;
    assert wait[5..6] == "3" && wait[6..6] == "" && "3" + "" == "3";
    assert NumberOf("3", 10) == 3;
  }

  lemma LoginWaitTerm()
    ensures var item := "\"SERVER\" OK\n"; EatSpaces(item, 0) == 0 && TermEnd(item, 0) == Some(8)
  {
  }

  lemma LoginWaitItem(skip: bool)
    ensures ItemEnd("\"SERVER\" OK\n", skip, 0) == Some(11) && NothingFrom("\"SERVER\" OK\n", 11)
  {
    var item := "\"SERVER\" OK\n";
    LoginWaitTerm();
    hide TermEnd;
    assert EatSpaces(item, 8) == 9;
    assert MoreEnd(item, 8) == Some(9) && CharsetEnd(item, 9) == Some(9) && TokenEnd(item, 9) == 11;
  }

  lemma LoginWaitBrace()
    ensures NothingFrom("{\n", 1)
  {
  }

  lemma LoginWait(skip: bool)
    ensures WaitLines(LoginLines(), 4, skip)
  {
    hide TokenEnd, ParseReal, NothingFrom, ItemEnd, EatSpaces;
    LoginWaitNumber();
    LoginWaitTerm();
    LoginWaitItem(skip);
    LoginWaitBrace();
  }

  lemma LoginPassed()
    ensures Passed(LoginScript())
  {
    hide LoginLines, VerbAt, NeverPassed, Synced, Placed, Ordinary, WaitLines, Concat, StartOf;
    LoginCut();
    forall r: Reader | AtPlace(LoginScript(), r) ensures !NeverPassed(r) {
      if NeverPassed(r) {
        NeverPassedIsWait(r);
        PlaceIsLine(LoginScript(), r);
        var i := LineAmong(LoginLines(), r.pos.start, r.line);
        LoginOrdinary(i);
        OrdinaryWait(r.line, r.pos.offset);
        LoginWait(r.skip);
        PlaceLength(LoginScript(), r);
        WaitLinesPassed(LoginLines(), i, r);
      }
    }
  }

  lemma NeverPassedIsWait(r: Reader)
    requires Eaten(r) && NeverPassed(r)
    ensures VerbAt(r.line, r.pos.offset) == Some(Wait)
  {
    hide VerbAt, Passable;
  }

  lemma PlaceLength(script: string, r: Reader)
    requires AtPlace(script, r)
    ensures r.pos.length == |r.line| && Eaten(r) && r.script == script
  {
  }

  lemma OrdinaryWait(line: string, o: nat)
    requires Ordinary(line) && o <= |line| && VerbAt(line, o) == Some(Wait)
    ensures o == 0 && Lower(line[0]) == 'w'
  {
    NoWaitAll(line, 1);
    WaitWritten(line, o);
  }

  /** The script is well laid out and its WAIT is passed, so every stretch of every run of it comes to rest. */
  lemma LoginComesToRest(vars: seq<Variable>, env: Env, moves: seq<Move>, jumps: nat)
    requires Port.Played(LoginScript(), vars, env, moves).Go?
    ensures WellLaidOut(LoginScript()) && Passed(LoginScript())
    ensures var m := Port.Played(LoginScript(), vars, env, moves).value;
            Sound(m) && Rests(Progress.Process(m, env, jumps))
  {
    hide LoginScript, Sound, Rests, Progress.Process, Port.Played, GotosEndLines, BracesLeft, Passed;
    LoginGotos();
    LoginBraces();
    LoginPassed();
    RunsComeToRest(LoginScript(), vars, env, moves, jumps);
  }
}
