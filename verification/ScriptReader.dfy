/**
 CScriptReader: the lines of a script and positions in it. A line ends with its
 first carriage return or line feed, or with the script.
*/
module ScriptReader {
  import opened Wrappers
  import opened ScriptText

  datatype LinePosition = LinePosition(count: int, start: nat, length: nat, offset: nat)

  predicate Ends(c: char) {
    c == '\r' || c == '\n'
  }

  /** The length of the line that starts at `start`. */
  function LineLength(script: string, start: nat): (r: nat)
    requires start < |script|
    ensures 1 <= r <= |script| - start
    ensures forall k :: start <= k < start + r - 1 ==> !Ends(script[k])
    ensures start + r < |script| ==> Ends(script[start + r - 1])
    decreases |script| - start
  {
    if Ends(script[start]) || start + 1 == |script| then 1 else 1 + LineLength(script, start + 1)
  }

  /** What the reader holds; `toggle` is iSkipModeToggleReq. */
  datatype Reader = Reader(script: string, pos: LinePosition, line: string, skip: bool, toggle: bool)

  /** GetCurrentLine, for a position inside the script. */
  function CurrentLine(r: Reader): Option<Reader>
    requires r.pos.start <= |r.script|
  {
    if r.pos.start == |r.script| then None
    else
      var length := LineLength(r.script, r.pos.start);
      Some(r.(pos := LinePosition(r.pos.count + 1, r.pos.start, length, 0),
              line := r.script[r.pos.start..r.pos.start + length]))
  }

  /** GetNextLine; `None` is KErrScriptCompleted. */
  function NextLine(r: Reader): Option<Reader>
    requires r.pos.start + r.pos.length <= |r.script|
  {
    CurrentLine(r.(pos := r.pos.(start := r.pos.start + r.pos.length)))
  }

  // ---------- lines partition the script ----------

  /** The lines from `start` on. */
  function Lines(script: string, start: nat): (r: seq<string>)
    requires start <= |script|
    decreases |script| - start
  {
    if start == |script| then []
    else
      var length := LineLength(script, start);
      [script[start..start + length]] + Lines(script, start + length)
  }

  function Concat(lines: seq<string>): string {
    if lines == [] then "" else lines[0] + Concat(lines[1..])
  }

  /** A line end, and only at the end; only the last line may lack one. */
  ghost predicate WellCut(lines: seq<string>) {
    && (forall i :: 0 <= i < |lines| ==> lines[i] != "")
    && (forall i, k :: 0 <= i < |lines| && 0 <= k < |lines[i]| - 1 ==> !Ends(lines[i][k]))
    && (forall i :: 0 <= i < |lines| - 1 ==> Ends(lines[i][|lines[i]| - 1]))
  }

  /** The lines read one after the other are the script, cut behind each line end. */
  lemma {:induction false} LinesPartition(script: string, start: nat)
    requires start <= |script|
    ensures Concat(Lines(script, start)) == script[start..]
    ensures WellCut(Lines(script, start))
    decreases |script| - start
  {
    hide *;
    if start == |script| {
      NoLines(script);
    } else {
      var next := start + LineLength(script, start);
      LinesPartition(script, next);
      FirstLine(script, start);
      CutAt(script, start, next);
      AddLine(script[start..next], Lines(script, next));
    }
  }

  lemma RestStarts(script: string, start: nat, length: nat)
    requires start + length <= |script|
    ensures script[start..][..length] == script[start..start + length]
  {
  }

  lemma CutAt(script: string, start: nat, next: nat)
    requires start <= next <= |script|
    ensures script[start..] == script[start..next] + script[next..]
  {
  }

  lemma NoLines(script: string)
    ensures Lines(script, |script|) == [] && Concat([]) == script[|script|..] && WellCut([])
  {
  }

  lemma FirstLine(script: string, start: nat)
    requires start < |script|
    ensures var next := start + LineLength(script, start);
            var line, rest := script[start..next], Lines(script, next);
            && Lines(script, start) == [line] + rest
            && line != "" && (forall k :: 0 <= k < |line| - 1 ==> !Ends(line[k]))
            && (rest != [] ==> Ends(line[|line| - 1]))
  {
    hide LineLength, Ends;
    var next := start + LineLength(script, start);
    SliceIs(script, start, next);
  }

  lemma SliceIs(script: string, start: nat, next: nat)
    requires start <= next <= |script|
    ensures forall k :: 0 <= k < next - start ==> script[start..next][k] == script[start + k]
  {
  }

  lemma AddLine(line: string, rest: seq<string>)
    requires line != "" && (forall k :: 0 <= k < |line| - 1 ==> !Ends(line[k])) && WellCut(rest)
    requires rest != [] ==> Ends(line[|line| - 1])
    ensures WellCut([line] + rest) && Concat([line] + rest) == line + Concat(rest)
  {
    var lines := [line] + rest;
    assert lines[1..] == rest;
    forall i | 0 < i < |lines| ensures lines[i] == rest[i - 1] {
    }
  }

  /** And this is the only such cut. */
  lemma {:induction false} CutIsUnique(a: seq<string>, b: seq<string>)
    requires WellCut(a) && WellCut(b) && Concat(a) == Concat(b)
    ensures a == b
    decreases |a|
  {
    if a != [] && b != [] {
      SameFirst(a, b);
      assert Concat(a)[|a[0]|..] == Concat(a[1..]);
      assert Concat(b)[|b[0]|..] == Concat(b[1..]);
      WellCutRest(a);
      WellCutRest(b);
      CutIsUnique(a[1..], b[1..]);
      assert a == [a[0]] + a[1..] && b == [b[0]] + b[1..];
    }
  }

  lemma WellCutRest(a: seq<string>)
    requires WellCut(a) && a != []
    ensures WellCut(a[1..])
  {
    forall i | 0 <= i < |a[1..]| ensures a[1..][i] == a[i + 1] {
    }
  }

  lemma SameFirst(a: seq<string>, b: seq<string>)
    requires WellCut(a) && WellCut(b) && a != [] && b != [] && Concat(a) == Concat(b)
    ensures a[0] == b[0]
  {
    NotLonger(a, b);
    NotLonger(b, a);
    assert Concat(a)[..|a[0]|] == a[0];
    assert Concat(b)[..|b[0]|] == b[0];
  }

  lemma NotLonger(a: seq<string>, b: seq<string>)
    requires WellCut(a) && WellCut(b) && a != [] && b != [] && Concat(a) == Concat(b)
    ensures |a[0]| <= |b[0]|
  {
    var k := |b[0]| - 1;
    assert Concat(b)[k] == b[0][k];
    assert Concat(a)[..|a[0]|] == a[0];
    assert |b| == 1 ==> |Concat(b)| == |b[0]|;
    if |a[0]| > |b[0]| {
      assert false;
    }
  }

  // ---------- positions name lines ----------

  /** A line may start here. */
  predicate Boundary(script: string, p: nat) {
    p <= |script| && (p == 0 || p == |script| || Ends(script[p - 1]))
  }

  /** The number of line ends before `p`: the index of the line that starts there. */
  function LineIndex(script: string, p: nat): nat
    requires p <= |script|
  {
    if p == 0 then 0 else LineIndex(script, p - 1) + if Ends(script[p - 1]) then 1 else 0
  }

  /** The position is that of a line of the script, counted from `base`; its offset is anything. */
  ghost predicate Placed(script: string, pos: LinePosition, base: int) {
    && Boundary(script, pos.start) && pos.start < |script|
    && pos.length == LineLength(script, pos.start)
    && pos.count == LineIndex(script, pos.start) + base
  }

  /** The line text is the line at the position, not a left-over from before a jump. */
  ghost predicate Synced(r: Reader) {
    && r.pos.start + r.pos.length <= |r.script|
    && r.line == r.script[r.pos.start..r.pos.start + r.pos.length]
  }

  lemma {:induction false} IndexAhead(script: string, p: nat, q: nat)
    requires p <= q <= |script|
    requires forall k :: p <= k < q - 1 ==> !Ends(script[k])
    ensures LineIndex(script, q) == LineIndex(script, p) + if p < q && Ends(script[q - 1]) then 1 else 0
    decreases q
  {
    if p < q - 1 {
      IndexAhead(script, p, q - 1);
    }
  }

  lemma {:induction false} IndexGrows(script: string, p: nat, q: nat)
    requires p <= q <= |script|
    ensures LineIndex(script, p) <= LineIndex(script, q)
    ensures p < q && Ends(script[q - 1]) ==> LineIndex(script, p) < LineIndex(script, q)
    decreases q
  {
    if p < q {
      IndexGrows(script, p, q - 1);
    }
  }

  /** From a position of a line, the next line has a position too, and the same base. */
  lemma NextLinePlaced(r: Reader, base: int)
    requires Placed(r.script, r.pos, base)
    ensures r.pos.start + r.pos.length <= |r.script|
    ensures var n := NextLine(r);
            n.Some? ==> Placed(r.script, n.value.pos, base) && Synced(n.value) && n.value.script == r.script
                        && n.value.pos.start == r.pos.start + r.pos.length && n.value.pos.offset == 0
                        && n.value.line != "" && n.value.skip == r.skip && n.value.toggle == r.toggle
    ensures NextLine(r).None? <==> r.pos.start + r.pos.length == |r.script|
  {
    hide LineLength, LineIndex;
    if NextLine(r).Some? {
      IndexAhead(r.script, r.pos.start, r.pos.start + r.pos.length);
    }
  }

  /** Two positions with the same base name the same line exactly when their counts are equal. */
  lemma CountNamesLine(script: string, a: LinePosition, b: LinePosition, base: int)
    requires Placed(script, a, base) && Placed(script, b, base)
    ensures a.count == b.count <==> a.start == b.start
    ensures a.start == b.start ==> a.length == b.length
  {
    if a.start < b.start {
      IndexGrows(script, a.start, b.start);
    } else if b.start < a.start {
      IndexGrows(script, b.start, a.start);
    }
  }

  // ---------- the reader itself ----------

  class ScriptReader {
    var script: string            // iScript
    var pos: LinePosition         // iCurrentPosition
    var line: string              // iCurrentLine
    var skip: bool                // iSkip
    var toggle: bool              // iSkipModeToggleReq

    function R(): Reader
      reads this
    {
      Reader(script, pos, line, skip, toggle)
    }

    constructor ()
      ensures R() == Reader("", LinePosition(0, 0, 0, 0), "", false, false)
    {
      script, pos, line, skip, toggle := "", LinePosition(0, 0, 0, 0), "", false, false;
    }

    /** The line text and its flags stay as they were. */
    method SetScript(text: string)
      modifies this
      ensures R() == old(R()).(script := text, pos := LinePosition(0, 0, 0, 0), skip := false)
    {
      script := text;
      pos := LinePosition(0, 0, 0, 0);
      skip := false;
    }

    /** TDesC::Locate */
    static function Locate(s: string, c: char): int
    {
      var at := Find(s, 0, c);
      if at == |s| then KErrNotFound else at
    }

    method GetCurrentLine() returns (ret: int)
      requires pos.start <= |script|
      modifies this`pos, this`line
      ensures ret == KErrNone || ret == KErrNotFound
      ensures ret == KErrNone ==> CurrentLine(old(R())) == Some(R())
      ensures ret == KErrNotFound ==> CurrentLine(old(R())).None? && R() == old(R())
    {
      var active := script[pos.start..];
      if active == "" {
        return KErrNotFound;
      }
      var posCR, posLF := Locate(active, '\r'), Locate(active, '\n');
      var length;
      if posCR == KErrNotFound && posLF == KErrNotFound {
        length := |active|;
      } else if posCR == KErrNotFound || (posLF != KErrNotFound && posLF < posCR) {
        length := posLF + 1;
      } else {
        length := posCR + 1;
      }
      LineLengthIs(script, pos.start, length);
      RestStarts(script, pos.start, length);
      line := active[..length];
      pos := LinePosition(pos.count + 1, pos.start, length, 0);
      return KErrNone;
    }

    /** KErrNotFound stands for KErrScriptCompleted, after which nothing is read before a reset. */
    method GetNextLine() returns (ret: int)
      requires pos.start + pos.length <= |script|
      modifies this`pos, this`line
      ensures ret == KErrNone || ret == KErrNotFound
      ensures ret == KErrNone ==> NextLine(old(R())) == Some(R())
      ensures ret == KErrNotFound ==> NextLine(old(R())).None?
    {
      pos := pos.(start := pos.start + pos.length);
      ret := GetCurrentLine();
    }

    method SetCurrentPos(p: LinePosition)
      modifies this`pos
      ensures R() == old(R()).(pos := p)
    {
      pos := p;
    }

    /** The line is read twice, so that the first line has number two. */
    method Reset() returns (ret: int)
      modifies this
      ensures script == "" ==> ret == KErrNotFound
      ensures script != "" ==>
                && ret == KErrNone && Placed(script, pos, 2) && Synced(R())
                && pos.start == 0 && pos.offset == 0 && !skip && !toggle
      ensures script == old(script)
    {
      pos := LinePosition(0, 0, 0, 0);
      ret := GetCurrentLine();
      var _ := GetCurrentLine();
      skip, toggle := false, false;
    }
  }

  /** The line length is one more than the place of the first line end, if there is one. */
  lemma LineLengthIs(script: string, start: nat, length: nat)
    requires start < |script| && 1 <= length <= |script| - start
    requires forall k :: start <= k < start + length - 1 ==> !Ends(script[k])
    requires start + length < |script| ==> Ends(script[start + length - 1])
    ensures length == LineLength(script, start)
  {
    assert length <= LineLength(script, start);
  }
}
