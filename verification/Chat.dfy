/**
 CCommChatter and the scan of CScriptIO: received characters go into a ring
 buffer, and after each one the strings that a WAIT command is waiting for are
 compared with the end of what has been received.
*/
module Chat {
  import opened Wrappers

  type Byte = x: int | 0 <= x < 256

  /** `User::Fold` is any function on characters. */
  type Folding = Byte -> Byte

  /** A chat string is never empty: its constructor panics. */
  datatype ChatString = ChatString(text: seq<Byte>, folded: bool)

  // ---------- what matching means ----------

  predicate IsSuffix(s: seq<Byte>, h: seq<Byte>) {
    |s| <= |h| && h[|h| - |s|..] == s
  }

  /** A received character as a string sees it: folded for one string, as it is for another. */
  function Shown(c: Byte, folded: bool, fold: Folding): Byte {
    if folded then fold(c) else c
  }

  /** The history a chat string is compared with. */
  function Seen(h: seq<Byte>, folded: bool, fold: Folding): (r: seq<Byte>)
    ensures |r| == |h|
    ensures forall i :: 0 <= i < |h| ==> r[i] == Shown(h[i], folded, fold)
  {
    seq(|h|, i requires 0 <= i < |h| => Shown(h[i], folded, fold))
  }

  /** What the comparison with a ring of `n` characters finds out, going round as often as needed. */
  predicate RingMatches(s: seq<Byte>, h: seq<Byte>, n: nat)
    requires n > 0
  {
    && |s| <= |h|
    && forall k :: 0 <= k < |s| ==> s[|s| - 1 - k] == h[|h| - 1 - Around(k, n)]
  }

  /** `k` steps back on a ring. */
  function Around(k: nat, n: nat): (r: nat)
    requires n > 0
    ensures r < n && r <= k
    ensures k < n ==> r == k
  {
    if k < n then k else Around(k - n, n)
  }

  /** On strings that fit into the buffer the comparison decides exactly whether they are a suffix of the history. */
  lemma ShortStringsMatchExactly(s: seq<Byte>, h: seq<Byte>, n: nat)
    requires 0 < n && |s| <= n
    ensures RingMatches(s, h, n) <==> IsSuffix(s, h)
  {
    if |s| <= |h| {
      var tail := h[|h| - |s|..];
      if IsSuffix(s, h) {
        forall k | 0 <= k < |s| ensures s[|s| - 1 - k] == h[|h| - 1 - Around(k, n)] {
          assert tail[|s| - 1 - k] == h[|h| - 1 - k];
        }
      }
      if RingMatches(s, h, n) {
        forall i | 0 <= i < |s| ensures tail[i] == s[i] {
          assert s[|s| - 1 - (|s| - 1 - i)] == h[|h| - 1 - Around(|s| - 1 - i, n)];
        }
      }
    }
  }

  /** Each character equals the one `n` places further on. */
  ghost predicate Periodic(s: seq<Byte>, n: nat) {
    forall i :: 0 <= i && i + n < |s| ==> s[i] == s[i + n]
  }

  /**
   On longer strings it decides something else: that the last `n` characters are a
   suffix, and that the string repeats itself with that period.
  */
  lemma LongStringsMatchPeriodically(s: seq<Byte>, h: seq<Byte>, n: nat)
    requires 0 < n < |s|
    ensures RingMatches(s, h, n) <==> |s| <= |h| && IsSuffix(s[|s| - n..], h) && Periodic(s, n)
  {
    if |s| <= |h| {
      var t := s[|s| - n..];
      ShortStringsMatchExactly(t, h, n);
      if RingMatches(s, h, n) {
        PeriodicFront(s, h, n);
      }
      if RingMatches(t, h, n) && Periodic(s, n) {
        forall k | 0 <= k < |s| ensures s[|s| - 1 - k] == h[|h| - 1 - Around(k, n)] {
          PeriodicBack(s, h, n, k);
        }
      }
    }
  }

  lemma PeriodicFront(s: seq<Byte>, h: seq<Byte>, n: nat)
    requires 0 < n < |s| <= |h| && RingMatches(s, h, n)
    ensures RingMatches(s[|s| - n..], h, n) && Periodic(s, n)
  {
    var t := s[|s| - n..];
    forall k | 0 <= k < n ensures t[n - 1 - k] == h[|h| - 1 - Around(k, n)] {
      assert t[n - 1 - k] == s[|s| - 1 - k];
    }
    forall i | 0 <= i && i + n < |s| ensures s[i] == s[i + n] {
      var k := |s| - 1 - i;
      assert s[|s| - 1 - k] == h[|h| - 1 - Around(k, n)];
      assert s[|s| - 1 - (k - n)] == h[|h| - 1 - Around(k - n, n)];
    }
  }

  lemma {:induction false} PeriodicBack(s: seq<Byte>, h: seq<Byte>, n: nat, k: nat)
    requires 0 < n < |s| <= |h| && k < |s| && Periodic(s, n) && RingMatches(s[|s| - n..], h, n)
    ensures s[|s| - 1 - k] == h[|h| - 1 - Around(k, n)]
    decreases k
  {
    if k < n {
      assert s[|s| - n..][n - 1 - k] == s[|s| - 1 - k];
    } else {
      PeriodicBack(s, h, n, k - n);
    }
  }

  /** So a string one character too long can be found although it was never received. */
  lemma FalseMatch(n: nat)
    requires n > 0
    ensures var s := seq(n + 1, _ => 1 as Byte);
            var h := [0 as Byte] + seq(n, _ => 1 as Byte);
            RingMatches(s, h, n) && !IsSuffix(s, h)
  {
    var s := seq(n + 1, _ => 1 as Byte);
    var h := [0 as Byte] + seq(n, _ => 1 as Byte);
    assert h[|h| - |s|..][0] == 0 && s[0] == 1;
  }

  /** The string at index `i` of the list is found at the end of history `h`. */
  predicate FoundAt(list: seq<ChatString>, h: seq<Byte>, n: nat, fold: Folding, i: int)
    requires n > 0
  {
    0 <= i < |list| && RingMatches(list[i].text, Seen(h, list[i].folded, fold), n)
  }

  /** The highest index below `m` at which a string is found, else `other`. */
  function Highest(list: seq<ChatString>, h: seq<Byte>, n: nat, fold: Folding, m: nat, other: int): (r: int)
    requires n > 0 && m <= |list|
    ensures r == other || (FoundAt(list, h, n, fold, r) && r < m)
    ensures forall i :: i < m && FoundAt(list, h, n, fold, i) ==> i <= r && FoundAt(list, h, n, fold, r)
  {
    if m == 0 then other
    else if FoundAt(list, h, n, fold, m - 1) then m - 1
    else Highest(list, h, n, fold, m - 1, other)
  }

  /** The buffer index `k` steps before `last` in a buffer of `n`. */
  function Back(last: nat, n: nat, k: nat): (r: nat)
    requires last < n && k < n
    ensures r < n
  {
    if k <= last then last - k else last + n - k
  }

  // ---------- the chatter ----------

  class CommChatter {
    const fold: Folding
    const buffer: array<Byte>
    var lastChar: nat               // iLastChar
    var count: nat                  // iCount
    var list: seq<ChatString>       // iList
    var stringFound: int            // iStringFound of the CScriptIO that is notified
    ghost var history: seq<Byte>    // everything added since ClearHistory

    ghost predicate Valid()
      reads this, buffer
    {
      && buffer.Length > 0
      && lastChar < buffer.Length
      && count == |history|
      && (forall k :: 0 <= k < count && k < buffer.Length ==>
         buffer[Back(lastChar, buffer.Length, k)] == history[count - 1 - k])
      && (forall i :: 0 <= i < |list| ==> |list[i].text| > 0)
    }

    constructor (fold: Folding, size: nat)
      requires size > 0
      ensures Valid() && fresh(buffer) && buffer.Length == size && this.fold == fold
      ensures history == [] && list == [] && stringFound == KErrNotFound
    {
      this.fold := fold;
      buffer := new Byte[size](_ => 0);
      lastChar, count, list, stringFound := 0, 0, [], KErrNotFound;
      history := [];
    }

    method ClearHistory()
      requires Valid()
      modifies this`lastChar, this`count, this`history
      ensures Valid() && history == []
    {
      lastChar, count := 0, 0;
      history := [];
    }

    /** Match and MatchF: the two differ in what a buffered character is folded with. */
    method Match(s: ChatString) returns (found: bool)
      requires Valid() && |s.text| > 0
      ensures found <==> RingMatches(s.text, Seen(history, s.folded, fold), buffer.Length)
    {
      hide Around, Back, Seen, RingMatches, MatchedBack, Shown;
      if count < |s.text| {
        TooLong(s.text, Seen(history, s.folded, fold), buffer.Length);
        return false;
      }
      ghost var h, n := Seen(history, s.folded, fold), buffer.Length;
      var k, bp := 0, lastChar;   // the string is compared backwards, `k` characters so far
      Start(lastChar, n);
      MatchStart(s.text, h, n);
      while k < |s.text| && Shown(buffer[bp], s.folded, fold) == s.text[|s.text| - 1 - k]
        invariant 0 <= k <= |s.text| && 0 <= bp < n && bp == Back(lastChar, n, Around(k, n))
        invariant MatchedBack(s.text, h, n, k)
      {
        Buffered(k, s.folded);
        MatchStep(s.text, h, n, k);
        BackNext(lastChar, k, n);
        k := k + 1;
        bp := if bp == 0 then buffer.Length - 1 else bp - 1;
      }
      found := k == |s.text|;
      if !found {
        Buffered(k, s.folded);
      }
      MatchEnd(s.text, h, n, k);
    }

    /** The character `k` steps back on the ring is in the buffer. */
    lemma Buffered(k: nat, folded: bool)
      requires Valid() && k < count
      ensures var r := Around(k, buffer.Length);
              var c := buffer[Back(lastChar, buffer.Length, r)];
              var h := Seen(history, folded, fold);
              |h| == count && h[|h| - 1 - r] == Shown(c, folded, fold)
    {
    }

    /** The first half of AddChar. */
    method Store(c: Byte)
      requires Valid()
      modifies this`lastChar, this`count, this`history, buffer
      ensures Valid() && history == old(history) + [c]
    {
      ghost var was, n := lastChar, buffer.Length;
      lastChar := if lastChar + 1 == buffer.Length then 0 else lastChar + 1;
      buffer[lastChar] := c;
      count := count + 1;
      history := history + [c];
      forall k | 0 <= k < count && k < n ensures buffer[Back(lastChar, n, k)] == history[count - 1 - k] {
        if k > 0 {
          assert Back(lastChar, n, k) == Back(was, n, k - 1);
        }
      }
    }

    /** AddChar: the character is buffered, and each string now found is notified, in list order. */
    method AddChar(c: Byte)
      requires Valid()
      modifies this`lastChar, this`count, this`history, this`stringFound, buffer
      ensures Valid() && history == old(history) + [c]
      ensures stringFound == Highest(list, history, buffer.Length, fold, |list|, old(stringFound))
    {
      hide RingMatches, Seen;
      Store(c);
      var index := 0;
      while index < |list|
        invariant 0 <= index <= |list|
        invariant stringFound == Highest(list, history, buffer.Length, fold, index, old(stringFound))
        modifies this`stringFound
      {
        var s := list[index];
        LastMustMatch(s, history, buffer.Length, fold);
        if s.text[|s.text| - 1] == Shown(c, s.folded, fold) {
          var found := Match(s);
          if found {
            stringFound := index;
          }
        }
        index := index + 1;
      }
    }

    method AddString(s: ChatString)
      requires Valid() && |s.text| > 0
      modifies this`list
      ensures Valid() && list == old(list) + [s]
    {
      list := list + [s];
    }

    /** Nothing has been found yet; CScriptIO::Read starts with this. */
    method Begin()
      requires Valid()
      modifies this`stringFound
      ensures Valid() && stringFound == KErrNotFound
    {
      stringFound := KErrNotFound;
    }

    method DeleteAll()
      requires Valid()
      modifies this`list
      ensures Valid() && list == []
    {
      while list != []
        invariant Valid()
        decreases |list|
      {
        list := list[1..];
      }
    }

    /** The loop of CommReadComplete over the received characters. */
    method Scan(rx: seq<Byte>) returns (excess: seq<Byte>)
      requires Valid() && stringFound == KErrNotFound
      modifies this`lastChar, this`count, this`history, this`stringFound, buffer
      ensures Valid()
      ensures Scanned(history, stringFound, excess) == ScanAll(list, old(history), buffer.Length, fold, rx)
    {
      hide RingMatches, Seen, Highest;
      ghost var all := ScanAll(list, history, buffer.Length, fold, rx);
      var offset := 0;
      assert rx[0..] == rx;
      while offset < |rx|
        invariant 0 <= offset <= |rx|
        invariant Valid() && stringFound == KErrNotFound
        invariant ScanAll(list, history, buffer.Length, fold, rx[offset..]) == all
        modifies this`lastChar, this`count, this`history, this`stringFound, buffer
      {
        assert rx[offset..][0] == rx[offset] && rx[offset..][1..] == rx[offset + 1..];
        AddChar(rx[offset]);
        if stringFound != KErrNotFound {
          return rx[offset + 1..];
        }
        offset := offset + 1;
      }
      excess := [];
    }
  }

  /** The history, the index of the string found or -1, and the characters not looked at. */
  datatype Scanned = Scanned(history: seq<Byte>, found: int, excess: seq<Byte>)

  function ScanAll(list: seq<ChatString>, h: seq<Byte>, n: nat, fold: Folding, rx: seq<Byte>): Scanned
    requires n > 0
    decreases |rx|
  {
    if rx == [] then Scanned(h, KErrNotFound, [])
    else
      var next := h + [rx[0]];
      var found := Highest(list, next, n, fold, |list|, KErrNotFound);
      if found != KErrNotFound then Scanned(next, found, rx[1..]) else ScanAll(list, next, n, fold, rx[1..])
  }

  /** No string is found on the way from history `before` to history `h`, its end left out if `found`. */
  ghost predicate Quiet(list: seq<ChatString>, before: seq<Byte>, h: seq<Byte>, n: nat, fold: Folding, found: bool)
    requires n > 0
  {
    forall used, i :: |before| < used <= |h| && (found ==> used < |h|) ==> !FoundAt(list, h[..used], n, fold, i)
  }

  /**
   The scan stops at the first received character at which a string is found, takes the
   string highest in the list, and leaves exactly the characters behind it; with no
   string found it takes everything.
  */
  lemma {:induction false} ScanStopsFirst(list: seq<ChatString>, h: seq<Byte>, n: nat, fold: Folding, rx: seq<Byte>)
    requires n > 0
    ensures var t := ScanAll(list, h, n, fold, rx);
            && h <= t.history && t.history + t.excess == h + rx
            && Quiet(list, h, t.history, n, fold, t.found != KErrNotFound)
            && (t.found == KErrNotFound ==> t.excess == [])
            && (t.found != KErrNotFound ==>
                  && |h| < |t.history| && FoundAt(list, t.history, n, fold, t.found)
                  && (forall i :: FoundAt(list, t.history, n, fold, i) ==> i <= t.found))
    decreases |rx|
  {
    if rx != [] {
      var next := h + [rx[0]];
      assert h + rx == next + rx[1..];
      assert next[..|next|] == next;
      if Highest(list, next, n, fold, |list|, KErrNotFound) == KErrNotFound {
        ScanStopsFirst(list, next, n, fold, rx[1..]);
        hide RingMatches, Seen, Highest;
        var t := ScanAll(list, next, n, fold, rx[1..]);
        QuietFirst(list, h, next, t.history, n, fold, t.found != KErrNotFound);
      }
    }
  }

  lemma QuietFirst(list: seq<ChatString>, h: seq<Byte>, next: seq<Byte>, end: seq<Byte>, n: nat, fold: Folding,
                   found: bool)
    requires n > 0 && |next| == |h| + 1 && next <= end && Quiet(list, next, end, n, fold, found)
    requires forall i :: !FoundAt(list, next, n, fold, i)
    ensures Quiet(list, h, end, n, fold, found)
  {
    hide FoundAt;
    forall used, i | |h| < used <= |end| && (found ==> used < |end|) ensures !FoundAt(list, end[..used], n, fold, i) {
      if used == |next| {
        assert end[..used] == next;
      }
    }
  }

  /** The last `k` characters of `s` have been compared with the ring and are equal. */
  ghost predicate MatchedBack(s: seq<Byte>, h: seq<Byte>, n: nat, k: nat)
    requires n > 0 && |s| <= |h| && k <= |s|
  {
    forall i :: 0 <= i < k ==> s[|s| - 1 - i] == h[|h| - 1 - Around(i, n)]
  }

  lemma TooLong(s: seq<Byte>, h: seq<Byte>, n: nat)
    requires n > 0 && |h| < |s|
    ensures !RingMatches(s, h, n)
  {
  }

  lemma MatchStart(s: seq<Byte>, h: seq<Byte>, n: nat)
    requires n > 0 && |s| <= |h|
    ensures MatchedBack(s, h, n, 0)
  {
  }

  lemma MatchStep(s: seq<Byte>, h: seq<Byte>, n: nat, k: nat)
    requires n > 0 && |s| <= |h| && k < |s| && MatchedBack(s, h, n, k)
    ensures s[|s| - 1 - k] == h[|h| - 1 - Around(k, n)] ==> MatchedBack(s, h, n, k + 1)
  {
  }

  lemma MatchEnd(s: seq<Byte>, h: seq<Byte>, n: nat, k: nat)
    requires n > 0 && |s| <= |h| && k <= |s| && MatchedBack(s, h, n, k)
    requires k < |s| ==> s[|s| - 1 - k] != h[|h| - 1 - Around(k, n)]
    ensures RingMatches(s, h, n) <==> k == |s|
  {
  }

  lemma Start(last: nat, n: nat)
    requires last < n
    ensures Around(0, n) == 0 && Back(last, n, 0) == last
  {
  }

  /** One step further back on the ring. */
  lemma BackNext(last: nat, k: nat, n: nat)
    requires last < n
    ensures var b := Back(last, n, Around(k, n));
            Back(last, n, Around(k + 1, n)) == if b == 0 then n - 1 else b - 1
  {
    AroundNext(k, n);
  }

  lemma {:induction false} AroundNext(k: nat, n: nat)
    requires n > 0
    ensures Around(k + 1, n) == if Around(k, n) + 1 == n then 0 else Around(k, n) + 1
    decreases k
  {
    if k >= n {
      AroundNext(k - n, n);
    }
  }

  /** A string is found only if its last character is the one just received. */
  lemma LastMustMatch(s: ChatString, h: seq<Byte>, n: nat, fold: Folding)
    requires n > 0 && |s.text| > 0 && |h| > 0
    ensures RingMatches(s.text, Seen(h, s.folded, fold), n) ==>
              s.text[|s.text| - 1] == Shown(h[|h| - 1], s.folded, fold)
  {
    var seen := Seen(h, s.folded, fold);
    if RingMatches(s.text, seen, n) {
      assert s.text[|s.text| - 1 - 0] == seen[|seen| - 1 - Around(0, n)];
    }
  }
}
