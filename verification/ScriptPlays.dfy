/**
 Loops and skip mode in runs with the port: what comes from the port between the rounds
 leaves both alone.
*/
module ScriptPlays {
  import opened Wrappers
  import opened ScriptText
  import opened ScriptReader
  import opened ScriptStores
  import opened ScriptExpressions
  import opened ScriptMachine
  import opened ScriptSteps
  import opened ScriptRuns
  import opened ScriptLines
  import opened ScriptProgress
  import opened ScriptLoops
  import opened ScriptPort
  import opened ScriptLabels
  import Chat

  // ---------- skip mode ----------

  /** Every move keeps the labels and adds to them at most. */
  lemma TakeLabels(m: Machine, env: Env, move: Move)
    requires Sound(m) && Proper(m.reader) && Fits(m.reader) && Take(m, env, move).Go?
    ensures m.labels <= Take(m, env, move).value.labels
  {
    hide Sound, Proper, Take, Step, Running;
    TakeText(m, env, move);
    if Step(m, env).Go? {
      StepLabels(m, env);
    }
  }

  lemma {:induction false} RunLabels(m: Machine, env: Env, moves: seq<Move>)
    requires Sound(m) && PortOk(m) && Run(m, env, moves).Go?
    ensures m.labels <= Run(m, env, moves).value.labels
    decreases |moves|
  {
    hide Sound, PortOk, Take, Proper, Fits;
    if moves != [] {
      SoundProper(m);
      ProperFits(m.reader);
      TakeSound(m, env, moves[0]);
      TakeLabels(m, env, moves[0]);
      RunLabels(Take(m, env, moves[0]).value, env, moves[1..]);
    }
  }

  /** A finished script stays as it is. */
  lemma {:induction false} FinishedStays(m: Machine, env: Env, moves: seq<Move>)
    requires Sound(m) && PortOk(m) && m.finished.Some?
    ensures Run(m, env, moves) == Go(m)
    decreases |moves|
  {
    hide Sound, PortOk;
    if moves != [] {
      SoundProper(m);
      FinishedStays(m, env, moves[1..]);
    }
  }

  /** While nothing is pending, only rounds do anything. */
  lemma OnlyRounds(m: Machine, env: Env, move: Move)
    requires Fits(m.reader) && Running(m) && move != Round
    ensures Take(m, env, move) == Go(m)
  {
    hide Step;
  }

  /**
   Skip mode is inert in runs with the port. As long as the label searched for is not
   defined, no request is made whatever comes from the port, only temporary variables
   change, and the mode goes on until the script ends.
  */
  lemma {:induction false} SkipModeIsInertInRuns(m: Machine, env: Env, moves: seq<Move>)
    requires Sound(m) && PortOk(m) && Running(m) && Skipping(m)
    requires Run(m, env, moves).Go? && FindLabel(Run(m, env, moves).value.labels, m.search).None?
    ensures var t := Run(m, env, moves).value;
            t.requests == m.requests && SameButTemps(m.vars, t.vars)
              && (t.finished.None? ==> Undisturbed(m, t) && Skipping(t))
    decreases |moves|
  {
    hide Sound, PortOk, Step, Proper, Fits, FindLabel, Running, Skipping, IsTemp, Lookup;
    RunLabels(m, env, moves);
    PrefixFind(m.labels, Run(m, env, moves).value.labels, m.search);
    UndisturbedSame(m);
    if moves != [] {
      SoundProper(m);
      ProperFits(m.reader);
      TakeSound(m, env, moves[0]);
      var t := Take(m, env, moves[0]).value;
      if moves[0] != Round {
        OnlyRounds(m, env, moves[0]);
        SkipModeIsInertInRuns(m, env, moves[1..]);
      } else if Step(m, env).Go? {
        RunLabels(t, env, moves[1..]);
        PrefixFind(t.labels, Run(t, env, moves[1..]).value.labels, m.search);
        SkipRound(m, env);
        SkipModeIsInertInRuns(t, env, moves[1..]);
      } else {
        FinishedInSkipMode(m, Step(m, env).error);
        FinishedStays(t, env, moves[1..]);
      }
    }
  }

  lemma FinishedInSkipMode(m: Machine, error: Error)
    ensures var t := Finish(m, error); t.requests == m.requests && t.vars == m.vars && t.finished.Some?
  {
  }

  // ---------- loops ----------

  /** The move is a round that is taken. */
  predicate Works(m: Machine, move: Move) {
    move == Round && Running(m)
  }

  /**
   A move inside a loop: a round that goes on, or something from the port that neither
   finds a string nor ends the script.
  */
  ghost predicate Within(m: Machine, env: Env, move: Move)
    requires Fits(m.reader)
  {
    && m.loop && !Skipping(m) && Take(m, env, move).Go?
    && (Works(m, move) ==> Step(m, env).Go?)
    && (!Works(m, move) ==> Take(m, env, move).value.reader == m.reader && Take(m, env, move).value.loop)
  }

  /** All the moves are inside the loop; the last one may end it. */
  ghost predicate Looping(m: Machine, env: Env, moves: seq<Move>)
    requires Sound(m) && PortOk(m)
    decreases |moves|
  {
    moves != [] ==>
      && (SoundProper(m); Within(m, env, moves[0]))
      && (TakeSound(m, env, moves[0]); Looping(Take(m, env, moves[0]).value, env, moves[1..]))
  }

  /** The closing braces among the moves stand alone, left of `offset` or not. */
  ghost predicate BracesPlayed(m: Machine, env: Env, moves: seq<Move>, offset: nat, left: bool)
    requires Sound(m) && PortOk(m) && Looping(m, env, moves)
    decreases |moves|
  {
    moves != [] ==>
      && (SoundProper(m); Works(m, moves[0]) ==> BraceStands(m, offset, left))
      && (TakeSound(m, env, moves[0]); BracesPlayed(Take(m, env, moves[0]).value, env, moves[1..], offset, left))
  }

  /** How often in the moves the body is entered: by a round right behind the opening brace or a closing one,
    at the place of `first`. */
  ghost function EntriesPlayed(m: Machine, env: Env, moves: seq<Move>, first: Flow<Reader>, anew: bool): nat
    requires Sound(m) && PortOk(m) && Looping(m, env, moves)
    decreases |moves|
  {
    if moves == [] then 0
    else
      SoundProper(m);
      TakeSound(m, env, moves[0]);
      var t := Take(m, env, moves[0]).value;
      if Works(m, moves[0]) then
        (if anew && Start(m) == first then 1 else 0) + EntriesPlayed(t, env, moves[1..], first, Closes(m))
      else EntriesPlayed(t, env, moves[1..], first, anew)
  }

  /** What comes from the port leaves counter and start of a loop alone. */
  lemma PortKeepsLoop(m: Machine, env: Env, move: Move)
    requires Fits(m.reader) && Within(m, env, move) && !Works(m, move)
    ensures var t := Take(m, env, move).value; t.counter == m.counter && t.loopPos == m.loopPos
  {
    hide Step, Chat.ScanAll, FindLabel, Finish, CompletedRead, CompletedWrite, FoundString, Running, Skipping;
    FinishCounts(m);
    WriteCounts(m.(writePending := false));
    ReadCounts(m.(readPending := false));
    match move
    case Arrived(status, rx) =>
      if env.history > 0 {
        var scan := Chat.ScanAll(m.chat, m.received, env.history, env.fold, rx);
        FoundCounts(m.(received := scan.history, readPending := false), scan.found);
      }
    case _ =>
  }

  lemma FinishCounts(m: Machine)
    ensures forall error :: Finish(m, error).counter == m.counter && Finish(m, error).loopPos == m.loopPos
  {
  }

  lemma WriteCounts(m: Machine)
    ensures forall error ::
              CompletedWrite(m, error).counter == m.counter && CompletedWrite(m, error).loopPos == m.loopPos
  {
    hide Finish;
    FinishCounts(m);
  }

  lemma ReadCounts(m: Machine)
    ensures forall error :: CompletedRead(m, error).counter == m.counter && CompletedRead(m, error).loopPos == m.loopPos
  {
    hide Finish;
    FinishCounts(m.(login := Deactivated));
  }

  lemma FoundCounts(m: Machine, i: int)
    ensures FoundString(m, i).Go? ==>
              FoundString(m, i).value.counter == m.counter && FoundString(m, i).value.loopPos == m.loopPos
  {
    hide FindLabel;
  }

  lemma SameStart(m: Machine, t: Machine)
    requires Fits(m.reader) && t.reader == m.reader
    ensures Fits(t.reader) && Start(t) == Start(m)
  {
    ReadyKeeps(m);
    ReadyKeeps(t);
    hide Eat, Ready;
  }

  lemma SameFirst(m: Machine, t: Machine, first: Reader)
    requires FirstOf(m, first) && t.reader == m.reader && t.loopPos == m.loopPos
    ensures FirstOf(t, first)
  {
    hide NothingFrom, Proper;
  }

  /** The count of entries from any move of a loop on, up to its end. */
  lemma {:induction false} EntriesPlayedAre(m: Machine, env: Env, moves: seq<Move>, first: Reader, anew: bool,
                                            left: bool)
    requires Sound(m) && PortOk(m) && m.loop && Looping(m, env, moves) && FirstOf(m, first)
    requires BracesPlayed(m, env, moves, first.pos.offset, left)
    requires Run(m, env, moves).Go? && !Run(m, env, moves).value.loop
    ensures var now := if anew && (SoundProper(m); Start(m) == Eat(first)) then 1 else 0;
            EntriesPlayed(m, env, moves, Eat(first), anew) == now + if left then m.counter - 1 else 0
    decreases |moves|
  {
    hide Sound, PortOk, Step, Closes, Skipping, Proper, Start, FirstOf, BraceStands, Eat, Running, Fits;
    CounterPositive(m);
    SoundProper(m);
    ProperFits(m.reader);
    var move := moves[0];
    TakeSound(m, env, move);
    var t := Take(m, env, move).value;
    if Works(m, move) {
      StepSound(m, env);
      LoopStep(m, env);
      StaysFirst(m, env, first);
      if t.loop {
        if Closes(m) {
          PlayGoesOn(t, env, moves[1..]);
          ClosingRestartsBody(m, env, first, left);
        }
        EntriesPlayedAre(t, env, moves[1..], first, Closes(m), left);
      } else {
        LoopLeft(t, env, moves[1..]);
      }
    } else {
      PortKeepsLoop(m, env, move);
      SameStart(m, t);
      SameFirst(m, t, first);
      EntriesPlayedAre(t, env, moves[1..], first, anew, left);
    }
  }

  lemma PlayGoesOn(m: Machine, env: Env, moves: seq<Move>)
    requires Sound(m) && PortOk(m) && m.loop && Looping(m, env, moves)
    requires Run(m, env, moves).Go? && !Run(m, env, moves).value.loop
    ensures !Skipping(m)
  {
    hide Sound, PortOk, Take;
  }

  lemma LoopLeft(m: Machine, env: Env, moves: seq<Move>)
    requires Sound(m) && PortOk(m) && !m.loop && Looping(m, env, moves)
    ensures moves == []
  {
    hide Sound, PortOk, Take;
  }

  /**
   In runs with the port, too, the body of a loop that ends by its closing braces is entered
   exactly as often as its number says if they stand left of the place behind the opening
   brace, and once otherwise, whatever is written, read and timed out in between.
  */
  lemma BodyRunsItsCountInRuns(m: Machine, env: Env, moves: seq<Move>, left: bool)
    requires BehindLoop(m) && PortOk(m) && Looping(m, env, moves)
    requires Run(m, env, moves).Go? && !Run(m, env, moves).value.loop
    requires BracesPlayed(m, env, moves, m.loopPos.offset, left)
    ensures Fits(m.reader) && EntriesPlayed(m, env, moves, Start(m), true) == if left then m.counter else 1
  {
    hide Sound, PortOk, Run, Looping, BracesPlayed, EntriesPlayed, NothingFrom, Eat, Proper;
    SoundProper(m);
    ProperFits(m.reader);
    ReadySound(m);
    ReadyKeeps(m);
    EntriesPlayedAre(m, env, moves, Ready(m).reader, true, left);
  }
}
