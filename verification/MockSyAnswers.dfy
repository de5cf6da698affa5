/**
 What the engine answers: the outcome of every command, read off the events that have
 been queued, and what its flags and notices say, read off the steps of the run.
*/
module MockSyAnswers {
  import opened Wrappers
  import opened Sequences
  import opened MockSy

  // ---------- one command ----------

  /** The commands expected since the last reset. */
  function Script(s: State): seq<Event>
    requires s.start <= |s.log|
  {
    Messages(s.log[s.start..])
  }

  /** The next command expected has this number, and its data is accepted if it is looked at. */
  predicate Expects(s: State, cmdId: int, accepts: seq<int> -> bool, checkData: bool)
    requires s.start <= |s.log|
  {
    var n := |s.matched|;
    n < |Script(s)| && Script(s)[n].cmdId == cmdId && (!checkData || accepts(Script(s)[n].data))
  }

  /** The next command expected is the head of the waiting queue. */
  lemma ScriptIsWaited(s: State)
    requires Ok(s)
    ensures s.start <= |s.log| && |s.matched| <= |Script(s)| && s.matched == Script(s)[..|s.matched|]
    ensures s.waiting == [] <==> |s.matched| == |Script(s)|
    ensures s.waiting != [] ==> Script(s)[|s.matched|] == s.waiting[0]
  {
    hide Bag, Completions, Events, DeliveredEvents, Messages;
    assert s.log[s.start..] == Taken(s) + s.waiting;
    KindsConcat(Taken(s), s.waiting);
    if s.waiting != [] {
      FirstKind(s.waiting);
    } else {
      NoKinds();
    }
  }

  /**
   A command is taken, and answered with the result that its expectation carries, exactly if
   the next expected command has its number and, where data is looked at, accepts its
   data. Any other command changes nothing and succeeds if it may be ignored; if not, it is
   answered as corrupt, the failure is recorded, and nothing is expected or pending any more.
  */
  lemma CommandsAreAnswered(s: State, cmdId: int, accepts: seq<int> -> bool, checkData: bool, ignore: bool)
    requires Ok(s)
    ensures s.start <= |s.log|
    ensures var (t, outcome) := Execute(s, cmdId, accepts, checkData, ignore);
            if Expects(s, cmdId, accepts, checkData) then
              var first := Script(s)[|s.matched|];
              && outcome == (if first.leave then Left(first.result) else Returned(first.result))
              && t.matched == s.matched + [first] && t.log == s.log && t.start == s.start
              && t.failure == s.failure && t.paused == s.paused && t.delivered == s.delivered
            else if ignore then outcome == Returned(0) && t == s
            else
              && outcome == Returned(-20) && t.failure && !t.paused && t.waiting == [] && t.pending == []
              && t.start == |s.log| && t.log == s.log && t.matched == [] && t.delivered == []
  {
    hide Ok, Messages, InsertAll, Leading;
    ScriptIsWaited(s);
  }

  // ---------- runs ----------

  lemma {:induction false} AfterFits(steps: seq<Step>)
    ensures Ok(After(Initial(), steps))
    ensures After(Initial(), steps).start <= |After(Initial(), steps).log|
  {
    AfterOk(steps);
  }

  /** The command of the step is refused. */
  ghost predicate Refuses(s: State, step: Step)
    requires s.start <= |s.log|
  {
    step.DoExecute? && !step.ignore && !Expects(s, step.cmdId, step.accepts, step.checkData)
  }

  /** The command of the step is taken. */
  ghost predicate Accepts(s: State, step: Step)
    requires s.start <= |s.log|
  {
    step.DoExecute? && Expects(s, step.cmdId, step.accepts, step.checkData)
  }

  /** The numbers of the commands taken since the last reset, from the steps of the run. */
  ghost function Numbers(steps: seq<Step>): seq<int> {
    if steps == [] then []
    else
      var n := |steps| - 1;
      AfterFits(steps[..n]);
      var s := After(Initial(), steps[..n]);
      if steps[n].DoClose? || Refuses(s, steps[n]) then []
      else if Accepts(s, steps[n]) then Numbers(steps[..n]) + [steps[n].cmdId]
      else Numbers(steps[..n])
  }

  function Ids(es: seq<Event>): seq<int> {
    seq(|es|, i requires 0 <= i < |es| => es[i].cmdId)
  }

  /** The events queued by the steps of the run, with what they were given. */
  function Queued(steps: seq<Step>): seq<Event> {
    if steps == [] then []
    else
      var n := |steps| - 1;
      var before := Queued(steps[..n]);
      match steps[n]
      case DoQueue(kind, cmdId, result, leave, delay, data) =>
        before + [Event(|before|, kind, cmdId, result, leave, delay, data)]
      case _ => before
  }

  /** The engine has been paused and not resumed or reset since. */
  ghost predicate Halted(steps: seq<Step>) {
    steps != []
    && var n := |steps| - 1;
       AfterFits(steps[..n]);
       match steps[n]
       case DoPause(paused) => paused
       case DoClose => false
       case _ => !Refuses(After(Initial(), steps[..n]), steps[n]) && Halted(steps[..n])
  }

  /** A command has been refused since the session was last closed. */
  ghost predicate Failed(steps: seq<Step>) {
    steps != []
    && var n := |steps| - 1;
       AfterFits(steps[..n]);
       match steps[n]
       case DoClose => false
       case _ => Refuses(After(Initial(), steps[..n]), steps[n]) || Failed(steps[..n])
  }

  lemma StepNumbers(s: State, step: Step)
    requires Ok(s)
    ensures var t := Take(s, step);
            && s.start <= |s.log|
            && Ids(t.matched) == (if step.DoClose? || Refuses(s, step) then []
                                  else if Accepts(s, step) then Ids(s.matched) + [step.cmdId] else Ids(s.matched))
            && t.failure == (!step.DoClose? && (Refuses(s, step) || s.failure))
            && t.paused == (match step
                            case DoPause(paused) => paused
                            case DoClose => false
                            case _ => !Refuses(s, step) && s.paused)
            && (match step
                case DoQueue(kind, cmdId, result, leave, delay, data) =>
                  t.log == s.log + [Event(|s.log|, kind, cmdId, result, leave, delay, data)]
                case _ => t.log == s.log)
  {
    hide Ok, Insert, CountDown, Due, InsertAll, Expects, Leading, Matched, Discard;
    ScriptIsWaited(s);
    match step
    case DoExecute(cmdId, accepts, checkData, ignore) =>
      CommandsAreAnswered(s, cmdId, accepts, checkData, ignore);
      if Accepts(s, step) {
        IdsMore(s, cmdId, accepts, checkData);
      }
    case DoClose => Discarded(s.(failure := false));
    case _ =>
  }

  lemma Discarded(s: State)
    ensures var t := Discard(s); t.matched == [] && !t.paused && t.failure == s.failure && t.log == s.log
  {
  }

  lemma IdsMore(s: State, cmdId: int, accepts: seq<int> -> bool, checkData: bool)
    requires s.start <= |s.log| && Expects(s, cmdId, accepts, checkData)
    ensures Ids(s.matched + [Script(s)[|s.matched|]]) == Ids(s.matched) + [cmdId]
  {
  }

  /**
   Over every run: the commands matched since the last reset are the ones taken, number by
   number and in order; the log is what was queued; the engine is paused exactly if it was
   last told so; and a failure is on record exactly if a command has been refused since
   the session was last closed.
  */
  lemma {:induction false} RunsAreRecorded(steps: seq<Step>)
    ensures var s := After(Initial(), steps);
            && Ids(s.matched) == Numbers(steps)
            && s.log == Queued(steps)
            && s.paused == Halted(steps)
            && s.failure == Failed(steps)
  {
    hide Take, Accepts, Refuses;
    if steps != [] {
      var n := |steps| - 1;
      RunsAreRecorded(steps[..n]);
      AfterFits(steps[..n]);
      StepNumbers(After(Initial(), steps[..n]), steps[n]);
    }
  }

  // ---------- what an unpaused callback and a notice mean ----------

  /** A paused engine delivers nothing, whatever falls due, and pausing or resuming twice is an error. */
  lemma PausesHold(steps: seq<Step>, paused: bool)
    ensures Halted(steps) ==> Take(After(Initial(), steps), DoTick) == After(Initial(), steps)
    ensures Pause(After(Initial(), steps), paused).1 == if Halted(steps) == paused then -14 else 0
  {
    RunsAreRecorded(steps);
    hide After, Halted, CountDown, Due;
  }

  /**
   Listeners hear of a failure with every command refused, and that all is handled with
   every command taken and every callback that leaves nothing expected and nothing pending.
  */
  lemma NoticesAre(s: State, step: Step)
    requires Ok(s)
    ensures var t := Take(s, step);
            && s.start <= |s.log|
            && t.notices == s.notices
                 + (if Refuses(s, step) then [FailureNotice]
                    else if (Accepts(s, step) || (step.DoTick? && !s.paused)) && t.waiting == [] && t.pending == []
                    then [HandlingTerminated] else [])
  {
    hide Ok, Insert, CountDown, Due, InsertAll, Expects, Leading;
    ScriptIsWaited(s);
    assert s.notices + [] == s.notices;
    match step
    case DoExecute(cmdId, accepts, checkData, ignore) => CommandsAreAnswered(s, cmdId, accepts, checkData, ignore);
      ExpectsIs(s, cmdId, accepts, checkData);
    case _ =>
  }

  lemma ExpectsIs(s: State, cmdId: int, accepts: seq<int> -> bool, checkData: bool)
    requires Ok(s) && s.start <= |s.log|
    ensures Expects(s, cmdId, accepts, checkData)
            <==> s.waiting != [] && s.waiting[0].cmdId == cmdId && (!checkData || accepts(s.waiting[0].data))
  {
    hide Ok, Messages;
    ScriptIsWaited(s);
  }
}
