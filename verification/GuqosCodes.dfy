/**
 Over every run of a CNif the code that each client was told is the one that the
 conversation of its request explains.
*/
module GuqosCodes {
  import opened Wrappers
  import opened Sequences
  import opened PacketFilters
  import opened Tft
  import opened GuqosState
  import opened GuqosHeap
  import opened GuqosRequests
  import opened GuqosSteps
  import opened GuqosLoops
  import opened GuqosEvents
  import opened GuqosRuns
  import opened GuqosTheorems
  import opened GuqosStory

  // ---------- what leaves conversations alone ----------

  /** The conversation and what it depends on. */
  ghost predicate SameTalk(q: Request, p: Request) {
    && p.kind == q.kind && p.state == q.state && p.expected == q.expected && p.modified == q.modified
    && p.sblp == q.sblp && p.said == q.said && (q.kind == Delete || p.target == q.target)
  }

  ghost predicate Quietly(s: State, t: State) {
    && (Recorded(s) ==> Recorded(t))
    && s.upcalls <= t.upcalls
    && (forall r :: r in t.req && r in s.req ==> SameTalk(s.req[r], t.req[r]))
    && (t.current.Some? ==> t.current == s.current)
  }

  lemma QuietlySelf(s: State)
    ensures Quietly(s, s)
  {
  }

  lemma QuietlyThen(s: State, m: State, t: State)
    requires Quietly(s, m) && Quietly(m, t) && forall r :: r in t.req && r in s.req ==> r in m.req
    ensures Quietly(s, t)
  {
    hide Recorded;
  }

  /** More upcalls, none of them a completion. */
  lemma ToldMore(upcalls: seq<Upcall>, more: seq<Upcall>, log: seq<Done>)
    requires Told(upcalls, log) && forall i :: 0 <= i < |more| ==> !more[i].RequestComplete?
    ensures Told(upcalls + more, log)
  {
    forall i | 0 <= i < |upcalls + more| && (upcalls + more)[i].RequestComplete?
      ensures Logs(log, (upcalls + more)[i].request, (upcalls + more)[i].code)
    {
      assert i < |upcalls|;
    }
  }

  lemma {:induction false} AnnounceOnly(flows: seq<FlowRef>, blocked: bool)
    ensures forall i :: 0 <= i < |Announce(flows, blocked)| ==> !Announce(flows, blocked)[i].RequestComplete?
  {
    if flows != [] {
      AnnounceOnly(flows[..|flows| - 1], blocked);
    }
  }

  /** Contexts, flows and upcalls other than completions change. */
  lemma QuietlyBy(s: State, t: State, more: seq<Upcall>)
    requires t.upcalls == s.upcalls + more && forall i :: 0 <= i < |more| ==> !more[i].RequestComplete?
    requires t.log == s.log && t.req == s.req && (t.current.Some? ==> t.current == s.current)
    ensures Quietly(s, t)
  {
    hide Told;
    if Recorded(s) {
      ToldMore(s.upcalls, more, s.log);
    }
  }

  lemma TouchQuietly(s: State, c: ContextRef, x: Context)
    requires c in s.ctx
    ensures Quietly(s, Touch(s, c, x))
  {
    hide Announce, Quietly;
    AnnounceOnly(x.flows, FlowBlocked(x));
    QuietlyBy(s, Touch(s, c, x), if s.notifier && FlowBlocked(x) != FlowBlocked(s.ctx[c])
      then Announce(x.flows, FlowBlocked(x)) else []);
  }

  lemma EmitQuietly(s: State, more: seq<Upcall>)
    requires OnlyEvents(more)
    ensures Quietly(s, Emit(s, more))
  {
    hide Quietly;
    QuietlyBy(s, Emit(s, more), more);
  }

  lemma SetFlowContextQuietly(s: State, f: FlowRef, c: ContextRef)
    requires f in s.flows && s.flows[f].context.Some? && s.flows[f].context.value in s.ctx && c in s.ctx
    ensures Quietly(s, SetFlowContext(s, f, c))
  {
    hide Quietly, Without;
    QuietlySelf(s);
    QuietlyBy(s, SetFlowContext(s, f, c), if s.flows[f].context == Some(c) || !s.notifier then []
      else [Tell(f, FlowBlocked(s.ctx[c]))]);
    assert s.upcalls + [] == s.upcalls;
  }

  lemma MoveFlowsQuietly(s: State, c: ContextRef, d: ContextRef)
    requires c in s.ctx && d in s.ctx && c != d
    ensures Quietly(s, MoveFlows(s, c, d))
  {
    hide Quietly, Announce;
    AnnounceOnly(s.ctx[c].flows, FlowBlocked(s.ctx[d]));
    QuietlyBy(s, MoveFlows(s, c, d), if s.notifier then Announce(s.ctx[c].flows, FlowBlocked(s.ctx[d])) else []);
  }

  lemma AddRequestQuietly(s: State, q: Request)
    requires s.nextRequest !in s.req && Aimed(q)
    ensures Quietly(s, AddRequest(s, q))
  {
    hide Justified, Told;
  }

  // ---------- completions ----------

  lemma ToldDone(upcalls: seq<Upcall>, log: seq<Done>, d: Done)
    requires Told(upcalls, log)
    ensures Told(upcalls, log + [d])
    ensures d.kind != Close && d.kind != Delete ==>
              Told(upcalls + [RequestComplete(d.request, d.code)], log + [d])
  {
    var longer := log + [d];
    forall r, code | Logs(log, r, code) ensures Logs(longer, r, code) {
      var i :| 0 <= i < |log| && log[i].request == r && log[i].code == code && log[i].kind != Close
               && log[i].kind != Delete;
      assert longer[i] == log[i];
    }
    if d.kind != Close && d.kind != Delete {
      assert longer[|log|] == d;
      assert Logs(longer, d.request, d.code);
    }
  }

  /** What a request leaves behind when it completes. */
  function Leaving(s: State, r: RequestRef, code: Code): Done
    requires r in s.req
  {
    Done(r, s.req[r].kind, code, s.req[r].sblp, s.req[r].said)
  }

  lemma DestructQuietly(s: State, r: RequestRef, code: Code)
    requires r in s.req && Justified(Leaving(s, r, code))
    ensures Quietly(s, Destruct(s, r, code))
  {
    hide Told, Justified, Without;
    DestructShape(s, r, code);
    if Recorded(s) {
      ToldDone(s.upcalls, s.log, Leaving(s, r, code));
    }
  }

  /** The requests that a deletion of `c` cancels have said nothing that spoils their code. */
  ghost predicate Cancellable(s: State, c: ContextRef) {
    forall r :: r in s.req && Targets(s.req[r], c) ==> Unspoiled(s.req[r].said)
  }

  lemma DiedJustified(s: State, r: RequestRef)
    requires r in s.req && Unspoiled(s.req[r].said)
    ensures Justified(Leaving(s, r, FailureCode(s.req[r].kind, KErrDied)))
  {
  }

  lemma {:induction false} CancelPendingQuietly(s: State, c: ContextRef)
    requires (forall x :: x in s.pending ==> x in s.req) && Cancellable(s, c)
    ensures Quietly(s, CancelPending(s, c))
    ensures CancelPending(s, c).req.Keys <= s.req.Keys
    decreases |s.pending|
  {
    hide Justified, Quietly, Targets, Unspoiled, Destruct;
    QuietlySelf(s);
    var first := FirstTarget(s.pending, s.req, c);
    if first.Some? {
      var r := first.value;
      var code := FailureCode(s.req[r].kind, KErrDied);
      DiedJustified(s, r);
      DestructQuietly(s, r, code);
      DestructShape(s, r, code);
      var m := Destruct(s, r, code);
      CancelPendingQuietly(m, c);
      QuietlyThen(s, m, CancelPending(m, c));
    }
  }

  lemma DropContextQuietly(s: State, c: ContextRef)
    requires (forall x :: x in s.pending ==> x in s.req) && Cancellable(s, c)
    ensures Quietly(s, DropContext(s, c)) && DropContext(s, c).req.Keys <= s.req.Keys
  {
    hide Quietly, CancelPending, Targets, Unspoiled;
    var m := s.(contexts := Without(s.contexts, c));
    QuietlyBy(s, m, []);
    CancelPendingQuietly(m, c);
    QuietlyThen(s, m, CancelPending(m, c));
    var t := DropContext(s, c);
    QuietlyBy(CancelPending(m, c), t, []);
    QuietlyThen(s, CancelPending(m, c), t);
  }

  lemma ReelectQuietly(s: State, c: ContextRef)
    requires (forall x :: x in s.contexts ==> x in s.ctx) && (forall r :: r in s.req ==> r < s.nextRequest)
    ensures Quietly(s, Reelect(s, c)) && s.req.Keys <= Reelect(s, c).req.Keys
    ensures forall r :: r in Reelect(s, c).req && r !in s.req ==> Reelect(s, c).req[r].said == []
    ensures forall r :: r in s.req ==> Reelect(s, c).req[r] == s.req[r]
    ensures forall r :: r in Reelect(s, c).pending ==> r in s.pending || r in Reelect(s, c).req
  {
    hide Quietly, BestContext;
    QuietlySelf(s);
    var best := BestContext(s.contexts, s.ctx, s.primary);
    if c == s.primary && best.Some? {
      var m := s.(primary := best.value);
      QuietlyBy(s, m, []);
      AddRequestQuietly(m, FreshRequest(Close, None, best, 0, false));
      QuietlyThen(s, m, Reelect(s, c));
    }
  }

  lemma DeleteQuietly(s: State, c: ContextRef)
    requires Ok(s) && c in s.ctx && s.primary in s.ctx && Cancellable(s, c)
    requires forall x :: x in s.contexts ==> x in s.ctx
    requires forall x :: x in s.pending ==> x in s.req
    ensures Quietly(s, DeletePdpContext(s, c))
  {
    hide Ok, Quietly, Reelect, DropContext, Touch, Unspoiled, MoveFlows, Targets;
    OkAt(s, c);
    ReelectOk(s, c);
    ReelectQuietly(s, c);
    var m := Reelect(s, c);
    if m.primary == c {
      TouchQuietly(m, c, m.ctx[c].(blocked := true));
      BlockQueue(m, c);
      QuietlyThen(s, m, Block(m, c));
    } else {
      EvacuateOk(s, c) by {
        OkAt(s, c);
      }
      MoveFlowsQuietly(m, c, m.primary);
      MoveQueue(m, c, m.primary);
      var n := Evacuate(s, c);
      QuietlyThen(s, m, n);
      DropContextQuietly(n, c);
      QuietlyThen(s, n, DropContext(n, c));
    }
  }

  lemma BlockQueue(s: State, c: ContextRef)
    requires c in s.ctx
    ensures Block(s, c).req == s.req && Block(s, c).pending == s.pending
  {
  }

  lemma MoveQueue(s: State, c: ContextRef, d: ContextRef)
    requires c in s.ctx && d in s.ctx && c != d
    ensures MoveFlows(s, c, d).req == s.req && MoveFlows(s, c, d).pending == s.pending
  {
  }

  // ---------- the request being served ----------

  /** Between two actions: every call so far has had its answer. */
  ghost predicate Talking(q: Request) {
    q.context.Some? && Paired(q.said) && Sofar(q.kind, q.state, q.modified, q.sblp, Matters(q.said))
  }

  /** Between two events: the last call waits for its answer. */
  ghost predicate Pausing(q: Request) {
    && q.said != [] && q.modified
    && var n := |q.said| - 1;
       && q.said[n].Called? && AnswerTo(q.said[n].op, q.expected) && Paired(q.said[..n])
       && Sofar(q.kind, q.state + 1, true, q.sblp, Matters(q.said[..n]) + [About(q.said[n].op)])
  }

  /** What an operation on the request being served does to what is known. */
  ghost predicate Speaks(s: State, t: State) {
    && (Recorded(s) ==> Recorded(t))
    && s.upcalls <= t.upcalls
    && (t.current.Some? && t.current.value in t.req ==> Pausing(t.req[t.current.value]))
  }

  lemma SpeaksThen(s: State, m: State, t: State)
    requires (Recorded(s) ==> Recorded(m)) && s.upcalls <= m.upcalls && Speaks(m, t)
    ensures Speaks(s, t)
  {
    hide Recorded, Pausing;
  }

  /** Only the request being served has said anything. */
  lemma OthersSilent(s: State)
    requires Ok(s)
    ensures forall x :: x in s.req && s.current != Some(x) ==> s.req[x].said == []
  {
    hide Linked, Mirrored, ExactlyOnce, DistinctIds, NoDup, NoDangling;
  }

  lemma AnswerLast(said: seq<Exchange>, op: Control, reply: Expected)
    requires Paired(said) && AnswerTo(op, reply)
    ensures var more := said + [Called(op)] + [Answered(reply)];
            Paired(more) && Matters(more) == Matters(said) + [About(op)]
  {
    var more := said + [Called(op)] + [Answered(reply)];
    assert more[..|more| - 2] == said;
  }

  lemma PairedUnspoiled(said: seq<Exchange>)
    requires Paired(said)
    ensures Unspoiled(said)
  {
  }

  lemma CancellableBut(s: State, r: RequestRef, c: ContextRef)
    requires Ok(s) && s.current == Some(r) && r in s.req
    requires !Targets(s.req[r], c) || Unspoiled(s.req[r].said)
    ensures Cancellable(s, c)
  {
    hide Ok, Targets;
    OthersSilent(s);
  }

  lemma SetRequestQuietly(s: State, r: RequestRef, q: Request)
    requires r in s.req && SameTalk(s.req[r], q)
    ensures Quietly(s, SetRequest(s, r, q))
  {
    hide Told, Justified;
  }

  lemma ControlQuietly(s: State, c: ContextRef)
    requires c in s.ctx
    ensures Quietly(s, DeleteOnNetwork(s, c))
  {
    hide Quietly;
    QuietlySelf(s);
    QuietlyBy(s, DeleteOnNetwork(s, c), []);
  }

  lemma AbandonQuietly(s: State, r: RequestRef, c: ContextRef)
    requires Ok(s) && s.current == Some(r) && r in s.req && c in s.ctx && s.req[r].kind == Open
    ensures Quietly(s, AbandonContext(s, r, c)) && r in AbandonContext(s, r, c).req
  {
    hide Ok, Quietly, DeletePdpContext, DeleteOnNetwork;
    AbandonReady(s, r, c);
    AbandonedOk(s, r, c);
    var q := s.req[r].(newContext := None);
    var m := SetRequest(s, r, q);
    SetRequestQuietly(s, r, q);
    ControlQuietly(m, c);
    var told := DeleteOnNetwork(m, c);
    ToldQueue(m, c);
    QuietlyThen(s, m, told);
    CancellableBut(told, r, c);
    DeleteQuietly(told, c);
    DeletedQueue(told, c);
    QuietlyThen(s, told, AbandonContext(s, r, c));
  }

  lemma ToldQueue(s: State, c: ContextRef)
    requires c in s.ctx
    ensures DeleteOnNetwork(s, c).req == s.req && DeleteOnNetwork(s, c).current == s.current
    ensures DeleteOnNetwork(s, c).upcalls == s.upcalls && DeleteOnNetwork(s, c).log == s.log
  {
  }

  /** A deletion forgets requests and may add one of its own, with a number never used before. */
  lemma DeletedQueue(s: State, c: ContextRef)
    requires Ok(s) && c in s.ctx && s.primary in s.ctx
    requires forall x :: x in s.contexts ==> x in s.ctx
    requires forall x :: x in s.pending ==> x in s.req
    ensures DeletePdpContext(s, c).current.Some? ==> DeletePdpContext(s, c).current == s.current
  {
    hide Ok;
    DeletePdpContextOk(s, c);
  }

  lemma FailQuietly(s: State, r: RequestRef, c: Option<ContextRef>, reason: int)
    requires Ok(s) && s.current == Some(r) && r in s.req && (c.Some? ==> c.value in s.ctx)
    requires Justified(Leaving(s, r, Blamed(s.req[r].kind, reason)))
    ensures Quietly(s, Fail(s, r, c, reason)) && Fail(s, r, c, reason).current.None?
  {
    hide Ok, Quietly, Justified, AbandonContext, Destruct;
    FailOk(s, r, c, reason);
    var q := s.req[r];
    if q.kind == Open && c.Some? && q.newContext == c {
      AbandonQuietly(s, r, c.value);
      var m := AbandonContext(s, r, c.value);
      SameLeaving(s, m, r, Err(reason));
      DestructQuietly(m, r, Err(reason));
      DestructShape(m, r, Err(reason));
      QuietlyThen(s, m, Destruct(m, r, Err(reason)));
    } else {
      DestructQuietly(s, r, FailureCode(q.kind, reason));
    }
  }

  lemma SameLeaving(s: State, m: State, r: RequestRef, code: Code)
    requires Quietly(s, m) && r in s.req && r in m.req
    ensures Leaving(m, r, code) == Leaving(s, r, code)
  {
    hide Recorded;
  }

  lemma RecordedHeard(s: State, r: RequestRef, q: Request)
    requires r in s.req && Aimed(q)
    ensures Recorded(s) ==> Recorded(SetRequest(s, r, q))
  {
    hide Told, Justified;
  }

  /** The code of a refused call is the refusal. */
  lemma DeniedJustified(kind: Kind, sblp: bool, r: RequestRef, said: seq<Exchange>, op: Control, code: int)
    requires Paired(said) && code < 0
    ensures Justified(Done(r, kind, Blamed(kind, code), sblp, said + [Called(op)] + [Denied(op, code)]))
  {
    var more := said + [Called(op)] + [Denied(op, code)];
    assert more[..|more| - 2] == said;
  }

  lemma AskSpeaks(s: State, nif: Network, r: RequestRef, op: Control, expected: Expected,
                  onFailure: Option<ContextRef>)
    requires Ok(s) && s.current == Some(r) && r in s.req && (onFailure.Some? ==> onFailure.value in s.ctx)
    requires Paired(s.req[r].said) && AnswerTo(op, expected) && Aimed(s.req[r])
    requires Sofar(s.req[r].kind, s.req[r].state + 1, true, s.req[r].sblp, Matters(s.req[r].said) + [About(op)])
    ensures Speaks(s, Ask(s, nif, r, op, expected, onFailure))
  {
    hide Ok, Fail, Sofar, Recorded, Quietly, Justified, Paired, Matters, Speaks, Asked;
    AskedOk(s, r, op, expected);
    var asked := Asked(s, r, op, expected);
    AskedRecorded(s, r, op, expected);
    if nif(asked.controls) < 0 {
      DenialSpeaks(s, nif, r, op, expected, onFailure);
      SpeaksThen(s, asked, Ask(s, nif, r, op, expected, onFailure));
    } else {
      AskedPausing(s, r, op, expected);
    }
  }

  lemma AskedRecorded(s: State, r: RequestRef, op: Control, expected: Expected)
    requires r in s.req && Aimed(s.req[r])
    ensures Recorded(s) ==> Recorded(Asked(s, r, op, expected))
    ensures s.upcalls <= Asked(s, r, op, expected).upcalls && Asked(s, r, op, expected).current == s.current
    ensures r in Asked(s, r, op, expected).req
  {
    hide Recorded;
    var q := Asked(s, r, op, expected).req[r];
    RecordedHeard(s, r, q);
    RecordedControl(SetRequest(s, r, q), op);
  }

  /** The call has been taken. */
  lemma AskedPausing(s: State, r: RequestRef, op: Control, expected: Expected)
    requires r in s.req && Paired(s.req[r].said) && AnswerTo(op, expected) && s.current == Some(r) && Aimed(s.req[r])
    requires Sofar(s.req[r].kind, s.req[r].state + 1, true, s.req[r].sblp, Matters(s.req[r].said) + [About(op)])
    ensures Speaks(s, Asked(s, r, op, expected))
  {
    hide Sofar, Recorded, Paired, Matters;
    AskedRecorded(s, r, op, expected);
    var said := s.req[r].said;
    assert Asked(s, r, op, expected).req[r].said[..|said|] == said;
  }

  /** The call has been refused. */
  lemma DenialSpeaks(s: State, nif: Network, r: RequestRef, op: Control, expected: Expected,
                     onFailure: Option<ContextRef>)
    requires Ok(s) && s.current == Some(r) && r in s.req && (onFailure.Some? ==> onFailure.value in s.ctx)
    requires Paired(s.req[r].said) && Aimed(s.req[r]) && nif(Asked(s, r, op, expected).controls) < 0
    ensures Speaks(Asked(s, r, op, expected), Ask(s, nif, r, op, expected, onFailure))
  {
    hide Ok, Fail, Recorded, Quietly, Justified, Paired, Speaks;
    AskedOk(s, r, op, expected);
    var asked := Asked(s, r, op, expected);
    var code := nif(asked.controls);
    var denied := Denied(op, code);
    HeardOk(asked, r, denied);
    var heard := Heard(asked, r, denied);
    RecordedHeard(asked, r, heard.req[r]);
    DeniedJustified(s.req[r].kind, s.req[r].sblp, r, s.req[r].said, op, code);
    FailQuietly(heard, r, onFailure, code);
    QuietlySpeaks(heard, Fail(heard, r, onFailure, code));
    SpeaksThen(asked, heard, Fail(heard, r, onFailure, code));
  }

  lemma QuietlySpeaks(s: State, t: State)
    requires Quietly(s, t) && t.current.None?
    ensures Speaks(s, t)
  {
    hide Recorded;
  }

  lemma RecordedControl(s: State, op: Control)
    ensures Recorded(s) ==> Recorded(SendControl(s, op))
  {
    hide Told, Justified;
  }

  // ---------- actions ----------

  /** After an action that lets the next one run, the conversation has come as far as that one. */
  ghost predicate GoesOn(s: State, t: State, r: RequestRef) {
    && (Recorded(s) ==> Recorded(t)) && s.upcalls <= t.upcalls
    && t.current == Some(r) && r in t.req && Talking(t.req[r].(state := t.req[r].state + 1)) && Aimed(t.req[r])
  }

  ghost predicate Acted(s: State, t: State, done: bool, r: RequestRef) {
    if done then Speaks(s, t) else GoesOn(s, t, r)
  }

  /** The action passes: nothing but the place in the table changes. */
  lemma Passes(s: State, t: State, r: RequestRef)
    requires r in s.req && r in t.req && Talking(s.req[r]) && Aimed(s.req[r]) && SameTalk(s.req[r], t.req[r])
    requires t.req[r].context.Some? && t.current == Some(r)
    requires s.req[r].state + 1 < |Table(s.req[r].kind)|
    requires MaySkip(Table(s.req[r].kind)[s.req[r].state], s.req[r].modified, s.req[r].sblp)
    requires Quietly(s, t) && s.req[r].kind != Delete
    ensures GoesOn(s, t, r)
  {
    hide Sofar, Recorded, Table, MaySkip, Paired;
    var q := s.req[r];
    SkipsOn(q.kind, q.state, q.modified, q.sblp, Matters(q.said));
  }

  /** The action asks. */
  lemma Asks(s: State, m: State, nif: Network, r: RequestRef, op: Control, expected: Expected,
             onFailure: Option<ContextRef>)
    requires r in s.req && Talking(s.req[r]) && Aimed(s.req[r]) && Quietly(s, m)
    requires Ok(m) && m.current == Some(r) && r in m.req && (onFailure.Some? ==> onFailure.value in m.ctx)
    requires s.req[r].state + 1 < |Table(s.req[r].kind)| && SameTalk(s.req[r], m.req[r]) && s.req[r].kind != Delete
    requires var action := Table(s.req[r].kind)[s.req[r].state];
             Topic(action) == About(op) != Nothing && (action == AddSblpParameter ==> s.req[r].sblp)
    requires AnswerTo(op, expected)
    ensures Speaks(s, Ask(m, nif, r, op, expected, onFailure))
  {
    hide Ok, Sofar, Recorded, Table, Ask, Paired;
    var q := s.req[r];
    AsksOn(q.kind, q.state, q.modified, q.sblp, Matters(q.said));
    AskSpeaks(m, nif, r, op, expected, onFailure);
    SpeaksThen(s, m, Ask(m, nif, r, op, expected, onFailure));
  }

  lemma RehomeQuietly(s: State, r: RequestRef, c: ContextRef)
    requires Ok(s) && r in s.req && c in s.ctx
    ensures Quietly(s, Rehome(s, r, c)) && Rehome(s, r, c).req == s.req
  {
    hide Ok, Quietly, SetFlowContext;
    QuietlySelf(s);
    RehomeOk(s, r, c);
    if s.req[r].flow.Some? {
      RequestParts(s, r);
      AttachedFlow(s, s.req[r].flow.value);
      SetFlowContextQuietly(s, s.req[r].flow.value, c);
    }
  }

  lemma SpeaksRemoval(s: State, nif: Network, r: RequestRef)
    requires Ok(s) && Acting(s, r) && Table(s.req[r].kind)[s.req[r].state] == RemovePacketFilter
    requires Talking(s.req[r]) && Aimed(s.req[r])
    ensures var (t, done) := ActRemovePacketFilter(s, nif, r); Acted(s, t, done, r)
  {
    hide Ok, Ask, Rehome, UnneededFilters, Quietly, Sofar, Speaks, GoesOn, Paired;
    NotLast(s.req[r].kind, s.req[r].state);
    var c := s.req[r].context.value;
    DeleteReady(s);
    RehomeOk(s, r, s.primary);
    RehomeQuietly(s, r, s.primary);
    var m := Rehome(s, r, s.primary);
    var unneeded := UnneededFilters(m, c, s.req[r].flow);
    Asks(s, m, nif, r, ModifyTft(m.ctx[c].contextId, RemoveFilters, unneeded), PendingPacketFilterRemove, Some(c));
    Passes(s, m, r);
  }

  lemma SpeaksAddition(s: State, nif: Network, r: RequestRef)
    requires Ok(s) && Acting(s, r) && Table(s.req[r].kind)[s.req[r].state] == AddPacketFilter
    requires Talking(s.req[r]) && Aimed(s.req[r])
    ensures var (t, done) := ActAddPacketFilter(s, nif, r); Acted(s, t, done, r)
  {
    hide Ok, Ask, Fail, LastMatch, FreeId, Reserved, Quietly, Sofar, Speaks, GoesOn, Paired;
    NotLast(s.req[r].kind, s.req[r].state);
    AddsHere(s.req[r]);
    QuietlySelf(s);
    Passes(s, s, r);
    if s.req[r].flow.Some? {
      RequestParts(s, r);
      var c, f := s.req[r].context.value, s.req[r].flow.value;
      var filters := s.ctx[c].filters;
      if FreeId(filters) < 0 {
        OverflowJustified(s, r, c);
        FailQuietly(s, r, Some(c), FreeId(filters));
        QuietlySpeaks(s, Fail(s, r, Some(c), FreeId(filters)));
      } else {
        ReservedOk(s, r, c, f);
        ReservedQuietly(s, r, c, f);
        var m := Reserved(s, r, c, f);
        Asks(s, m, nif, r, ModifyTft(s.ctx[c].contextId, AddFilters, [m.flows[f].filter]), PendingPacketFilterAdd,
             Some(c));
      }
    }
  }

  lemma ReservedQuietly(s: State, r: RequestRef, c: ContextRef, f: FlowRef)
    requires r in s.req && c in s.ctx && f in s.flows
    ensures Quietly(s, Reserved(s, r, c, f)) && SameTalk(s.req[r], Reserved(s, r, c, f).req[r])
  {
    hide FreePrecedence, FreeId, Reserve, Told, Justified;
  }

  lemma OverflowJustified(s: State, r: RequestRef, c: ContextRef)
    requires r in s.req && Talking(s.req[r]) && c in s.ctx && FreeId(s.ctx[c].filters) < 0
    requires s.req[r].kind == Open || s.req[r].kind == Join
    ensures Justified(Leaving(s, r, Blamed(s.req[r].kind, FreeId(s.ctx[c].filters))))
  {
    hide Sofar;
    PairedUnspoiled(s.req[r].said);
  }

  lemma SpeaksCommitment(s: State, nif: Network, r: RequestRef)
    requires Ok(s) && Acting(s, r) && Table(s.req[r].kind)[s.req[r].state] == Commit
    requires Talking(s.req[r]) && Aimed(s.req[r])
    ensures var (t, done) := ActCommit(s, nif, r); Acted(s, t, done, r)
  {
    hide Ok, Ask, Quietly, Sofar, Speaks, GoesOn, Paired;
    NotLast(s.req[r].kind, s.req[r].state);
    QuietlySelf(s);
    var c := s.req[r].context.value;
    var id := s.ctx[c].contextId;
    if s.ctx[c].status != StatusActive {
      Asks(s, s, nif, r, Activate(id), PendingActivate, Some(c));
    } else if s.req[r].modified {
      Asks(s, s, nif, r, ModifyActive(id), PendingModifyActive, Some(c));
    } else {
      Passes(s, s, r);
    }
  }

  lemma SpeaksSmall(s: State, nif: Network, r: RequestRef)
    requires Ok(s) && Acting(s, r) && Talking(s.req[r]) && Aimed(s.req[r])
    ensures Table(s.req[r].kind)[s.req[r].state] == NewContext ==>
              Speaks(s, Ask(s, nif, r, CreateSecondary, PendingCreate, None))
    ensures Table(s.req[r].kind)[s.req[r].state] == AddSblpParameter ==>
              var (t, done) := ActAddSblpParameter(s, nif, r); Acted(s, t, done, r)
    ensures Table(s.req[r].kind)[s.req[r].state] == SetQoS ==>
              var (t, done) := ActSetQoS(s, nif, r); Acted(s, t, done, r)
  {
    hide Ok, Ask, Quietly, Sofar, Speaks, GoesOn, Paired, Table;
    ServedKind(s, r);
    NotLast(s.req[r].kind, s.req[r].state);
    QuietlySelf(s);
    var c := s.req[r].context.value;
    var id := s.ctx[c].contextId;
    if Table(s.req[r].kind)[s.req[r].state] == NewContext {
      Asks(s, s, nif, r, CreateSecondary, PendingCreate, None);
    } else if Table(s.req[r].kind)[s.req[r].state] == SetQoS {
      Asks(s, s, nif, r, RequestQoS(id), PendingSetQoS, Some(c));
    } else if Table(s.req[r].kind)[s.req[r].state] == AddSblpParameter {
      if s.req[r].sblp {
        Asks(s, s, nif, r, ModifyTft(id, AddSblp, []), PendingSblpParameterAdd, Some(c));
      } else {
        Passes(s, s, r);
      }
    }
  }

  lemma SpeaksRemembering(s: State, r: RequestRef)
    requires Ok(s) && Acting(s, r) && Table(s.req[r].kind)[s.req[r].state] == RememberCreatedContext
    requires Talking(s.req[r]) && Aimed(s.req[r])
    ensures GoesOn(s, ActRememberCreatedContext(s, r).0, r) && !ActRememberCreatedContext(s, r).1
  {
    hide Ok, Quietly, Sofar, GoesOn, Paired, Recorded;
    NotLast(s.req[r].kind, s.req[r].state);
    var q := s.req[r].(newContext := s.req[r].context);
    SetRequestQuietly(s, r, q);
    var m := SetRequest(s, r, q);
    var t := ActRememberCreatedContext(s, r).0;
    QuietlyBy(m, t, []);
    QuietlyThen(s, m, t);
    Passes(s, t, r);
  }

  lemma SpeaksJoining(s: State, r: RequestRef)
    requires Ok(s) && Acting(s, r) && Table(s.req[r].kind)[s.req[r].state] == AddFlowToContext
    requires Talking(s.req[r]) && Aimed(s.req[r])
    ensures GoesOn(s, ActAddFlowToContext(s, r).0, r) && !ActAddFlowToContext(s, r).1
  {
    hide Ok, Quietly, Sofar, GoesOn, Paired, Recorded, Rehome;
    NotLast(s.req[r].kind, s.req[r].state);
    RehomeOk(s, r, s.req[r].context.value);
    RehomeQuietly(s, r, s.req[r].context.value);
    var m := Rehome(s, r, s.req[r].context.value);
    var q := s.req[r].(flow := None);
    SetRequestQuietly(m, r, q);
    QuietlyThen(s, m, SetRequest(m, r, q));
    Passes(s, SetRequest(m, r, q), r);
  }

  lemma FulfilledJustified(s: State, r: RequestRef)
    requires r in s.req && Talking(s.req[r]) && s.req[r].state == |Table(s.req[r].kind)| - 1
    requires s.req[r].kind != Delete
    ensures Justified(Leaving(s, r, Err(KErrNone)))
  {
    hide Sofar, Whole;
    var q := s.req[r];
    WholeAtEnd(q.kind, q.modified, q.sblp, Matters(q.said));
    PairedUnspoiled(q.said);
  }

  lemma SpeaksCompletion(s: State, m: State, r: RequestRef)
    requires r in s.req && Talking(s.req[r]) && s.req[r].state == |Table(s.req[r].kind)| - 1 && s.req[r].kind != Delete
    requires Quietly(s, m) && m.current == Some(r) && r in m.req && SameTalk(s.req[r], m.req[r])
    ensures Speaks(s, Destruct(m, r, Err(KErrNone)))
  {
    hide Quietly, Justified, Talking, Recorded;
    FulfilledJustified(s, r);
    SameLeaving(s, m, r, Err(KErrNone));
    DestructQuietly(m, r, Err(KErrNone));
    DestructShape(m, r, Err(KErrNone));
    QuietlyThen(s, m, Destruct(m, r, Err(KErrNone)));
    QuietlySpeaks(s, Destruct(m, r, Err(KErrNone)));
  }

  /** StartWithTargetContext: a Join goes on with the context it wants to join. */
  lemma SpeaksTarget(s: State, r: RequestRef)
    requires Ok(s) && Acting(s, r) && Table(s.req[r].kind)[s.req[r].state] == StartWithTargetContext
    requires Talking(s.req[r]) && Aimed(s.req[r])
    ensures GoesOn(s, SetRequest(s, r, WithContext(s.req[r], s.req[r].target)), r)
  {
    hide Recorded, Paired, Ok, Table, Sofar, Matters;
    var q := s.req[r];
    var p := WithContext(q, q.target);
    OnlyJoinStarts(q.kind, q.state);
    SkipsOn(q.kind, q.state, q.modified, q.sblp, Matters(q.said));
    TargetSofar(q.modified, p.modified, q.sblp, Matters(q.said));
    RecordedHeard(s, r, p);
  }

  /** At its channel a Join has changed nothing yet. */
  lemma TargetSofar(a: bool, b: bool, sblp: bool, calls: seq<Matter>)
    requires Sofar(Join, 3, a, sblp, calls)
    ensures Sofar(Join, 3, b, sblp, calls)
  {
    hide Clearing;
  }

  lemma OnlyJoinStarts(kind: Kind, i: nat)
    requires i < |Table(kind)| && Table(kind)[i] == StartWithTargetContext
    ensures kind == Join && i == 2 && i + 1 < |Table(kind)|
  {
  }

  lemma ActSpeaks(s: State, nif: Network, r: RequestRef)
    requires Ok(s) && Acting(s, r) && Talking(s.req[r]) && Aimed(s.req[r])
    ensures var (t, done) := Act(s, nif, r); Acted(s, t, done, r)
  {
    hide Ok, Ask, Rehome, Destruct, Table, Acting, Talking, GoesOn, Speaks, ActCommit,
      ActRemovePacketFilter, ActRememberCreatedContext, ActAddPacketFilter, ActAddFlowToContext;
    ServedKind(s, r);
    NotLast(s.req[r].kind, s.req[r].state);
    QuietlySelf(s);
    match Table(s.req[r].kind)[s.req[r].state]
    case RemovePacketFilter => SpeaksRemoval(s, nif, r);
    case Commit => SpeaksCommitment(s, nif, r);
    case NewContext => SpeaksSmall(s, nif, r);
    case RememberCreatedContext => SpeaksRemembering(s, r);
    case AddPacketFilter => SpeaksAddition(s, nif, r);
    case AddSblpParameter => SpeaksSmall(s, nif, r);
    case SetQoS => SpeaksSmall(s, nif, r);
    case AddFlowToContext => SpeaksJoining(s, r);
    case NegotiationComplete =>
      RehomeOk(s, r, s.req[r].context.value);
      RehomeQuietly(s, r, s.req[r].context.value);
      SpeaksCompletion(s, Rehome(s, r, s.req[r].context.value), r);
    case StartWithTargetContext => SpeaksTarget(s, r);
    case CompleteRequest => SpeaksCompletion(s, s, r);
  }

  lemma ServedKind(s: State, r: RequestRef)
    requires Acting(s, r) && Talking(s.req[r])
    ensures s.current == Some(r) && r in s.req && s.req[r].kind != Delete && s.req[r].context.Some?
            && s.req[r].context.value in s.ctx && s.req[r].state < |Table(s.req[r].kind)|
  {
  }

  // ---------- loops ----------

  lemma {:induction false} RunActionsSpeaks(s: State, nif: Network, r: RequestRef)
    requires Ok(s) && Acting(s, r) && Talking(s.req[r]) && Aimed(s.req[r])
    ensures Speaks(s, RunActions(s, nif, r))
    decreases |Table(s.req[r].kind)| - s.req[r].state
  {
    hide Ok, Act, Table, Talking, Speaks, Acting;
    ServedKind(s, r);
    ActSpeaks(s, nif, r);
    ActContinues(s, nif, r);
    var (t, done) := Act(s, nif, r);
    if !done {
      var next := Advance(t, r);
      RunActionsSpeaks(next, nif, r);
      RecordedHeard(t, r, next.req[r]);
      SpeaksThen(s, next, RunActions(next, nif, r));
    }
  }

  /** A wrong reply, or one with an error, is what the conversation ends with. */
  lemma EndJustified(q: Request, r: RequestRef, reply: Expected, reason: int)
    requires Pausing(q)
    ensures q.expected != reply ==>
              Justified(Done(r, q.kind, Err(KErrCancel), q.sblp, q.said + [Strange(reply)]))
    ensures q.expected == reply && reason != KErrNone ==>
              Justified(Done(r, q.kind, Blamed(q.kind, reason), q.sblp, q.said + [Failed(reply, reason)]))
    ensures reason != KErrNone ==>
              Justified(Done(r, q.kind, Err(reason), q.sblp, q.said + [Failed(PendingCreate, reason)]))
    ensures q.expected != PendingAny
  {
    hide Sofar;
    var n := |q.said| - 1;
    assert (q.said + [Strange(reply)])[..n] == q.said[..n];
    assert (q.said + [Failed(reply, reason)])[..n] == q.said[..n];
    assert (q.said + [Failed(PendingCreate, reason)])[..n] == q.said[..n];
  }

  lemma ResumedTalking(q: Request, c: ContextRef)
    requires Pausing(q)
    ensures Talking(q.(context := Some(c), expected := PendingAny, state := q.state + 1,
                       said := q.said + [Answered(q.expected)]))
  {
    hide Sofar;
    var n := |q.said| - 1;
    assert q.said == q.said[..n] + [Called(q.said[n].op)];
    AnswerLast(q.said[..n], q.said[n].op, q.expected);
  }

  lemma RunSpeaks(s: State, nif: Network, r: RequestRef, reply: Expected, c: ContextRef, reason: int)
    requires Ok(s) && s.current == Some(r) && r in s.req && Waiting(s.req[r]) && c in s.ctx
    requires Pausing(s.req[r]) && Aimed(s.req[r])
    ensures Speaks(s, Run(s, nif, r, reply, c, reason))
  {
    hide Ok, Waiting, RunActions, Fail, Destruct, Pausing, Talking, Speaks, Recorded, Quietly, Justified, Table, Heard,
      Resumed;
    RunReady(s, r, c, reply);
    EndJustified(s.req[r], r, reply, reason);
    if s.req[r].expected != reply {
      StrangeSpeaks(s, r, reply, c);
    } else if reason == KErrNone {
      AnswerSpeaks(s, nif, r, c);
    } else {
      FailureSpeaks(s, r, reply, c, reason);
    }
  }

  lemma StrangeSpeaks(s: State, r: RequestRef, reply: Expected, c: ContextRef)
    requires Ok(s) && s.current == Some(r) && r in s.req && c in s.ctx && Aimed(s.req[r])
    requires var q := s.req[r]; Justified(Done(r, q.kind, Err(KErrCancel), q.sblp, q.said + [Strange(reply)]))
    ensures var h := Heard(SetRequest(s, r, s.req[r].(context := Some(c))), r, Strange(reply));
            Speaks(s, Destruct(h, r, Err(KErrCancel)))
  {
    hide Ok, Destruct, Speaks, Recorded, Quietly, Justified;
    var m := SetRequest(s, r, s.req[r].(context := Some(c)));
    var h := Heard(m, r, Strange(reply));
    RecordedHeard(s, r, h.req[r]);
    RecordedBoth(s, r, m.req[r], h.req[r]);
    DestructQuietly(h, r, Err(KErrCancel));
    DestructShape(h, r, Err(KErrCancel));
    QuietlySpeaks(h, Destruct(h, r, Err(KErrCancel)));
    SpeaksThen(s, h, Destruct(h, r, Err(KErrCancel)));
  }

  lemma AnswerSpeaks(s: State, nif: Network, r: RequestRef, c: ContextRef)
    requires Ok(s) && s.current == Some(r) && r in s.req && c in s.ctx && Pausing(s.req[r]) && Aimed(s.req[r])
    requires var n := Resumed(s, r, c, s.req[r].expected); Ok(n) && Acting(n, r)
    ensures Speaks(s, RunActions(Resumed(s, r, c, s.req[r].expected), nif, r))
  {
    hide Ok, RunActions, Pausing, Talking, Speaks, Recorded, Table;
    ResumedTalking(s.req[r], c);
    var n := Resumed(s, r, c, s.req[r].expected);
    RecordedHeard(s, r, n.req[r]);
    RunActionsSpeaks(n, nif, r);
    SpeaksThen(s, n, RunActions(n, nif, r));
  }

  lemma FailureSpeaks(s: State, r: RequestRef, reply: Expected, c: ContextRef, reason: int)
    requires Ok(s) && s.current == Some(r) && r in s.req && c in s.ctx && Aimed(s.req[r])
    requires Ok(SetRequest(s, r, s.req[r].(context := Some(c))))
    requires var q := s.req[r];
             Justified(Done(r, q.kind, Blamed(q.kind, reason), q.sblp, q.said + [Failed(reply, reason)]))
    ensures var h := Heard(SetRequest(s, r, s.req[r].(context := Some(c))), r, Failed(reply, reason));
            Ok(h) && c in h.ctx && Speaks(s, Fail(h, r, Some(c), reason))
  {
    hide Ok, Fail, Speaks, Recorded, Quietly, Justified;
    var m := SetRequest(s, r, s.req[r].(context := Some(c)));
    HeardOk(m, r, Failed(reply, reason));
    var h := Heard(m, r, Failed(reply, reason));
    RecordedHeard(s, r, h.req[r]);
    RecordedBoth(s, r, m.req[r], h.req[r]);
    FailQuietly(h, r, Some(c), reason);
    QuietlySpeaks(h, Fail(h, r, Some(c), reason));
    SpeaksThen(s, h, Fail(h, r, Some(c), reason));
  }

  lemma RecordedBoth(s: State, r: RequestRef, q: Request, p: Request)
    requires r in s.req
    ensures SetRequest(SetRequest(s, r, q), r, p) == SetRequest(s, r, p)
  {
    assert s.req[r := q][r := p] == s.req[r := p];
  }

  lemma BegunTalking(s: State, r: RequestRef)
    requires Ok(s) && r in s.req && Idle(s.req[r]) && s.req[r].kind != Delete && !Moot(s, s.req[r])
    requires Aimed(s.req[r])
    ensures Talking(Begun(s, r)) && Aimed(Begun(s, r))
  {
    hide Ok;
    RequestParts(s, r);
    if s.req[r].flow.Some? {
      AttachedFlow(s, s.req[r].flow.value);
    }
    var none: seq<Matter> := [];
    assert none[..0] == [];
    assert Made(none);
  }

  lemma NothingJustified(s: State, r: RequestRef)
    requires r in s.req && s.req[r].said == []
    requires s.req[r].kind == Delete || s.req[r].kind == Open || s.req[r].kind == Join
    ensures Justified(Leaving(s, r, Err(KErrNone)))
  {
  }

  lemma StartDeleteQuietly(s: State, r: RequestRef)
    requires Ok(s) && s.current == Some(r) && r in s.req && s.req[r].kind == Delete && s.req[r].said == []
    ensures Quietly(s, StartDelete(s, r)) && r in StartDelete(s, r).req && StartDelete(s, r).current == Some(r)
  {
    hide Ok, Quietly, DeletePdpContext, DeleteOnNetwork;
    QuietlySelf(s);
    StartDeleteOk(s, r);
    if s.req[r].target.Some? {
      var c := s.req[r].target.value;
      StartDeleteReady(s, r, c);
      var q := s.req[r].(target := None);
      var m := SetRequest(s, r, q);
      SetRequestQuietly(s, r, q);
      ControlQuietly(m, c);
      ToldQueue(m, c);
      var told := DeleteOnNetwork(m, c);
      QuietlyThen(s, m, told);
      CancellableBut(told, r, c);
      DeleteQuietly(told, c);
      QuietlyThen(s, told, StartDelete(s, r));
    }
  }

  lemma StartSpeaks(s: State, nif: Network, r: RequestRef)
    requires Ok(s) && s.current == Some(r) && r in s.req && Idle(s.req[r]) && Aimed(s.req[r])
    ensures Speaks(s, Start(s, nif, r))
  {
    hide Ok, RunActions, Destruct, StartDelete, Begun, Moot, Talking, Speaks, Recorded, Quietly, Justified, Aimed;
    if s.req[r].kind == Delete {
      StartDeleteQuietly(s, r);
      var m := StartDelete(s, r);
      SameLeaving(s, m, r, Err(KErrNone));
      NothingJustified(s, r);
      DestructQuietly(m, r, Err(KErrNone));
      DestructShape(m, r, Err(KErrNone));
      QuietlyThen(s, m, Destruct(m, r, Err(KErrNone)));
      QuietlySpeaks(s, Destruct(m, r, Err(KErrNone)));
    } else if Moot(s, s.req[r]) {
      MootKinds(s, s.req[r]);
      NothingJustified(s, r);
      DestructQuietly(s, r, Err(KErrNone));
      DestructShape(s, r, Err(KErrNone));
      QuietlySpeaks(s, Destruct(s, r, Err(KErrNone)));
    } else {
      BegunOk(s, r);
      BegunTalking(s, r);
      var m := SetRequest(s, r, Begun(s, r));
      RecordedHeard(s, r, Begun(s, r));
      RunActionsSpeaks(m, nif, r);
      SpeaksThen(s, m, RunActions(m, nif, r));
    }
  }

  lemma MootKinds(s: State, q: Request)
    requires Moot(s, q)
    ensures q.kind == Open || q.kind == Join
  {
  }

  /** Everything that is known between two events. */
  ghost predicate Informed(s: State) {
    Recorded(s) && (s.current.Some? && s.current.value in s.req ==> Pausing(s.req[s.current.value]))
  }

  lemma {:induction false} RunPendingInformed(s: State, nif: Network)
    requires OkAsleep(s) && Settled(s) && Informed(s)
    ensures Informed(RunPending(s, nif)) && s.upcalls <= RunPending(s, nif).upcalls
    decreases |s.contexts|, |s.pending|
  {
    hide Ok, OkAsleep, Start, Waiting, Idle, Pausing, Justified, Told;
    if s.ready && s.pending != [] && s.current.None? {
      var r := s.pending[0];
      PickHead(s);
      ServedRound(s, nif);
      var m := s.(current := Some(r));
      StartSpeaks(m, nif, r);
      var t := Start(m, nif, r);
      if t.current.None? {
        RunPendingInformed(t, nif);
      }
    }
  }

  // ---------- events ----------

  lemma QuietInformed(s: State, t: State)
    requires Quietly(s, t) && Informed(s) && (s.current.Some? ==> s.current.value in s.req)
    ensures Informed(t) && s.upcalls <= t.upcalls
  {
    hide Recorded, Sofar, Paired, Matters;
  }

  lemma CancelFlowQuietly(s: State, f: FlowRef)
    ensures Quietly(s, CancelFlow(s, f)) && CancelFlow(s, f).req.Keys == s.req.Keys
  {
    hide Told, Justified;
  }

  lemma CleanupQuietly(s: State, f: FlowRef)
    requires Ok(s) && f in s.flows
    ensures Quietly(s, ScheduleCleanup(s, f)) && s.req.Keys <= ScheduleCleanup(s, f).req.Keys
    ensures ScheduleCleanup(s, f).flows == s.flows && ScheduleCleanup(s, f).ctx == s.ctx
  {
    hide Ok, Quietly;
    OkAtQueue(s);
    QuietlySelf(s);
    if s.flows[f].context.Some? && s.flows[f].context != Some(s.primary) {
      AddRequestQuietly(s, FreshRequest(Close, None, s.flows[f].context, 0, false));
    }
  }

  lemma CloseFlowQuietly(s: State, f: FlowRef)
    requires Ok(s)
    ensures Quietly(s, DoCloseFlow(s, f))
  {
    hide Ok, Quietly, ScheduleCleanup, CancelFlow, Without;
    QuietlySelf(s);
    if f in s.flows {
      AttachedFlow(s, f);
      CleanupQuietly(s, f);
      var m := ScheduleCleanup(s, f);
      CancelFlowQuietly(m, f);
      var n := CancelFlow(m, f);
      CancelFlowShape(m, f);
      QuietlyThen(s, m, n);
      QuietlyBy(n, Detach(n, f), []);
      QuietlyThen(s, n, Detach(n, f));
    }
  }

  lemma ReleaseFlowQuietly(s: State, f: FlowRef)
    requires Ok(s) && Settled(s)
    ensures Quietly(s, DoReleaseFlow(s, f))
  {
    hide Ok, Settled, Quietly, ScheduleCleanup, CancelFlow, SetFlowContext;
    QuietlySelf(s);
    if f in s.flows {
      AttachedFlow(s, f);
      CancelFlowQuietly(s, f);
      CancelFlowShape(s, f);
      var m := CancelFlow(s, f);
      CancelFlowKeepsOk(s, f);
      CleanupQuietly(m, f);
      var n := ScheduleCleanup(m, f);
      QuietlyThen(s, m, n);
      SetFlowContextQuietly(n, f, s.primary);
      SetFlowQueue(n, f, s.primary);
      QuietlyThen(s, n, SetFlowContext(n, f, s.primary));
    }
  }

  lemma NewRequestQuietly(s: State, nif: Network, e: Event)
    requires Ok(s) && Settled(s) && WellFormed(e)
    requires e.OpenChannel? || e.NegotiateChannel? || e.JoinChannel? || e.LeaveChannel? || e.NegotiateFlow?
            || e.ScheduleDeletion?
    ensures Quietly(s, Step(s, nif, e))
  {
    hide Ok, Waiting, Quietly, AddRequest, Channel, ContextOf;
    OkAtQueue(s);
    QuietlySelf(s);
    forall q: Request | Aimed(q) ensures Quietly(s, AddRequest(s, q)) {
      AddRequestQuietly(s, q);
    }
    forall reason ensures Quietly(s, Refuse(s, reason)) {
      EmitQuietly(s, [Refused(reason)]);
    }
  }

  lemma CurrentCancellable(s: State, c: ContextRef)
    requires Ok(s) && Informed(s)
    ensures Cancellable(s, c)
  {
    hide Ok, Targets, Recorded, Sofar;
    OthersSilent(s);
    OkAtQueue(s);
  }

  lemma RemoveQuietly(s: State, c: ContextRef)
    requires Ok(s) && c in s.ctx && Informed(s)
    ensures Quietly(s, RemoveContext(s, c))
  {
    hide Ok, Quietly, DeletePdpContext, DeleteOnNetwork, Informed;
    RemoveReady(s, c);
    ControlQuietly(s, c);
    ToldQueue(s, c);
    var told := DeleteOnNetwork(s, c);
    QuietInformed(s, told) by {
      OkAtQueue(s);
    }
    CurrentCancellable(told, c);
    DeleteQuietly(told, c);
    QuietlyThen(s, told, RemoveContext(s, c));
  }

  lemma TouchesQuietly(s: State, nif: Network, e: Event)
    requires Ok(s) && Settled(s) && WellFormed(e) && Informed(s)
    requires e.CloseChannel? || e.SendPacket? || e.ContextBlocked? || e.ContextUnblocked? || e.PrimaryCreated?
    ensures Quietly(s, Step(s, nif, e))
  {
    hide Ok, Waiting, Quietly, Touch, Channel, ContextOf, RemoveContext, Informed;
    DeleteReady(s);
    QuietlySelf(s);
    match e
    case CloseChannel(channelId) =>
      var c := Channel(s, channelId);
      if c.Some? {
        TouchQuietly(s, c.value, s.ctx[c.value].(channelId := 0));
        RemoveQuietly(s, c.value);
      }
    case SendPacket(f, accepted) =>
      if f in s.flows {
        AttachedFlow(s, f);
        var c := s.flows[f].context.value;
        TouchQuietly(s, c, s.ctx[c].(blocked := true));
      }
    case ContextBlocked(id, status) =>
      if ContextOf(s, id).Some? {
        TouchedTwice(s, ContextOf(s, id).value, status, true);
      }
    case ContextUnblocked(id, status) =>
      if ContextOf(s, id).Some? {
        TouchedTwice(s, ContextOf(s, id).value, status, false);
      }
    case PrimaryCreated(status) =>
      TouchQuietly(s, s.primary, s.ctx[s.primary].(status := status));
      var m := SetStatus(s, s.primary, status);
      QuietlyBy(m, m.(ready := true, issued := true), []);
      TouchQueue(s, s.primary, s.ctx[s.primary].(status := status));
      QuietlyThen(s, m, m.(ready := true, issued := true));
  }

  lemma TouchQueue(s: State, c: ContextRef, x: Context)
    requires c in s.ctx
    ensures Touch(s, c, x).req == s.req && Touch(s, c, x).ctx == s.ctx[c := x]
  {
  }

  lemma TouchedTwice(s: State, c: ContextRef, status: ContextStatus, blocked: bool)
    requires c in s.ctx
    ensures var m := SetStatus(s, c, status); c in m.ctx && Quietly(s, if blocked then Block(m, c) else UnBlock(m, c))
  {
    hide Touch, Quietly;
    var x := s.ctx[c].(status := status);
    TouchQuietly(s, c, x);
    TouchQueue(s, c, x);
    var m := Touch(s, c, x);
    TouchQuietly(m, c, m.ctx[c].(blocked := blocked));
    TouchQueue(m, c, m.ctx[c].(blocked := blocked));
    QuietlyThen(s, m, Touch(m, c, m.ctx[c].(blocked := blocked)));
  }

  lemma DeletedQuietly(s: State, id: int, status: ContextStatus, reason: int)
    requires Ok(s) && Settled(s) && Informed(s)
    ensures Quietly(s, DoContextDeleted(s, id, status, reason))
  {
    hide Ok, Settled, Quietly, ContextOf, Touch, Notices, DeletePdpContext, Informed;
    QuietlySelf(s);
    if ContextOf(s, id).Some? {
      var c := ContextOf(s, id).value;
      var x := s.ctx[c].(status := status);
      TouchQuietly(s, c, x);
      TouchQueue(s, c, x);
      var m := Touch(s, c, x);
      EmitQuietly(m, Notices(s.notifier, s.ctx[c], true, reason));
      var n := Announced(s, c, status, reason);
      QuietlyThen(s, m, n);
      DeletedReady(s, c, status, reason);
      QuietInformed(s, n) by {
        OkAtQueue(s);
      }
      CurrentCancellable(n, c);
      DeleteQuietly(n, c);
      QuietlyThen(s, n, DeletePdpContext(n, c));
    }
  }

  lemma ReportedQuietly(s: State, c: ContextRef, report: Report)
    requires Ok(s) && c in s.ctx
    ensures Quietly(s, Update(s, c, report)) && Update(s, c, report).req == s.req
    ensures Quietly(s, Confirmed(s, c, report)) && Confirmed(s, c, report).req == s.req
  {
    hide Ok, Quietly, Touch, Marks, Occupied;
    var m := Reported(s, c, report);
    QuietlyBy(s, m, []);
    var x := m.ctx[c].(status := report.status);
    TouchQuietly(m, c, x);
    TouchQueue(m, c, x);
    var n := Update(s, c, report);
    QuietlyThen(s, m, n);
    TouchQuietly(n, c, n.ctx[c].(blocked := false));
    TouchQueue(n, c, n.ctx[c].(blocked := false));
    QuietlyThen(s, n, UnBlock(n, c));
  }

  lemma ParametersQuietly(s: State, id: int, report: Report, reason: int)
    requires Ok(s)
    ensures Quietly(s, DoParametersChanged(s, id, report, reason))
  {
    hide Ok, Quietly, ContextOf, Update, Notices;
    QuietlySelf(s);
    if ContextOf(s, id).Some? {
      var c := ContextOf(s, id).value;
      ReportedQuietly(s, c, report);
      var m := Update(s, c, report);
      EmitQuietly(m, Notices(s.notifier, s.ctx[c], false, reason));
      QuietlyThen(s, m, Emit(m, Notices(s.notifier, s.ctx[c], false, reason)));
    }
  }

  lemma ReplyInformed(s: State, nif: Network, reply: Expected, c: ContextRef, reason: int)
    requires Ok(s) && Settled(s) && c in s.ctx && Informed(s)
    ensures Informed(Reply(s, nif, reply, c, reason)) && s.upcalls <= Reply(s, nif, reply, c, reason).upcalls
  {
    hide Ok, Waiting, Run, Pausing, Justified, Told;
    if s.current.Some? {
      RunSpeaks(s, nif, s.current.value, reply, c, reason);
    }
  }

  lemma ConfirmedInformed(s: State, nif: Network, reply: Expected, id: int, report: Report, reason: int)
    requires Ok(s) && Settled(s) && ValidSlots(report.tft) && Informed(s)
    ensures var t := DoConfirmed(s, nif, reply, id, report, reason); Informed(t) && s.upcalls <= t.upcalls
  {
    hide Ok, Settled, Quietly, ContextOf, Confirmed, Reply, Informed;
    if ContextOf(s, id).Some? {
      var c := ContextOf(s, id).value;
      ConfirmedOk(s, c, report);
      ReportedQuietly(s, c, report);
      QuietInformed(s, Confirmed(s, c, report)) by {
        OkAtQueue(s);
      }
      ReplyInformed(Confirmed(s, c, report), nif, reply, c, reason);
    }
  }

  lemma SecondaryInformed(s: State, nif: Network, id: int, status: ContextStatus, reason: int, err: int)
    requires Ok(s) && Settled(s) && Informed(s)
    ensures var t := DoSecondaryCreated(s, nif, id, status, reason, err); Informed(t) && s.upcalls <= t.upcalls
  {
    hide Ok, Waiting, Run, Pausing, Justified, Told, Destruct, Quietly;
    OkAtQueue(s);
    if s.current.Some? {
      var m := s.(ready := true);
      var r := s.current.value;
      if err != KErrNone {
        EndJustified(s.req[r], r, PendingCreate, err);
        CreationFailed(m, r, err);
      } else {
        NotReadyOk(s);
        NewContextOk(m, id, status);
        RunSpeaks(NewContextAdded(m, id, status), nif, r, PendingCreate, s.nextContext, reason);
      }
    }
  }

  lemma CreationFailed(s: State, r: RequestRef, err: int)
    requires s.current == Some(r) && r in s.req && Recorded(s)
    requires Justified(Done(r, s.req[r].kind, Err(err), s.req[r].sblp, s.req[r].said + [Failed(PendingCreate, err)]))
    ensures var t := Destruct(Heard(s, r, Failed(PendingCreate, err)), r, Err(err));
            Recorded(t) && t.current.None? && s.upcalls <= t.upcalls
  {
    hide Justified, Recorded, Told, Destruct;
    var h := Heard(s, r, Failed(PendingCreate, err));
    AimedHere(s, r);
    RecordedHeard(s, r, h.req[r]);
    DestructQuietly(h, r, Err(err));
    DestructShape(h, r, Err(err));
  }

  lemma AimedHere(s: State, r: RequestRef)
    requires Recorded(s) && r in s.req
    ensures Aimed(s.req[r])
  {
  }

  lemma TimersInformed(s: State, nif: Network, e: Event)
    requires Ok(s) && Settled(s) && Informed(s) && (e.QueueTimer? || e.ContextTimer?)
    ensures Informed(Step(s, nif, e)) && s.upcalls <= Step(s, nif, e).upcalls
  {
    hide Ok, Settled, Quietly, Touch, RemoveContext, AddRequest, RunPending, Recorded, Pausing;
    OkAtQueue(s);
    QuietlySelf(s);
    if e.QueueTimer? {
      if s.issued {
        FireOk(s);
        var m := s.(issued := false);
        QuietlyBy(s, m, []);
        QuietInformed(s, m);
        RunPendingInformed(m, nif) by {
          SettledAwake(s);
        }
      }
    } else if e.context in s.ctx && s.ctx[e.context].expiring {
      var c := e.context;
      var x := s.ctx[c].(expiring := false);
      ExpiredOk(s, c);
      TouchQuietly(s, c, x);
      TouchQueue(s, c, x);
      var m := Expired(s, c);
      QuietInformed(s, m);
      OkAtQueue(m);
      RemoveQuietly(m, c);
      AddRequestQuietly(m, FreshRequest(Close, None, Some(c), 0, false));
      QuietInformed(m, if m.ctx[c].flows == [] then RemoveContext(m, c)
        else AddRequest(m, FreshRequest(Close, None, Some(c), 0, false)));
    }
  }

  lemma SettledAwake(s: State)
    requires Settled(s)
    ensures Settled(s.(issued := false))
  {
  }

  /** Whatever happens, what is known stays known. */
  lemma StepInformed(s: State, nif: Network, e: Event)
    requires Ok(s) && Settled(s) && WellFormed(e) && Informed(s)
    ensures Informed(Step(s, nif, e)) && s.upcalls <= Step(s, nif, e).upcalls
  {
    hide Ok, Settled, Quietly, Informed, Reply, ContextOf,
      DoOpenFlow, DoCloseFlow, DoReleaseFlow, DoPrimaryCreated, DoSecondaryCreated, DoContextTimer, DoQueueTimer,
      DoOpenChannel, DoCloseChannel, DoNegotiateChannel, DoJoinOrLeave, DoNegotiateFlow, DoScheduleDeletion,
      DoSendPacket, DoContextBlocked, DoContextUnblocked, DoContextDeleted, DoParametersChanged, DoConfirmed;
    OkAtQueue(s);
    var t := Step(s, nif, e);
    match e
    case OpenFlow(f, filter) => OpenFlowQuietly(s, f, filter); QuietInformed(s, t);
    case CloseFlow(f) => CloseFlowQuietly(s, f); QuietInformed(s, t);
    case ReleaseFlow(f) => ReleaseFlowQuietly(s, f); QuietInformed(s, t);
    case OpenChannel(_, _, _) => NewRequestQuietly(s, nif, e); QuietInformed(s, t);
    case CloseChannel(_) => TouchesQuietly(s, nif, e); QuietInformed(s, t);
    case NegotiateChannel(_, _) => NewRequestQuietly(s, nif, e); QuietInformed(s, t);
    case JoinChannel(_, _) => NewRequestQuietly(s, nif, e); QuietInformed(s, t);
    case LeaveChannel(_, _) => NewRequestQuietly(s, nif, e); QuietInformed(s, t);
    case NegotiateFlow(_, _, _) => NewRequestQuietly(s, nif, e); QuietInformed(s, t);
    case ScheduleDeletion(_) => NewRequestQuietly(s, nif, e); QuietInformed(s, t);
    case SendPacket(_, _) => TouchesQuietly(s, nif, e); QuietInformed(s, t);
    case PrimaryCreated(_) => TouchesQuietly(s, nif, e); QuietInformed(s, t);
    case SecondaryCreated(id, status, reason, err) => SecondaryInformed(s, nif, id, status, reason, err);
    case ContextBlocked(_, _) => TouchesQuietly(s, nif, e); QuietInformed(s, t);
    case ContextUnblocked(_, _) => TouchesQuietly(s, nif, e); QuietInformed(s, t);
    case ContextDeleted(id, status, reason) => DeletedQuietly(s, id, status, reason); QuietInformed(s, t);
    case ParametersChanged(id, report, reason) => ParametersQuietly(s, id, report, reason); QuietInformed(s, t);
    case QoSSet(id, reason) =>
      if ContextOf(s, id).Some? {
        ReplyInformed(s, nif, PendingSetQoS, ContextOf(s, id).value, reason);
      }
    case TftModified(id, operation, reason) =>
      if ContextOf(s, id).Some? {
        ReplyInformed(s, nif, TftReply(operation), ContextOf(s, id).value, reason);
      }
    case Activated(id, report, reason) => ConfirmedInformed(s, nif, PendingActivate, id, report, reason);
    case ModifiedActive(id, report, reason) => ConfirmedInformed(s, nif, PendingModifyActive, id, report, reason);
    case QueueTimer => TimersInformed(s, nif, e);
    case ContextTimer(_) => TimersInformed(s, nif, e);
  }

  lemma OpenFlowQuietly(s: State, f: FlowRef, filter: PacketFilter)
    requires Ok(s)
    ensures Quietly(s, DoOpenFlow(s, f, filter))
  {
    hide Ok, Quietly;
    DeleteReady(s);
    QuietlySelf(s);
    if f !in s.flows {
      QuietlyBy(s, Attach(s, f, filter, s.primary), if s.notifier then [Tell(f, FlowBlocked(s.ctx[s.primary]))]
        else []);
    }
  }

  // ---------- runs ----------

  lemma {:induction false} AfterInformed(s: State, nif: Network, es: seq<Event>)
    requires Ok(s) && Settled(s) && AllWellFormed(es) && Informed(s)
    ensures Informed(After(s, nif, es)) && s.upcalls <= After(s, nif, es).upcalls
    decreases |es|
  {
    hide Ok, Settled, Step, WellFormed, Informed;
    if es != [] {
      NextReady(s, nif, es);
      StepInformed(s, nif, es[0]);
      AfterInformed(Step(s, nif, es[0]), nif, es[1..]);
    }
  }

  /**
   Over every run: each completion delivered to a client carries the code that the
   conversation of its request explains. In particular success is reported only for a
   Delete, for a request that had nothing to do, or behind a whole conversation in which
   every call was taken and every reply came without an error.
  */
  lemma CompletionsAreExplained(notifier: bool, nif: Network, es: seq<Event>)
    requires AllWellFormed(es)
    ensures var t := Reached(notifier, nif, es);
            && (forall i :: 0 <= i < |t.log| ==> Justified(t.log[i]))
            && (forall i :: 0 <= i < |t.upcalls| && t.upcalls[i].RequestComplete? ==>
                  Logs(t.log, t.upcalls[i].request, t.upcalls[i].code))
  {
    hide Ok, Settled, Justified;
    InitialOk(notifier);
    AfterInformed(Initial(notifier), nif, es);
  }

  lemma {:induction false} CompleteAllJustified(s: State)
    requires (forall r :: r in s.pending <==> r in s.req) && Recorded(s)
    requires NoDup(s.pending) && forall r :: r in s.req ==> Unspoiled(s.req[r].said)
    ensures Recorded(CompleteAll(s))
    decreases |s.pending|
  {
    hide Justified, Recorded, Unspoiled, Without;
    if s.pending != [] {
      var r := s.pending[0];
      DiedPlainly(s, r);
      DestructQuietly(s, r, Err(KErrDied));
      DestructShape(s, r, Err(KErrDied));
      var t := Destruct(s, r, Err(KErrDied));
      RecordedOn(s, t);
      CompleteAllJustified(t);
    }
  }

  lemma RecordedOn(s: State, t: State)
    requires Quietly(s, t) && Recorded(s)
    ensures Recorded(t)
  {
  }

  lemma DiedPlainly(s: State, r: RequestRef)
    requires r in s.req && Unspoiled(s.req[r].said)
    ensures Justified(Leaving(s, r, Err(KErrDied)))
  {
  }

  /** So are the completions that the destructor delivers at the end of a run. */
  lemma TeardownIsExplained(notifier: bool, nif: Network, es: seq<Event>)
    requires AllWellFormed(es)
    ensures Ok(Reached(notifier, nif, es))
    ensures var t := Teardown(Reached(notifier, nif, es));
            && (forall i :: 0 <= i < |t.log| ==> Justified(t.log[i]))
            && (forall i :: 0 <= i < |t.upcalls| && t.upcalls[i].RequestComplete? ==>
                  Logs(t.log, t.upcalls[i].request, t.upcalls[i].code))
  {
    hide Ok, Settled, Justified, Unspoiled, NoDup, ExactlyOnce, Sofar, Paired;
    InitialOk(notifier);
    ReachedOk(notifier, nif, es);
    AfterInformed(Initial(notifier), nif, es);
    var s := Reached(notifier, nif, es);
    OthersSilent(s);
    forall r | r in s.req ensures Unspoiled(s.req[r].said) {
      SilentUnspoiled(s, r);
    }
    TeardownReady(s);
    var quiet := s.(current := None);
    CompleteAllJustified(quiet);
    CompleteAllShape(quiet);
    DropAllShape(CompleteAll(quiet).(issued := false));
  }

  lemma SilentUnspoiled(s: State, r: RequestRef)
    requires Informed(s) && r in s.req && (s.current != Some(r) ==> s.req[r].said == [])
    ensures Unspoiled(s.req[r].said)
  {
    hide Recorded, Sofar, Paired;
  }
}
