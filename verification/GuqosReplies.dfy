/**
 What a client is told at once: by a reply of the network, by a refused call, and when
 the context that its request is about goes away.
*/
module GuqosReplies {
  import opened Wrappers
  import opened Sequences
  import opened PacketFilters
  import opened Tft
  import opened GuqosState
  import opened GuqosHeap
  import opened GuqosRequests
  import opened GuqosSteps
  import opened GuqosLoops
  import opened GuqosEvents
  import opened GuqosRuns
  import opened GuqosTheorems
  import opened GuqosStory
  import opened GuqosCodes

  /** Clients listen to requests of these kinds. */
  predicate Listens(kind: Kind) {
    kind == Open || kind == Negotiate || kind == Join || kind == Leave
  }

  /** The last upcall. */
  predicate Ends(upcalls: seq<Upcall>, u: Upcall) {
    upcalls != [] && upcalls[|upcalls| - 1] == u
  }

  lemma DestructEnds(s: State, r: RequestRef, code: Code)
    requires r in s.req && Listens(s.req[r].kind)
    ensures Ends(Destruct(s, r, code).upcalls, RequestComplete(r, code)) && r !in Destruct(s, r, code).req
  {
    hide Without;
  }

  lemma FailEnds(s: State, r: RequestRef, c: Option<ContextRef>, reason: int)
    requires Ok(s) && s.current == Some(r) && r in s.req && (c.Some? ==> c.value in s.ctx)
    requires Listens(s.req[r].kind)
    ensures Ends(Fail(s, r, c, reason).upcalls, RequestComplete(r, Blamed(s.req[r].kind, reason)))
    ensures r !in Fail(s, r, c, reason).req
  {
    hide Ok, AbandonContext, Destruct;
    var q := s.req[r];
    if q.kind == Open && c.Some? && q.newContext == c {
      AbandonedOk(s, r, c.value);
      DestructEnds(AbandonContext(s, r, c.value), r, Err(reason));
    } else {
      DestructEnds(s, r, FailureCode(q.kind, reason));
    }
  }

  // ---------- replies ----------

  /** What an event of the network says about a call: which reply it is, and with what result. */
  function Said(e: Event): Option<(Expected, int)> {
    match e
    case QoSSet(_, reason) => Some((PendingSetQoS, reason))
    case Activated(_, _, reason) => Some((PendingActivate, reason))
    case ModifiedActive(_, _, reason) => Some((PendingModifyActive, reason))
    case TftModified(_, AddFilters, reason) => Some((PendingPacketFilterAdd, reason))
    case TftModified(_, RemoveFilters, reason) => Some((PendingPacketFilterRemove, reason))
    case TftModified(_, AddSblp, reason) => Some((PendingSblpParameterAdd, reason))
    case TftModified(_, _, reason) => Some((PendingAny, reason))
    case SecondaryCreated(_, _, reason, err) => Some((PendingCreate, if err != 0 then err else reason))
    case _ => None
  }

  /** The event is about a context of the interface, or brings one. */
  ghost predicate Known(s: State, e: Event)
    requires Ok(s)
  {
    match e
    case QoSSet(id, _) => ContextOf(s, id).Some?
    case Activated(id, _, _) => ContextOf(s, id).Some?
    case ModifiedActive(id, _, _) => ContextOf(s, id).Some?
    case TftModified(id, _, _) => ContextOf(s, id).Some?
    case SecondaryCreated(_, _, _, err) => true
    case _ => false
  }

  lemma RunEnds(s: State, nif: Network, r: RequestRef, reply: Expected, c: ContextRef, reason: int)
    requires Ok(s) && s.current == Some(r) && r in s.req && Waiting(s.req[r]) && c in s.ctx && Listens(s.req[r].kind)
    requires s.req[r].expected != PendingAny
    ensures var t := Run(s, nif, r, reply, c, reason);
            && (s.req[r].expected == reply && reason != 0 ==>
                  Ends(t.upcalls, RequestComplete(r, Blamed(s.req[r].kind, reason))) && r !in t.req)
            && (s.req[r].expected != reply ==> Ends(t.upcalls, RequestComplete(r, Err(-3))) && r !in t.req)
  {
    hide Ok, Waiting, RunActions, Fail, Destruct, Table, Ends;
    RunReady(s, r, c, reply);
    var m := SetRequest(s, r, s.req[r].(context := Some(c)));
    if s.req[r].expected != reply {
      DestructEnds(Heard(m, r, Strange(reply)), r, Err(KErrCancel));
    } else if reason != 0 {
      HeardOk(m, r, Failed(reply, reason));
      FailEnds(Heard(m, r, Failed(reply, reason)), r, Some(c), reason);
    }
  }

  /** An error or a wrong reply ends the request. */
  ghost predicate EndsBy(s: State, t: State, e: Event, r: RequestRef) {
    r in s.req && Said(e).Some? ==>
      var (reply, reason) := Said(e).value;
      && (s.req[r].expected == reply && reason != 0 ==>
            Ends(t.upcalls, RequestComplete(r, Blamed(s.req[r].kind, reason))) && r !in t.req)
      && (s.req[r].expected != reply ==> Ends(t.upcalls, RequestComplete(r, Err(-3))) && r !in t.req)
  }

  /** The context that an event is about, and the state in which the reply reaches the request. */
  lemma ReplyEnds(s: State, nif: Network, e: Event, r: RequestRef)
    requires Ok(s) && Settled(s) && WellFormed(e) && Known(s, e) && s.current == Some(r) && r in s.req
    requires Listens(s.req[r].kind) && !e.SecondaryCreated? && s.req[r].expected != PendingAny
    requires e.TftModified? && e.operation == DeleteTft ==> s.req[r].expected != PendingTFTRemove
    requires e.TftModified? && e.operation == RemoveSblp ==> s.req[r].expected != PendingSblpParameterRemove
    ensures EndsBy(s, Step(s, nif, e), e, r)
  {
    hide Ok, Waiting, Run, Table, Ends, ContextOf, Confirmed;
    var c := ContextOf(s, e.contextId).value;
    match e
    case QoSSet(id, reason) => RunEnds(s, nif, r, PendingSetQoS, c, reason);
    case TftModified(id, operation, reason) => RunEnds(s, nif, r, TftReply(operation), c, reason);
    case Activated(id, report, reason) =>
      ConfirmedOk(s, c, report);
      RunEnds(Confirmed(s, c, report), nif, r, PendingActivate, c, reason);
    case ModifiedActive(id, report, reason) =>
      ConfirmedOk(s, c, report);
      RunEnds(Confirmed(s, c, report), nif, r, PendingModifyActive, c, reason);
  }

  lemma CreationEnds(s: State, nif: Network, e: Event, r: RequestRef)
    requires Ok(s) && Settled(s) && e.SecondaryCreated? && s.current == Some(r) && r in s.req
    requires Listens(s.req[r].kind) && s.req[r].expected != PendingAny
    ensures var t := Step(s, nif, e);
            && (e.err != 0 ==> Ends(t.upcalls, RequestComplete(r, Err(e.err))) && r !in t.req)
            && (e.err == 0 && s.req[r].expected == PendingCreate && e.reason != 0 ==>
                  Ends(t.upcalls, RequestComplete(r, Blamed(s.req[r].kind, e.reason))) && r !in t.req)
            && (e.err == 0 && s.req[r].expected != PendingCreate ==>
                  Ends(t.upcalls, RequestComplete(r, Err(-3))) && r !in t.req)
  {
    hide Ok, Waiting, Run, Table, Ends, Destruct;
    var m := s.(ready := true);
    if e.err != 0 {
      DestructEnds(Heard(m, r, Failed(PendingCreate, e.err)), r, Err(e.err));
    } else {
      NotReadyOk(s);
      NewContextOk(m, e.contextId, e.status);
      RunEnds(NewContextAdded(m, e.contextId, e.status), nif, r, PendingCreate, s.nextContext, e.reason);
    }
  }

  /** What a reply does to the request being served, by the last call of its conversation. */
  ghost predicate Decided(s: State, t: State, r: RequestRef, e: Event)
    requires r in s.req && Said(e).Some?
  {
    var kind, said := s.req[r].kind, s.req[r].said;
    var (reply, reason) := Said(e).value;
    var failed := e.SecondaryCreated? && e.err != 0;
    && said != [] && said[|said| - 1].Called?
    && var op := said[|said| - 1].op;
       && (failed ==> Ends(t.upcalls, RequestComplete(r, Err(e.err))))
       && (!failed && AnswerTo(op, reply) && reason != 0 ==> Ends(t.upcalls, RequestComplete(r, Blamed(kind, reason))))
       && (!failed && !AnswerTo(op, reply) ==> Ends(t.upcalls, RequestComplete(r, Err(-3))))
       && (r in t.req ==> AnswerTo(op, reply) && reason == 0)
  }

  ghost predicate ReplyDecides(s: State, t: State, e: Event, r: RequestRef)
    requires Ok(s)
  {
    s.current == Some(r) && r in s.req && Listens(s.req[r].kind) && Said(e).Some? && Known(s, e) ==>
      Decided(s, t, r, e)
  }

  /**
   In every state that a run reaches: a reply to the call the request being served waits for
   that carries an error completes it at once with that error, and any other reply
   completes it as cancelled; the completion is the last thing said.
  */
  lemma RepliesDecide(notifier: bool, nif: Network, es: seq<Event>, e: Event, r: RequestRef)
    requires AllWellFormed(es) && WellFormed(e)
    ensures Ok(Reached(notifier, nif, es)) && Settled(Reached(notifier, nif, es))
    ensures ReplyDecides(Reached(notifier, nif, es), Step(Reached(notifier, nif, es), nif, e), e, r)
  {
    hide Ok, Settled, Ends, Step, ContextOf, Justified, Recorded, Sofar, Paired, Informed;
    ReachedOk(notifier, nif, es);
    InitialOk(notifier);
    InitialInformed(notifier);
    AfterInformed(Initial(notifier), nif, es);
    var s := Reached(notifier, nif, es);
    if s.current == Some(r) && r in s.req && Listens(s.req[r].kind) && Known(s, e) {
      Served(s, r, Said(e).value.0);
      if e.SecondaryCreated? {
        CreationEnds(s, nif, e, r);
      } else {
        ReplyEnds(s, nif, e, r);
      }
    }
  }

  lemma InitialInformed(notifier: bool)
    ensures Informed(Initial(notifier))
  {
  }

  /** The request being served waits for the answer to its last call. */
  lemma Served(s: State, r: RequestRef, reply: Expected)
    requires Informed(s) && s.current == Some(r) && r in s.req
    ensures s.req[r].said != [] && s.req[r].said[|s.req[r].said| - 1].Called?
    ensures AnswerTo(s.req[r].said[|s.req[r].said| - 1].op, reply) <==> reply == s.req[r].expected
    ensures s.req[r].expected != PendingAny && s.req[r].expected != PendingTFTRemove
            && s.req[r].expected != PendingSblpParameterRemove
  {
    hide Recorded, Sofar, Paired;
  }

  // ---------- refused calls ----------

  /** The first call made from `s` on to `t`, and whether the network takes it, decide about the request. */
  ghost predicate CallDecides(s: State, t: State, nif: Network, r: RequestRef)
    requires r in s.req
  {
    var n := |s.controls|;
    && s.controls <= t.controls
    && (|t.controls| > n ==>
          var code := nif(t.controls[..n + 1]);
          if code < 0 then r !in t.req && Ends(t.upcalls, RequestComplete(r, Blamed(s.req[r].kind, code)))
          else r in t.req && |t.controls| == n + 1)
  }

  lemma AskDecides(s: State, m: State, nif: Network, r: RequestRef, op: Control, expected: Expected,
                   onFailure: Option<ContextRef>)
    requires r in s.req && Ok(m) && m.current == Some(r) && r in m.req && (onFailure.Some? ==> onFailure.value in m.ctx)
    requires m.controls == s.controls && m.req[r].kind == s.req[r].kind && Listens(s.req[r].kind)
    ensures CallDecides(s, Ask(m, nif, r, op, expected, onFailure), nif, r)
    ensures s.controls + [op] <= Ask(m, nif, r, op, expected, onFailure).controls
  {
    hide Ok, Fail, Ends;
    AskedOk(m, r, op, expected);
    var asked := Asked(m, r, op, expected);
    var code := nif(asked.controls);
    var t := Ask(m, nif, r, op, expected, onFailure);
    AskOk(m, nif, r, op, expected, onFailure);
    assert t.controls[..|s.controls| + 1] == asked.controls;
    if code < 0 {
      HeardOk(asked, r, Denied(op, code));
      FailEnds(Heard(asked, r, Denied(op, code)), r, onFailure, code);
    }
  }

  /** No call, or none that decides: the request goes on, or ends for another reason. */
  lemma NothingDecides(s: State, t: State, nif: Network, r: RequestRef)
    requires r in s.req && t.controls == s.controls
    ensures CallDecides(s, t, nif, r)
  {
  }

  lemma RemovalDecides(s: State, nif: Network, r: RequestRef)
    requires Ok(s) && Acting(s, r) && Listens(s.req[r].kind)
    ensures CallDecides(s, ActRemovePacketFilter(s, nif, r).0, nif, r)
  {
    hide Ok, Ask, Rehome, Table, UnneededFilters, CallDecides;
    NothingDecides(s, s, nif, r);
    DeleteReady(s);
    if s.req[r].context.Some? {
      var c := s.req[r].context.value;
      RehomeOk(s, r, s.primary);
      var m := Rehome(s, r, s.primary);
      NothingDecides(s, m, nif, r);
      AskDecides(s, m, nif, r, ModifyTft(m.ctx[c].contextId, RemoveFilters, UnneededFilters(m, c, s.req[r].flow)),
                 PendingPacketFilterRemove, Some(c));
    }
  }

  lemma AdditionDecides(s: State, nif: Network, r: RequestRef)
    requires Ok(s) && Acting(s, r) && Listens(s.req[r].kind) && AsksForFilter(s, r)
    ensures CallDecides(s, ActAddPacketFilter(s, nif, r).0, nif, r)
  {
    hide Ok, Ask, Table, CallDecides, Reserved, LastMatch, FreeId;
    RequestParts(s, r);
    var c, f := s.req[r].context.value, s.req[r].flow.value;
    ReservedOk(s, r, c, f);
    ReservedFilter(s, r, c, f);
    var m := Reserved(s, r, c, f);
    AskDecides(s, m, nif, r, ModifyTft(s.ctx[c].contextId, AddFilters, [m.flows[f].filter]), PendingPacketFilterAdd,
               Some(c));
  }

  lemma SmallDecide(s: State, nif: Network, r: RequestRef)
    requires Ok(s) && Acting(s, r) && Listens(s.req[r].kind)
    ensures CallDecides(s, ActCommit(s, nif, r).0, nif, r)
    ensures CallDecides(s, ActAddSblpParameter(s, nif, r).0, nif, r)
    ensures CallDecides(s, ActSetQoS(s, nif, r).0, nif, r)
    ensures CallDecides(s, Ask(s, nif, r, CreateSecondary, PendingCreate, None), nif, r)
  {
    hide Ok, Ask, Table, CallDecides;
    NothingDecides(s, s, nif, r);
    var c := s.req[r].context;
    if c.Some? {
      var id := s.ctx[c.value].contextId;
      AskDecides(s, s, nif, r, Activate(id), PendingActivate, c);
      AskDecides(s, s, nif, r, ModifyActive(id), PendingModifyActive, c);
      AskDecides(s, s, nif, r, ModifyTft(id, AddSblp, []), PendingSblpParameterAdd, c);
      AskDecides(s, s, nif, r, RequestQoS(id), PendingSetQoS, c);
    }
    AskDecides(s, s, nif, r, CreateSecondary, PendingCreate, None);
  }

  lemma OthersDecide(s: State, nif: Network, r: RequestRef)
    requires Ok(s) && Acting(s, r)
    ensures CallDecides(s, ActRememberCreatedContext(s, r).0, nif, r)
    ensures CallDecides(s, ActAddFlowToContext(s, r).0, nif, r)
    ensures CallDecides(s, ActNegotiationComplete(s, r).0, nif, r)
    ensures CallDecides(s, SetRequest(s, r, WithContext(s.req[r], s.req[r].target)), nif, r)
    ensures CallDecides(s, Destruct(s, r, Err(KErrNone)), nif, r)
  {
    hide Ok, Rehome, Table, Without;
    if s.req[r].context.Some? {
      RehomeOk(s, r, s.req[r].context.value);
    }
  }

  /**
   A refused call completes the request at once with the refusal, and the completion is the
   last thing said; a call that is taken leaves the request waiting. An action that adds a
   filter is one that finds an identifier for it.
  */
  lemma RefusalDecides(s: State, nif: Network, r: RequestRef)
    requires Ok(s) && Acting(s, r) && Listens(s.req[r].kind)
    requires Table(s.req[r].kind)[s.req[r].state] == AddPacketFilter ==>
               AsksForFilter(s, r) || ActAddPacketFilter(s, nif, r).0 == s
    ensures CallDecides(s, Act(s, nif, r).0, nif, r)
  {
    hide Ok, Ask, Destruct, Table, CallDecides, AsksForFilter, ActRemovePacketFilter, ActAddPacketFilter, ActCommit,
      ActAddSblpParameter, ActSetQoS, ActRememberCreatedContext, ActAddFlowToContext, ActNegotiationComplete;
    NothingDecides(s, s, nif, r);
    RemovalDecides(s, nif, r);
    SmallDecide(s, nif, r);
    OthersDecide(s, nif, r);
    if AsksForFilter(s, r) {
      AdditionDecides(s, nif, r);
    }
  }

  // ---------- contexts that go away ----------

  /** The request is about context `c`: it has made it, or was made for it. */
  predicate Concerns(q: Request, c: ContextRef) {
    (q.kind == Open && q.newContext == Some(c)) || (q.kind != Open && q.target == Some(c))
  }

  lemma {:induction false} CancelledAreTold(s: State, c: ContextRef, r: RequestRef)
    requires forall x :: x in s.pending <==> x in s.req
    requires r in s.req && Concerns(s.req[r], c) && Listens(s.req[r].kind)
    ensures RequestComplete(r, Blamed(s.req[r].kind, -13)) in CancelPending(s, c).upcalls
    decreases |s.pending|
  {
    hide Without;
    var first := FirstTarget(s.pending, s.req, c);
    assert Targets(s.req[r], c);
    var x := first.value;
    var code := FailureCode(s.req[x].kind, KErrDied);
    var m := Destruct(s, x, code);
    DestructShape(s, x, code);
    CancelGrows(m, c);
    if x == r {
      assert m.upcalls[|s.upcalls|] == RequestComplete(r, Blamed(s.req[r].kind, -13));
    } else {
      CancelledAreTold(m, c, r);
    }
  }

  lemma {:induction false} CancelGrows(s: State, c: ContextRef)
    requires forall x :: x in s.pending ==> x in s.req
    ensures s.upcalls <= CancelPending(s, c).upcalls
    decreases |s.pending|
  {
    hide Without, Targets;
    var first := FirstTarget(s.pending, s.req, c);
    if first.Some? {
      var code := FailureCode(s.req[first.value].kind, KErrDied);
      DestructShape(s, first.value, code);
      CancelGrows(Destruct(s, first.value, code), c);
    }
  }

  /**
   When a context goes that is not the only one, exactly the requests about it end, and
   their clients are told that they died.
  */
  lemma DeathIsTold(s: State, c: ContextRef, r: RequestRef)
    requires Ok(s) && c in s.ctx && s.primary in s.ctx && s.contexts != [c] && r in s.req
    requires forall x :: x in s.contexts ==> x in s.ctx
    requires forall x :: x in s.pending ==> x in s.req
    ensures var t := DeletePdpContext(s, c);
            && (r in t.req <==> !Concerns(s.req[r], c))
            && (Concerns(s.req[r], c) && Listens(s.req[r].kind) ==>
                  RequestComplete(r, Blamed(s.req[r].kind, -13)) in t.upcalls)
  {
    hide Ok, Reelect, Evacuate, CancelPending;
    DeleteDropped(s, c);
    if Concerns(s.req[r], c) && Listens(s.req[r].kind) {
      OkParts(s);
      OkAt(s, c);
      ReelectOk(s, c);
      EvacuateOk(s, c);
      var m := Evacuate(s, c);
      DeleteReady(m);
      var n := m.(contexts := Without(m.contexts, c));
      CancelledAreTold(n, c, r);
    }
  }
}
