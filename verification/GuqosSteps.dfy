/**
 Every action keeps the invariant and either ends the request, leaves it waiting
 for the reply of that very action, or lets the next action run. From this the
 loops of CRequestBase::Run, CRequestBase::Start and CNif::RunPendingRequests are
 defined, with their termination.
*/
module GuqosSteps {
  import opened Wrappers
  import opened Sequences
  import opened PacketFilters
  import opened Tft
  import opened GuqosState
  import opened GuqosHeap
  import opened GuqosRequests

  /** What every step of request `r` guarantees; `more` says that the next action may run. */
  ghost predicate StepOk(s: State, t: State, r: RequestRef, more: bool)
    requires r in s.req
  {
    && Ok(t)
    && s.controls <= t.controls
    && t.flows.Keys == s.flows.Keys
    && t.ready == s.ready && t.notifier == s.notifier
    && (if more then Continues(s, t, r) else Ended(s, t, r) || Suspended(s, t, r))
  }

  /** An action that asks the network ends the request or leaves it waiting. */
  lemma AskStep(s: State, m: State, nif: Network, r: RequestRef, op: Control, expected: Expected,
                onFailure: Option<ContextRef>)
    requires r in s.req && Ok(m) && m.current == Some(r) && r in m.req
    requires onFailure.Some? ==> onFailure.value in m.ctx
    requires m.req[r].kind == s.req[r].kind && m.req[r].state == s.req[r].state
    requires |m.contexts| == |s.contexts| && |m.pending| == |s.pending|
    requires m.flows.Keys == s.flows.Keys && s.controls <= m.controls && m.ready == s.ready && m.notifier == s.notifier
    requires s.req[r].state + 1 < |Table(s.req[r].kind)| && WaitsFor(Table(s.req[r].kind)[s.req[r].state], expected)
    ensures StepOk(s, Ask(m, nif, r, op, expected, onFailure), r, false)
    ensures FiltersKept(m, Ask(m, nif, r, op, expected, onFailure))
    ensures m.controls + [op] <= Ask(m, nif, r, op, expected, onFailure).controls
  {
    hide Ok, Ask, Table, WaitsFor;
    AskOk(m, nif, r, op, expected, onFailure);
    AskedOk(m, r, op, expected);
  }

  /** Completing a request is a step that ends it. */
  lemma DestructStep(s: State, m: State, r: RequestRef, code: Code)
    requires r in s.req && Ok(m) && m.current == Some(r) && r in m.req
    requires |m.contexts| == |s.contexts| && |m.pending| == |s.pending|
    requires m.flows.Keys == s.flows.Keys && s.controls <= m.controls && m.ready == s.ready && m.notifier == s.notifier
    ensures StepOk(s, Destruct(m, r, code), r, false) && Ended(s, Destruct(m, r, code), r)
    ensures FiltersKept(m, Destruct(m, r, code))
  {
    hide Ok;
    DestructOk(m, r, code);
  }

  lemma FailStep(s: State, r: RequestRef, c: Option<ContextRef>, reason: int)
    requires Ok(s) && s.current == Some(r) && r in s.req
    requires c.Some? ==> c.value in s.ctx
    ensures StepOk(s, Fail(s, r, c, reason), r, false) && Ended(s, Fail(s, r, c, reason), r)
    ensures FiltersKept(s, Fail(s, r, c, reason))
  {
    hide Ok, Fail;
    FailOk(s, r, c, reason);
  }

  lemma RemovePacketFilterStep(s: State, nif: Network, r: RequestRef)
    requires Ok(s) && Acting(s, r) && Table(s.req[r].kind)[s.req[r].state] == RemovePacketFilter
    ensures StepOk(s, ActRemovePacketFilter(s, nif, r).0, r, !ActRemovePacketFilter(s, nif, r).1)
    ensures FiltersKept(s, ActRemovePacketFilter(s, nif, r).0)
  {
    hide Ok, Ask, Rehome, Unneeded, OwnFilters;
    NotLast(s.req[r].kind, s.req[r].state);
    if s.req[r].context.Some? {
      var c := s.req[r].context.value;
      DeleteReady(s);
      RehomeOk(s, r, s.primary);
      var m := Rehome(s, r, s.primary);
      var unneeded := UnneededFilters(m, c, s.req[r].flow);
      AskStep(s, m, nif, r, ModifyTft(m.ctx[c].contextId, RemoveFilters, unneeded), PendingPacketFilterRemove, Some(c));
    }
  }

  /** No action that may have to wait stands last in its table. */
  lemma NotLast(kind: Kind, state: nat)
    requires state < |Table(kind)|
    ensures Table(kind)[state] == CompleteRequest || Table(kind)[state] == NegotiationComplete
            <==> state == |Table(kind)| - 1
    ensures Table(kind)[state] == RememberCreatedContext || Table(kind)[state] == NewContext ==> kind == Open
  {
  }

  lemma AddPacketFilterStep(s: State, nif: Network, r: RequestRef)
    requires Ok(s) && Acting(s, r) && Table(s.req[r].kind)[s.req[r].state] == AddPacketFilter
    ensures StepOk(s, ActAddPacketFilter(s, nif, r).0, r, !ActAddPacketFilter(s, nif, r).1)
  {
    hide Ok, Ask, Fail, LastMatch, FreeId, Reserve;
    NotLast(s.req[r].kind, s.req[r].state);
    if s.req[r].context.Some? && s.req[r].flow.Some? {
      RequestParts(s, r);
      var c := s.req[r].context.value;
      var f := s.req[r].flow.value;
      var filters := s.ctx[c].filters;
      if LastMatch(s.flows[f].filter, filters) < 0 {
        if FreeId(filters) < 0 {
          FailStep(s, r, Some(c), FreeId(filters));
        } else {
          ReservedOk(s, r, c, f);
          var m := Reserved(s, r, c, f);
          AskStep(s, m, nif, r, ModifyTft(s.ctx[c].contextId, AddFilters, [m.flows[f].filter]), PendingPacketFilterAdd,
            Some(c));
        }
      }
    }
  }

  lemma CommitStep(s: State, nif: Network, r: RequestRef)
    requires Ok(s) && Acting(s, r) && Table(s.req[r].kind)[s.req[r].state] == Commit
    ensures StepOk(s, ActCommit(s, nif, r).0, r, !ActCommit(s, nif, r).1)
    ensures FiltersKept(s, ActCommit(s, nif, r).0)
  {
    hide Ok, Ask;
    NotLast(s.req[r].kind, s.req[r].state);
    if s.req[r].context.Some? {
      var c := s.req[r].context.value;
      AskStep(s, s, nif, r, Activate(s.ctx[c].contextId), PendingActivate, Some(c));
      AskStep(s, s, nif, r, ModifyActive(s.ctx[c].contextId), PendingModifyActive, Some(c));
    }
  }

  lemma RememberCreatedContextStep(s: State, r: RequestRef)
    requires Ok(s) && Acting(s, r) && Table(s.req[r].kind)[s.req[r].state] == RememberCreatedContext
    ensures StepOk(s, ActRememberCreatedContext(s, r).0, r, !ActRememberCreatedContext(s, r).1)
    ensures FiltersKept(s, ActRememberCreatedContext(s, r).0)
  {
    hide Ok, Table;
    RememberedOk(s, r);
    var m := SetRequest(s, r, s.req[r].(newContext := s.req[r].context));
    if s.req[r].context.Some? {
      ChannelIdOk(m, s.req[r].context.value, s.req[r].channelId);
    }
  }

  lemma RememberedOk(s: State, r: RequestRef)
    requires Ok(s) && Acting(s, r) && Table(s.req[r].kind)[s.req[r].state] == RememberCreatedContext
    ensures Ok(SetRequest(s, r, s.req[r].(newContext := s.req[r].context)))
  {
    hide Ok;
    NotLast(s.req[r].kind, s.req[r].state);
    RequestParts(s, r);
    SetRequestOk(s, r, s.req[r].(newContext := s.req[r].context));
  }

  lemma ChannelIdOk(s: State, c: ContextRef, channelId: int)
    requires Ok(s) && c in s.ctx
    ensures var t := s.(ctx := s.ctx[c := s.ctx[c].(channelId := channelId)]);
            Ok(t) && t.ctx.Keys == s.ctx.Keys
  {
    hide Ok, DistinctIds, Announce;
    OkAt(s, c);
    TouchOk(s, c, s.ctx[c].(channelId := channelId));
    assert s.upcalls + [] == s.upcalls;
    assert s.(ctx := s.ctx[c := s.ctx[c].(channelId := channelId)]) == Touch(s, c, s.ctx[c].(channelId := channelId));
    assert s.ctx[c := s.ctx[c].(channelId := channelId)].Keys == s.ctx.Keys;
  }

  /** Changing only fields of the request itself lets the next action run. */
  lemma SetRequestStep(s: State, m: State, r: RequestRef, q: Request)
    requires r in s.req && Ok(m) && m.current == Some(r) && m.req == s.req && FiltersKept(s, m)
    requires m.contexts == s.contexts && m.pending == s.pending && m.flows.Keys == s.flows.Keys
            && m.controls == s.controls
    requires q == s.req[r].(flow := q.flow, context := q.context, modified := q.modified)
    requires s.req[r].state < |Table(s.req[r].kind)|
    requires q.flow.Some? ==> q.flow.value in s.flows
    requires q.context.Some? ==> q.context.value in m.ctx
    ensures StepOk(s, SetRequest(m, r, q), r, true)
    ensures FiltersKept(s, SetRequest(m, r, q))
  {
    hide Ok, Table;
    RequestParts(m, r);
    SetRequestOk(m, r, q);
  }

  lemma AddFlowToContextStep(s: State, r: RequestRef)
    requires Ok(s) && Acting(s, r) && Table(s.req[r].kind)[s.req[r].state] == AddFlowToContext
    ensures StepOk(s, ActAddFlowToContext(s, r).0, r, !ActAddFlowToContext(s, r).1)
    ensures FiltersKept(s, ActAddFlowToContext(s, r).0)
  {
    hide Ok, Rehome, Table, StepOk;
    if s.req[r].context.Some? {
      RehomeOk(s, r, s.req[r].context.value);
      SetRequestStep(s, Rehome(s, r, s.req[r].context.value), r, s.req[r].(flow := None));
    } else {
      SetRequestStep(s, s, r, s.req[r].(flow := None));
    }
  }

  lemma NegotiationCompleteStep(s: State, r: RequestRef)
    requires Ok(s) && Acting(s, r) && Table(s.req[r].kind)[s.req[r].state] == NegotiationComplete
    ensures StepOk(s, ActNegotiationComplete(s, r).0, r, !ActNegotiationComplete(s, r).1)
    ensures FiltersKept(s, ActNegotiationComplete(s, r).0)
  {
    hide Ok, Rehome, Destruct;
    var m := s;
    if s.req[r].context.Some? {
      RehomeOk(s, r, s.req[r].context.value);
      m := Rehome(s, r, s.req[r].context.value);
    }
    DestructStep(s, m, r, Err(KErrNone));
  }

  lemma StartWithTargetStep(s: State, r: RequestRef)
    requires Ok(s) && Acting(s, r) && Table(s.req[r].kind)[s.req[r].state] == StartWithTargetContext
    ensures StepOk(s, SetRequest(s, r, WithContext(s.req[r], s.req[r].target)), r, true)
    ensures FiltersKept(s, SetRequest(s, r, WithContext(s.req[r], s.req[r].target)))
  {
    hide Ok, Table, StepOk;
    RequestParts(s, r);
    SetRequestStep(s, s, r, WithContext(s.req[r], s.req[r].target));
  }

  /** One action, whichever it is. */
  lemma ActOk(s: State, nif: Network, r: RequestRef)
    requires Ok(s) && Acting(s, r)
    ensures StepOk(s, Act(s, nif, r).0, r, !Act(s, nif, r).1)
    ensures s.req[r].state == |Table(s.req[r].kind)| - 1 ==> Act(s, nif, r).1
    ensures Table(s.req[r].kind)[s.req[r].state] != AddPacketFilter ==> FiltersKept(s, Act(s, nif, r).0)
  {
    hide Ok, Ask, Rehome, Destruct, Table, StepOk, FiltersKept,
      ActRemovePacketFilter, ActCommit, ActRememberCreatedContext, ActAddPacketFilter, ActAddFlowToContext;
    NotLast(s.req[r].kind, s.req[r].state);
    match Table(s.req[r].kind)[s.req[r].state]
    case RemovePacketFilter => RemovePacketFilterStep(s, nif, r);
    case Commit => CommitStep(s, nif, r);
    case NewContext => AskStep(s, s, nif, r, CreateSecondary, PendingCreate, None);
    case RememberCreatedContext => RememberCreatedContextStep(s, r);
    case AddPacketFilter => AddPacketFilterStep(s, nif, r);
    case AddSblpParameter => SimpleAskStep(s, nif, r);
    case SetQoS => SimpleAskStep(s, nif, r);
    case AddFlowToContext => AddFlowToContextStep(s, r);
    case NegotiationComplete => NegotiationCompleteStep(s, r);
    case StartWithTargetContext => StartWithTargetStep(s, r);
    case CompleteRequest => DestructStep(s, s, r, Err(KErrNone));
  }

  lemma SimpleAskStep(s: State, nif: Network, r: RequestRef)
    requires Ok(s) && Acting(s, r)
    ensures Table(s.req[r].kind)[s.req[r].state] == AddSblpParameter ==>
              StepOk(s, ActAddSblpParameter(s, nif, r).0, r, !ActAddSblpParameter(s, nif, r).1)
              && FiltersKept(s, ActAddSblpParameter(s, nif, r).0)
    ensures Table(s.req[r].kind)[s.req[r].state] == SetQoS ==>
              StepOk(s, ActSetQoS(s, nif, r).0, r, !ActSetQoS(s, nif, r).1) && FiltersKept(s, ActSetQoS(s, nif, r).0)
  {
    hide Ok, Ask, Table;
    NotLast(s.req[r].kind, s.req[r].state);
    var c := s.req[r].context;
    if c.Some? {
      var id := s.ctx[c.value].contextId;
      if Table(s.req[r].kind)[s.req[r].state] == AddSblpParameter && s.req[r].sblp {
        AskStep(s, s, nif, r, ModifyTft(id, AddSblp, []), PendingSblpParameterAdd, c);
      } else if Table(s.req[r].kind)[s.req[r].state] == SetQoS {
        AskStep(s, s, nif, r, RequestQoS(id), PendingSetQoS, c);
      }
    }
  }

  // ---------- filter identity across one action ----------

  lemma UniqueKept(s: State, t: State)
    requires Unique(s) && FiltersKept(s, t)
    requires t.current.Some? ==> t.current.value in t.req && t.current.value in s.req
    ensures Unique(t)
  {
  }

  lemma FitKept(s: State, t: State)
    requires Fit(s) && FiltersKept(s, t)
    requires t.current.Some? ==> t.current.value in t.req && t.current.value in s.req
    ensures Fit(t) && Load(t) <= Load(s)
  {
    hide Unique, AddingState;
    UniqueKept(s, t);
    SubsetSize(Taken(t.marked, InFlight(t.req, t.current)), Taken(s.marked, InFlight(s.req, s.current)));
    SubsetSize(Owed(t.req), Owed(s.req));
  }

  /** A reservation picks an identity that clashes with nothing reported so far. */
  lemma ReservedUnique(s: State, r: RequestRef, c: ContextRef, f: FlowRef)
    requires Unique(s) && s.current == Some(r) && r in s.req && c in s.ctx && f in s.flows
    requires FreeId(s.ctx[c].filters) >= 0
    requires FreePrecedence(s.marked) >= 0
    ensures Unique(Reserved(s, r, c, f))
  {
    var t := Reserved(s, r, c, f);
    var filter := t.req[r].added.value.1;
    forall d, i | d in s.ctx && 0 <= i < |s.ctx[d].filters|
      ensures s.ctx[d].filters[i].precedence != filter.precedence
      ensures d == c ==> s.ctx[d].filters[i].id != filter.id
    {
      assert s.marked[s.ctx[d].filters[i].precedence];
      if d == c {
        assert !UsesId(s.ctx[c].filters, filter.id);
      }
    }
  }

  /** With room in the map there is a free precedence. */
  lemma RoomIsFree(s: State)
    requires |s.marked| == KMaxEvaluationPrecedences
    requires |Taken(s.marked, InFlight(s.req, s.current))| < KMaxEvaluationPrecedences
    ensures FreePrecedence(s.marked) >= 0
  {
    SubsetSize(Marked(s.marked), Taken(s.marked, InFlight(s.req, s.current)));
    FreeExactlyWhenRoom(s.marked);
  }

  /** The reservation takes the place that was kept for it. */
  lemma ReservedFit(s: State, r: RequestRef, c: ContextRef, f: FlowRef)
    requires Fit(s) && s.current == Some(r) && r in s.req && c in s.ctx && f in s.flows
    requires Owing(s.req[r]) && s.req[r].state == AddingState(s.req[r].kind)
    requires FreeId(s.ctx[c].filters) >= 0
    ensures FreePrecedence(s.marked) >= 0
    ensures Fit(Reserved(s, r, c, f)) && Load(Reserved(s, r, c, f)) <= Load(s)
  {
    hide Unique, FreeId, FreePrecedence, AddingState;
    var t := Reserved(s, r, c, f);
    assert r in Owed(s.req);
    MarkedLength(s);
    RoomIsFree(s);
    ReservedUnique(s, r, c, f);
    FreeIsUnmarked(s.marked);
    var p := FreePrecedence(s.marked);
    assert Taken(t.marked, InFlight(t.req, t.current)) == Taken(s.marked, None) + {p};
    assert Owed(t.req) == Owed(s.req) - {r};
  }

  lemma MarkedLength(s: State)
    requires Unique(s)
    ensures |s.marked| == KMaxEvaluationPrecedences
  {
  }

  /** What the request asks for when its flow is not covered and there is an identifier for it. */
  predicate AsksForFilter(s: State, r: RequestRef)
    requires Ok(s) && Acting(s, r)
  {
    && Table(s.req[r].kind)[s.req[r].state] == AddPacketFilter
    && s.req[r].context.Some? && s.req[r].flow.Some?
    && (RequestParts(s, r);
        var filters := s.ctx[s.req[r].context.value].filters;
        LastMatch(s.flows[s.req[r].flow.value].filter, filters) < 0 && FreeId(filters) >= 0)
  }

  function FilterCall(s: State, r: RequestRef): Control
    requires Ok(s) && Acting(s, r) && AsksForFilter(s, r)
  {
    var c, f := s.req[r].context.value, s.req[r].flow.value;
    RequestParts(s, r);
    ModifyTft(s.ctx[c].contextId, AddFilters, [Reserved(s, r, c, f).flows[f].filter])
  }

  /**
   The action that adds a filter keeps identities unique exactly when the map has a free
   precedence: with a full map it sends a filter without one, unless the network refuses it.
  */
  lemma AddingNeedsRoom(s: State, nif: Network, r: RequestRef)
    requires Ok(s) && Acting(s, r) && AsksForFilter(s, r) && Unique(s)
    ensures Unique(Act(s, nif, r).0)
            <==> FreePrecedence(s.marked) >= 0 || nif(s.controls + [FilterCall(s, r)]) < 0
  {
    hide Ok, Fail, LastMatch, Reserve, FreeId, Reserved, Unique, FiltersKept, FreePrecedence, Table, Asked;
    QueueParts(s);
    RequestParts(s, r);
    NotLast(s.req[r].kind, s.req[r].state);
    var c, f := s.req[r].context.value, s.req[r].flow.value;
    ReservedOk(s, r, c, f);
    ReservedFilter(s, r, c, f);
    var m := Reserved(s, r, c, f);
    var op := FilterCall(s, r);
    AskedOk(m, r, op, PendingPacketFilterAdd);
    AskedCalls(m, r, op, PendingPacketFilterAdd);
    var asked := Asked(m, r, op, PendingPacketFilterAdd);
    AskStep(s, m, nif, r, op, PendingPacketFilterAdd, Some(c));
    var t := Act(s, nif, r).0;
    if nif(asked.controls) < 0 {
      assert r in asked.req && asked.current == Some(r);
      var denied := Denied(op, nif(asked.controls));
      HeardOk(asked, r, denied);
      FailOk(Heard(asked, r, denied), r, Some(c), nif(asked.controls));
      RefusedUnique(s, r, c, f, t);
    } else if FreePrecedence(s.marked) >= 0 {
      ReservedUnique(s, r, c, f);
      UniqueKept(m, asked);
    } else {
      ExhaustedClashes(s, r, c, f, asked);
    }
  }

  lemma AskedCalls(s: State, r: RequestRef, op: Control, expected: Expected)
    requires r in s.req
    ensures Asked(s, r, op, expected).controls == s.controls + [op]
    ensures r in Asked(s, r, op, expected).req && Asked(s, r, op, expected).req[r].added == s.req[r].added
            && Asked(s, r, op, expected).current == s.current
  {
  }

  /** A refused filter is forgotten; only its precedence stays marked. */
  lemma RefusedUnique(s: State, r: RequestRef, c: ContextRef, f: FlowRef, t: State)
    requires Unique(s) && r in s.req && c in s.ctx && f in s.flows
    requires FiltersKept(Reserved(s, r, c, f), t) && t.current.None?
    ensures Unique(t)
  {
    hide FreePrecedence, FreeId;
    assert forall p :: 0 <= p < |s.marked| && s.marked[p] ==> t.marked[p];
  }

  /** A filter without a precedence is no identity. */
  lemma ExhaustedClashes(s: State, r: RequestRef, c: ContextRef, f: FlowRef, t: State)
    requires r in s.req && c in s.ctx && f in s.flows && FreePrecedence(s.marked) < 0
    requires t.current == Some(r) && r in t.req && t.req[r].added == Reserved(s, r, c, f).req[r].added
    ensures !Unique(t)
  {
    hide FreePrecedence, FreeId, PrecedencesDistinct;
  }

  lemma ReservedFilter(s: State, r: RequestRef, c: ContextRef, f: FlowRef)
    requires Ok(s) && s.current == Some(r) && r in s.req && c in s.ctx && f in s.flows
    ensures var t := Reserved(s, r, c, f);
            && f in t.flows && t.flows[f].filter.precedence == FreePrecedence(s.marked)
            && t.req.Keys == s.req.Keys && r in t.req && t.req[r].kind == s.req[r].kind
               && t.req[r].state == s.req[r].state
            && t.flows.Keys == s.flows.Keys
  {
    hide Ok;
    ReservedOk(s, r, c, f);
  }

  /** The request has not come to its adding state yet, or is past it. */
  predicate Unadded(q: Request) {
    q.added.Some? ==> AddingState(q.kind) < q.state
  }

  lemma AddsHere(q: Request)
    requires q.state < |Table(q.kind)| && Table(q.kind)[q.state] == AddPacketFilter
    ensures Adds(q.kind) && q.state == AddingState(q.kind)
  {
  }

  /** The action that adds a filter finds room for it. */
  lemma AddPacketFilterFit(s: State, nif: Network, r: RequestRef)
    requires Ok(s) && Acting(s, r) && Table(s.req[r].kind)[s.req[r].state] == AddPacketFilter
    requires Fit(s) && Unadded(s.req[r])
    ensures Fit(ActAddPacketFilter(s, nif, r).0) && Load(ActAddPacketFilter(s, nif, r).0) <= Load(s)
    ensures !ActAddPacketFilter(s, nif, r).1 ==> ActAddPacketFilter(s, nif, r).0 == s
  {
    hide Ok, Ask, Fail, LastMatch, Reserve, FreeId, Reserved, Fit, Load, FiltersKept, Table, FreePrecedence;
    AddsHere(s.req[r]);
    NotLast(s.req[r].kind, s.req[r].state);
    QueueParts(s);
    if s.req[r].context.Some? && s.req[r].flow.Some? {
      RequestParts(s, r);
      var c := s.req[r].context.value;
      var f := s.req[r].flow.value;
      var filters := s.ctx[c].filters;
      if LastMatch(s.flows[f].filter, filters) < 0 {
        var t := ActAddPacketFilter(s, nif, r).0;
        if FreeId(filters) < 0 {
          FailStep(s, r, Some(c), FreeId(filters));
          FitKept(s, t);
        } else {
          ReservedOk(s, r, c, f);
          var m := Reserved(s, r, c, f);
          var op := ModifyTft(s.ctx[c].contextId, AddFilters, [m.flows[f].filter]);
          ReservedFilter(s, r, c, f);
          AskStep(s, m, nif, r, op, PendingPacketFilterAdd, Some(c));
          ReservedFit(s, r, c, f);
          StaysCurrent(s, t, r);
          FitKept(m, t);
        }
      }
    }
  }

  lemma StaysCurrent(s: State, t: State, r: RequestRef)
    requires r in s.req && StepOk(s, t, r, false)
    ensures t.current.Some? ==> t.current == Some(r) && r in t.req
  {
    hide Ok;
  }

  /** Every action keeps identities unique and the map roomy enough. */
  lemma ActFit(s: State, nif: Network, r: RequestRef)
    requires Ok(s) && Acting(s, r) && Fit(s) && Unadded(s.req[r])
    ensures Fit(Act(s, nif, r).0) && Load(Act(s, nif, r).0) <= Load(s)
    ensures !Act(s, nif, r).1 ==> r in Act(s, nif, r).0.req && Act(s, nif, r).0.req[r].added == s.req[r].added
  {
    hide Ok, Fit, Load, ActAddPacketFilter, Table, Waiting, Onwards;
    ActOk(s, nif, r);
    if Table(s.req[r].kind)[s.req[r].state] == AddPacketFilter {
      AddPacketFilterFit(s, nif, r);
    } else {
      FitKept(s, Act(s, nif, r).0);
      if !Act(s, nif, r).1 {
        KeptAdded(s, Act(s, nif, r).0, r);
      }
    }
  }

  lemma KeptAdded(s: State, t: State, r: RequestRef)
    requires FiltersKept(s, t) && r in s.req && r in t.req
    ensures t.req[r].added == s.req[r].added
  {
  }
}
