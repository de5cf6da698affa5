/**
 The request state machines of telephonyprotocols/gprsumtsqosprt/src/async_request.cpp:
 the actions of the tables, failure, and the loops that run actions until one
 of them waits for the network or completes the request.
*/
module GuqosRequests {
  import opened Wrappers
  import opened Sequences
  import opened PacketFilters
  import opened Tft
  import opened GuqosState
  import opened GuqosHeap

  /** Request `r` is being served, in a state of its table, and its context is alive. */
  ghost predicate Acting(s: State, r: RequestRef) {
    && s.current == Some(r)
    && r in s.req
    && s.req[r].state < |Table(s.req[r].kind)|
    && (s.req[r].context.Some? ==> s.req[r].context.value in s.ctx)
  }

  function SetRequest(s: State, r: RequestRef, q: Request): State {
    s.(req := s.req[r := q])
  }

  function SendControl(s: State, op: Control): State {
    s.(controls := s.controls + [op])
  }

  /** CPdpContext::Delete: the network is told, except about the default context. */
  function DeleteOnNetwork(s: State, c: ContextRef): State
    requires c in s.ctx
  {
    if c == s.primary then s else SendControl(s, DeleteContext(s.ctx[c].contextId))
  }

  /** The Failure handlers. An Open also deletes the context it has just created. */
  function Fail(s: State, r: RequestRef, c: Option<ContextRef>, reason: int): State
    requires Ok(s) && s.current == Some(r) && r in s.req
    requires c.Some? ==> c.value in s.ctx
  {
    var q := s.req[r];
    if q.kind == Open && c.Some? && q.newContext == c then
      Destruct(AbandonContext(s, r, c.value), r, Err(reason))
    else
      Destruct(s, r, FailureCode(q.kind, reason))
  }

  /** The part of COpenChannel::Failure that deletes the new context. */
  function AbandonContext(s: State, r: RequestRef, c: ContextRef): (t: State)
    requires Ok(s) && s.current == Some(r) && r in s.req && c in s.ctx && s.req[r].kind == Open
    ensures r in t.req
  {
    var forgotten := SetRequest(s, r, s.req[r].(newContext := None));
    var told := DeleteOnNetwork(forgotten, c);
    AbandonReady(s, r, c);
    AbandonContextOk(s, r, c);
    DeletePdpContext(told, c)
  }

  lemma SetRequestOk(s: State, r: RequestRef, q: Request)
    requires Ok(s) && s.current == Some(r) && r in s.req
    requires q.kind == s.req[r].kind
    requires q.flow.Some? ==> q.flow.value in s.flows
    requires q.target.Some? ==> q.target.value in s.ctx
    requires q.newContext.Some? ==> q.newContext.value in s.ctx
    requires if q.kind == Open then q.target.None? else q.newContext.None?
    ensures Ok(SetRequest(s, r, q))
    ensures SetRequest(s, r, q).req.Keys == s.req.Keys
  {
    hide Linked, Mirrored, ExactlyOnce, DistinctIds, Queued, NoDangling;
    assert SetRequest(s, r, q).req.Keys == s.req.Keys;
    QueuedSet(s.pending, s.req, r, q);
    DanglingSet(s.req, s.ctx.Keys, s.flows.Keys, r, q);
  }

  lemma QueuedSet(pending: seq<RequestRef>, req: map<RequestRef, Request>, r: RequestRef, q: Request)
    requires Queued(pending, req, Some(r)) && r in req
    ensures Queued(pending, req[r := q], Some(r))
  {
    hide NoDup, Idle;
  }

  lemma DanglingSet(req: map<RequestRef, Request>, contexts: set<ContextRef>, flows: set<FlowRef>, r: RequestRef,
                    q: Request)
    requires NoDangling(req, contexts, flows) && r in req
    requires q.flow.Some? ==> q.flow.value in flows
    requires q.target.Some? ==> q.target.value in contexts
    requires q.newContext.Some? ==> q.newContext.value in contexts
    requires if q.kind == Open then q.target.None? else q.newContext.None?
    ensures NoDangling(req[r := q], contexts, flows)
  {
  }

  lemma ControlOk(s: State, op: Control)
    requires Ok(s)
    ensures Ok(SendControl(s, op))
  {
    hide Linked, Mirrored, ExactlyOnce, DistinctIds, Queued, NoDangling;
  }

  lemma RequestParts(s: State, r: RequestRef)
    requires Ok(s) && r in s.req
    ensures s.req[r].flow.Some? ==> s.req[r].flow.value in s.flows
    ensures s.req[r].target.Some? ==> s.req[r].target.value in s.ctx
    ensures s.req[r].newContext.Some? ==> s.req[r].newContext.value in s.ctx
    ensures if s.req[r].kind == Open then s.req[r].target.None? else s.req[r].newContext.None?
    ensures s.current != Some(r) ==> Idle(s.req[r])
  {
    hide Linked, Mirrored, ExactlyOnce, DistinctIds, NoDup;
  }

  /** What DeletePdpContext needs of the state. */
  lemma DeleteReady(s: State)
    requires Ok(s)
    ensures s.primary in s.ctx
    ensures forall x :: x in s.contexts <==> x in s.ctx
    ensures forall x :: x in s.pending <==> x in s.req
  {
    OkParts(s);
    OnlyContext(s);
    hide *;
    QueueParts(s);
  }

  lemma AbandonReady(s: State, r: RequestRef, c: ContextRef)
    requires Ok(s) && s.current == Some(r) && r in s.req && c in s.ctx && s.req[r].kind == Open
    ensures var told := DeleteOnNetwork(SetRequest(s, r, s.req[r].(newContext := None)), c);
            && Ok(told) && told.primary in told.ctx && c in told.ctx
            && (forall x :: x in told.contexts <==> x in told.ctx)
            && (forall x :: x in told.pending <==> x in told.req)
            && s.controls <= told.controls
  {
    hide Ok;
    RequestParts(s, r);
    var forgotten := SetRequest(s, r, s.req[r].(newContext := None));
    SetRequestOk(s, r, s.req[r].(newContext := None));
    if c != s.primary {
      ControlOk(forgotten, DeleteContext(s.ctx[c].contextId));
    }
    DeleteReady(DeleteOnNetwork(forgotten, c));
  }

  /** The Open survives the deletion of its own new context, and only then completes. */
  lemma AbandonContextOk(s: State, r: RequestRef, c: ContextRef)
    requires Ok(s) && s.current == Some(r) && r in s.req && c in s.ctx && s.req[r].kind == Open
    requires var told := DeleteOnNetwork(SetRequest(s, r, s.req[r].(newContext := None)), c);
             && told.primary in told.ctx && c in told.ctx
             && (forall x :: x in told.contexts <==> x in told.ctx)
             && (forall x :: x in told.pending <==> x in told.req)
    ensures var t := DeletePdpContext(DeleteOnNetwork(SetRequest(s, r, s.req[r].(newContext := None)), c), c);
            && Ok(t) && r in t.req && t.current == Some(r) && t.req[r].kind == Open
            && FiltersKept(s, t)
            && s.controls <= t.controls
            && t.flows.Keys == s.flows.Keys
            && (|t.contexts| < |s.contexts| || (t.contexts == s.contexts && t.pending == s.pending))
  {
    hide Ok, DeletePdpContext, FiltersKept, DeleteOnNetwork;
    AbandonReady(s, r, c);
    var told := DeleteOnNetwork(SetRequest(s, r, s.req[r].(newContext := None)), c);
    ToldShape(s, r, c);
    DeletePdpContextOk(told, c);
    FiltersKeptTransitive(s, told, DeletePdpContext(told, c));
  }

  lemma ToldShape(s: State, r: RequestRef, c: ContextRef)
    requires r in s.req && c in s.ctx && s.current == Some(r) && s.req[r].kind == Open
    ensures var told := DeleteOnNetwork(SetRequest(s, r, s.req[r].(newContext := None)), c);
            && FiltersKept(s, told) && told.flows == s.flows && told.contexts == s.contexts && told.pending == s.pending
            && told.req == s.req[r := s.req[r].(newContext := None)] && told.current == s.current
  {
  }

  lemma FailOk(s: State, r: RequestRef, c: Option<ContextRef>, reason: int)
    requires Ok(s) && s.current == Some(r) && r in s.req
    requires c.Some? ==> c.value in s.ctx
    ensures var t := Fail(s, r, c, reason);
            && Ok(t) && r !in t.req && t.current.None?
            && FiltersKept(s, t)
            && s.controls <= t.controls
            && t.flows.Keys == s.flows.Keys
            && (|t.contexts| < |s.contexts| || (|t.contexts| == |s.contexts| && |t.pending| < |s.pending|))
  {
    hide Ok, AbandonContext;
    var q := s.req[r];
    if q.kind == Open && c.Some? && q.newContext == c {
      AbandonedOk(s, r, c.value);
      DestructOk(AbandonContext(s, r, c.value), r, Err(reason));
    } else {
      DestructOk(s, r, FailureCode(q.kind, reason));
    }
  }

  lemma AbandonedOk(s: State, r: RequestRef, c: ContextRef)
    requires Ok(s) && s.current == Some(r) && r in s.req && c in s.ctx && s.req[r].kind == Open
    ensures var t := AbandonContext(s, r, c);
            && Ok(t) && r in t.req && t.current == Some(r) && t.req[r].kind == Open
            && FiltersKept(s, t)
            && s.controls <= t.controls
            && t.flows.Keys == s.flows.Keys
            && (|t.contexts| < |s.contexts| || (t.contexts == s.contexts && t.pending == s.pending))
  {
    hide Ok, DeletePdpContext;
    AbandonReady(s, r, c);
    AbandonContextOk(s, r, c);
  }

  // ---------- asking the network ----------

  /** SetExpected and one Control call; a refusal fails the request at once (IsOk). */
  function Ask(s: State, nif: Network, r: RequestRef, op: Control, expected: Expected,
               onFailure: Option<ContextRef>): State
    requires Ok(s) && s.current == Some(r) && r in s.req
    requires onFailure.Some? ==> onFailure.value in s.ctx
  {
    var asked := Asked(s, r, op, expected);
    AskedOk(s, r, op, expected);
    if nif(asked.controls) >= 0 then asked
    else
      var code := nif(asked.controls);
      HeardOk(asked, r, Denied(op, code));
      Fail(Heard(asked, r, Denied(op, code)), r, onFailure, code)
  }

  /** Something more is said about the request's conversation. */
  function Heard(s: State, r: RequestRef, x: Exchange): State
    requires r in s.req
  {
    SetRequest(s, r, s.req[r].(said := s.req[r].said + [x]))
  }

  lemma HeardOk(s: State, r: RequestRef, x: Exchange)
    requires Ok(s) && s.current == Some(r) && r in s.req
    ensures var t := Heard(s, r, x);
            && Ok(t) && FiltersKept(s, t) && r in t.req && t.req[r] == s.req[r].(said := s.req[r].said + [x])
            && t == s.(req := t.req) && t.req.Keys == s.req.Keys
  {
    hide Ok;
    RequestParts(s, r);
    SetRequestOk(s, r, s.req[r].(said := s.req[r].said + [x]));
  }

  function Asked(s: State, r: RequestRef, op: Control, expected: Expected): State
    requires r in s.req
  {
    SendControl(SetRequest(s, r, s.req[r].(expected := expected, modified := true,
                                           said := s.req[r].said + [Called(op)])), op)
  }

  lemma AskedOk(s: State, r: RequestRef, op: Control, expected: Expected)
    requires Ok(s) && s.current == Some(r) && r in s.req
    ensures Ok(Asked(s, r, op, expected)) && FiltersKept(s, Asked(s, r, op, expected))
    ensures Asked(s, r, op, expected).ctx == s.ctx && Asked(s, r, op, expected).flows == s.flows
    ensures Asked(s, r, op, expected).req[r]
            == s.req[r].(expected := expected, modified := true, said := s.req[r].said + [Called(op)])
    ensures s.controls <= Asked(s, r, op, expected).controls
  {
    hide Ok;
    RequestParts(s, r);
    var q := s.req[r].(expected := expected, modified := true, said := s.req[r].said + [Called(op)]);
    SetRequestOk(s, r, q);
    ControlOk(SetRequest(s, r, q), op);
  }

  /** The request is gone, and there is less to serve than before. */
  ghost predicate Ended(s: State, t: State, r: RequestRef) {
    && r !in t.req && t.current.None?
    && (|t.contexts| < |s.contexts| || (|t.contexts| == |s.contexts| && |t.pending| < |s.pending|))
  }

  /** The request waits for the reply that its current action asked for. */
  ghost predicate Suspended(s: State, t: State, r: RequestRef)
    requires r in s.req
  {
    && t.current == Some(r) && r in t.req && Waiting(t.req[r])
    && t.req[r].kind == s.req[r].kind && t.req[r].state == s.req[r].state
  }

  /** The action had nothing to ask; the next one may run. */
  ghost predicate Continues(s: State, t: State, r: RequestRef)
    requires r in s.req
  {
    && Acting(t, r)
    && t.req[r].kind == s.req[r].kind && t.req[r].state == s.req[r].state && t.req[r].expected == s.req[r].expected
    && |t.contexts| == |s.contexts| && |t.pending| == |s.pending|
  }

  lemma AskOk(s: State, nif: Network, r: RequestRef, op: Control, expected: Expected, onFailure: Option<ContextRef>)
    requires Ok(s) && s.current == Some(r) && r in s.req
    requires onFailure.Some? ==> onFailure.value in s.ctx
    ensures var t := Ask(s, nif, r, op, expected, onFailure);
            && Ok(t) && FiltersKept(s, t)
            && s.controls + [op] <= t.controls
            && t.flows.Keys == s.flows.Keys
            && (Ended(s, t, r) || t == Asked(s, r, op, expected))
  {
    hide Ok, Fail;
    AskedOk(s, r, op, expected);
    var asked := Asked(s, r, op, expected);
    if nif(asked.controls) < 0 {
      var heard := Heard(asked, r, Denied(op, nif(asked.controls)));
      HeardOk(asked, r, Denied(op, nif(asked.controls)));
      FailOk(heard, r, onFailure, nif(asked.controls));
      FiltersKeptTransitive(asked, heard, Fail(heard, r, onFailure, nif(asked.controls)));
    }
  }

  // ---------- the actions ----------

  /** The own filters of the flows of a list, flow `except` left out. */
  function OwnFilters(list: seq<FlowRef>, flows: map<FlowRef, Flow>, except: Option<FlowRef>): seq<PacketFilter>
    requires forall f :: f in list ==> f in flows
  {
    if list == [] then []
    else (if except == Some(list[0]) then [] else [flows[list[0]].filter]) + OwnFilters(list[1..], flows, except)
  }

  lemma ListedFlows(s: State, c: ContextRef)
    requires Ok(s) && c in s.ctx
    ensures forall f :: f in s.ctx[c].flows ==> f in s.flows
  {
    hide Mirrored, ExactlyOnce, DistinctIds, Queued, NoDangling, NoDup;
  }

  lemma AttachedFlow(s: State, f: FlowRef)
    requires Ok(s) && f in s.flows
    ensures s.flows[f].context.Some? && s.flows[f].context.value in s.ctx
    ensures s.primary in s.ctx
  {
    hide Mirrored, ExactlyOnce, DistinctIds, Queued, NoDangling, NoDup;
  }

  /** CPdpContext::RemovePacketFilter: what the context no longer needs, flow `except` not counted. */
  function UnneededFilters(s: State, c: ContextRef, except: Option<FlowRef>): seq<PacketFilter>
    requires Ok(s) && c in s.ctx
  {
    ListedFlows(s, c);
    Unneeded(s.ctx[c].filters, OwnFilters(s.ctx[c].flows, s.flows, except), c == s.primary)
  }

  /** The request's flow, if any, moved to context `c`. */
  function Rehome(s: State, r: RequestRef, c: ContextRef): State
    requires Ok(s) && r in s.req && c in s.ctx
  {
    if s.req[r].flow.Some? then
      RequestParts(s, r);
      AttachedFlow(s, s.req[r].flow.value);
      SetFlowContext(s, s.req[r].flow.value, c)
    else s
  }

  lemma RehomeOk(s: State, r: RequestRef, c: ContextRef)
    requires Ok(s) && r in s.req && c in s.ctx
    ensures var t := Rehome(s, r, c);
            && Ok(t) && FiltersKept(s, t)
            && t.ctx.Keys == s.ctx.Keys && t.flows.Keys == s.flows.Keys
            && t.req == s.req && t.current == s.current && t.controls == s.controls
            && t.contexts == s.contexts && t.pending == s.pending && t.primary == s.primary
  {
    hide Ok;
    if s.req[r].flow.Some? {
      RequestParts(s, r);
      AttachedFlow(s, s.req[r].flow.value);
      SetFlowContextOk(s, s.req[r].flow.value, c);
    }
  }

  function ActRemovePacketFilter(s: State, nif: Network, r: RequestRef): (State, bool)
    requires Ok(s) && Acting(s, r)
  {
    if s.req[r].context.None? then (s, false)
    else
      var c := s.req[r].context.value;
      DeleteReady(s);
      RehomeOk(s, r, s.primary);
      var m := Rehome(s, r, s.primary);
      var unneeded := UnneededFilters(m, c, s.req[r].flow);
      if (m.ctx[c].refs > 0 || c == m.primary) && unneeded != [] then
        (Ask(m, nif, r, ModifyTft(m.ctx[c].contextId, RemoveFilters, unneeded), PendingPacketFilterRemove, Some(c)),
          true)
      else (m, false)
  }

  function ActAddPacketFilter(s: State, nif: Network, r: RequestRef): (State, bool)
    requires Ok(s) && Acting(s, r)
  {
    if s.req[r].context.None? || s.req[r].flow.None? then (s, false)
    else
      RequestParts(s, r);
      var c := s.req[r].context.value;
      var f := s.req[r].flow.value;
      var filters := s.ctx[c].filters;
      if LastMatch(s.flows[f].filter, filters) >= 0 then (s, false)
      else if FreeId(filters) < 0 then (Fail(s, r, Some(c), FreeId(filters)), true)
      else
        ReservedOk(s, r, c, f);
        var m := Reserved(s, r, c, f);
        (Ask(m, nif, r, ModifyTft(s.ctx[c].contextId, AddFilters, [m.flows[f].filter]), PendingPacketFilterAdd,
          Some(c)), true)
  }

  /** The flow's filter gets an identifier and a precedence, and the precedence is marked. */
  function Reserved(s: State, r: RequestRef, c: ContextRef, f: FlowRef): State
    requires r in s.req && c in s.ctx && f in s.flows
  {
    var p := FreePrecedence(s.marked);
    var filter := s.flows[f].filter.(id := FreeId(s.ctx[c].filters), precedence := p);
    s.(marked := Reserve(s.marked, p),
       flows := s.flows[f := s.flows[f].(filter := filter)],
       req := s.req[r := s.req[r].(added := Some((c, filter)))])
  }

  function ActCommit(s: State, nif: Network, r: RequestRef): (State, bool)
    requires Ok(s) && Acting(s, r)
  {
    if s.req[r].context.None? then (s, false)
    else
      var c := s.req[r].context.value;
      var id := s.ctx[c].contextId;
      if s.ctx[c].status != StatusActive then (Ask(s, nif, r, Activate(id), PendingActivate, Some(c)), true)
      else if s.req[r].modified then (Ask(s, nif, r, ModifyActive(id), PendingModifyActive, Some(c)), true)
      else (s, false)
  }

  function ActRememberCreatedContext(s: State, r: RequestRef): (State, bool)
    requires Ok(s) && Acting(s, r)
  {
    var c := s.req[r].context;
    var m := SetRequest(s, r, s.req[r].(newContext := c));
    (if c.None? then m else m.(ctx := m.ctx[c.value := m.ctx[c.value].(channelId := s.req[r].channelId)]), false)
  }

  function ActAddSblpParameter(s: State, nif: Network, r: RequestRef): (State, bool)
    requires Ok(s) && Acting(s, r)
  {
    var c := s.req[r].context;
    if c.Some? && s.req[r].sblp then
      (Ask(s, nif, r, ModifyTft(s.ctx[c.value].contextId, AddSblp, []), PendingSblpParameterAdd, c), true)
    else (s, false)
  }

  function ActSetQoS(s: State, nif: Network, r: RequestRef): (State, bool)
    requires Ok(s) && Acting(s, r)
  {
    var c := s.req[r].context;
    if c.Some? then (Ask(s, nif, r, RequestQoS(s.ctx[c.value].contextId), PendingSetQoS, c), true) else (s, false)
  }

  function ActAddFlowToContext(s: State, r: RequestRef): (State, bool)
    requires Ok(s) && Acting(s, r)
  {
    var m := if s.req[r].context.Some? then Rehome(s, r, s.req[r].context.value) else s;
    (SetRequest(m, r, s.req[r].(flow := None)), false)
  }

  function ActNegotiationComplete(s: State, r: RequestRef): (State, bool)
    requires Ok(s) && Acting(s, r)
  {
    if s.req[r].context.Some? then
      RehomeOk(s, r, s.req[r].context.value);
      (Destruct(Rehome(s, r, s.req[r].context.value), r, Err(KErrNone)), true)
    else (Destruct(s, r, Err(KErrNone)), true)
  }

  /** CRequestBase::SetContext */
  function WithContext(q: Request, c: Option<ContextRef>): Request {
    if q.context == c then q else q.(context := c, modified := false)
  }

  /** The action of the request's current state; true when it asked the network or ended the request. */
  function Act(s: State, nif: Network, r: RequestRef): (State, bool)
    requires Ok(s) && Acting(s, r)
  {
    match Table(s.req[r].kind)[s.req[r].state]
    case RemovePacketFilter => ActRemovePacketFilter(s, nif, r)
    case Commit => ActCommit(s, nif, r)
    case NewContext => (Ask(s, nif, r, CreateSecondary, PendingCreate, None), true)
    case RememberCreatedContext => ActRememberCreatedContext(s, r)
    case AddPacketFilter => ActAddPacketFilter(s, nif, r)
    case AddSblpParameter => ActAddSblpParameter(s, nif, r)
    case SetQoS => ActSetQoS(s, nif, r)
    case AddFlowToContext => ActAddFlowToContext(s, r)
    case NegotiationComplete => ActNegotiationComplete(s, r)
    case StartWithTargetContext => (SetRequest(s, r, WithContext(s.req[r], s.req[r].target)), false)
    case CompleteRequest => (Destruct(s, r, Err(KErrNone)), true)
  }

  lemma ReservedOk(s: State, r: RequestRef, c: ContextRef, f: FlowRef)
    requires Ok(s) && s.current == Some(r) && r in s.req && c in s.ctx && f in s.flows
    ensures var t := Reserved(s, r, c, f);
            && Ok(t) && t.ctx == s.ctx && t.flows.Keys == s.flows.Keys && t.req.Keys == s.req.Keys
            && t.current == s.current && t.controls == s.controls && t.contexts == s.contexts && t.pending == s.pending
            && t.ready == s.ready && t.notifier == s.notifier
  {
    hide Linked, Mirrored, ExactlyOnce, DistinctIds, NoDangling, Queued;
    var t := Reserved(s, r, c, f);
    assert t.flows.Keys == s.flows.Keys;
    assert t.req.Keys == s.req.Keys;
    ReservedLinked(s.contexts, s.ctx, s.flows, t.flows);
    ReservedQueued(s.pending, s.req, t.req, s.current, r);
    ReservedDangling(s.req, t.req, s.ctx.Keys, s.flows.Keys);
    if s.notifier {
      ReservedMirrored(s.ctx, s.flows, t.flows, s.upcalls);
    }
  }

  lemma ReservedLinked(contexts: seq<ContextRef>, ctx: map<ContextRef, Context>, flows: map<FlowRef, Flow>,
                       after: map<FlowRef, Flow>)
    requires Linked(contexts, ctx, flows) && after.Keys == flows.Keys
    requires forall f :: f in flows ==> after[f].context == flows[f].context
    ensures Linked(contexts, ctx, after)
  {
    hide NoDup;
  }

  lemma ReservedMirrored(ctx: map<ContextRef, Context>, flows: map<FlowRef, Flow>, after: map<FlowRef, Flow>,
                         upcalls: seq<Upcall>)
    requires Mirrored(ctx, flows, upcalls) && after.Keys == flows.Keys
    requires forall f :: f in flows ==> after[f].context == flows[f].context
    ensures Mirrored(ctx, after, upcalls)
  {
    hide LastTold;
  }

  lemma ReservedQueued(pending: seq<RequestRef>, req: map<RequestRef, Request>, after: map<RequestRef, Request>,
                       current: Option<RequestRef>, r: RequestRef)
    requires Queued(pending, req, current) && after.Keys == req.Keys && current == Some(r)
    requires forall x :: x in req && x != r ==> after[x] == req[x]
    ensures Queued(pending, after, current)
  {
    hide NoDup, Idle;
  }

  lemma ReservedDangling(req: map<RequestRef, Request>, after: map<RequestRef, Request>, contexts: set<ContextRef>,
                         flows: set<FlowRef>)
    requires NoDangling(req, contexts, flows) && after.Keys == req.Keys
    requires forall x :: x in req ==> after[x] == req[x].(added := after[x].added)
    ensures NoDangling(after, contexts, flows)
  {
  }
}
