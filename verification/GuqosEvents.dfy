/**
 Everything that can happen to a CNif: calls of the QoS framework
 (telephonyprotocols/gprsumtsqosprt/src/guqos.cpp), events of the network
 (CNif::Event in iface.cpp) and timers, each as a function on the state.
*/
module GuqosEvents {
  import opened Wrappers
  import opened Sequences
  import opened PacketFilters
  import opened Tft
  import opened GuqosState
  import opened GuqosHeap
  import opened GuqosRequests
  import opened GuqosSteps
  import opened GuqosLoops

  /** The state of a context as the network reports it. */
  datatype Report = Report(status: ContextStatus, tft: Slots, negotiated: Negotiated)

  datatype Event =
    // calls of the QoS framework
    | OpenFlow(flow: FlowRef, filter: PacketFilter)
    | CloseFlow(flow: FlowRef)
    | ReleaseFlow(flow: FlowRef)
    | OpenChannel(channelId: int, flow: FlowRef, sblp: bool)
    | CloseChannel(channelId: int)
    | NegotiateChannel(channelId: int, sblp: bool)
    | JoinChannel(channelId: int, flow: FlowRef)
    | LeaveChannel(channelId: int, flow: FlowRef)
    | NegotiateFlow(flow: FlowRef, policy: bool, sblp: bool)
    | ScheduleDeletion(contextId: int)
    | SendPacket(flow: FlowRef, accepted: int)
    // events of the network
    | PrimaryCreated(status: ContextStatus)
    | SecondaryCreated(contextId: int, status: ContextStatus, reason: int, err: int)
    | ContextBlocked(contextId: int, status: ContextStatus)
    | ContextUnblocked(contextId: int, status: ContextStatus)
    | ContextDeleted(contextId: int, status: ContextStatus, reason: int)
    | ParametersChanged(contextId: int, report: Report, reason: int)
    | QoSSet(contextId: int, reason: int)
    | TftModified(contextId: int, operation: TftOperation, reason: int)
    | Activated(contextId: int, report: Report, reason: int)
    | ModifiedActive(contextId: int, report: Report, reason: int)
    // timers
    | QueueTimer
    | ContextTimer(context: ContextRef)

  // ---------- looking up contexts ----------

  /** CNif::FindContext: the first context of the list with that network identifier. */
  function FindContext(contexts: seq<ContextRef>, ctx: map<ContextRef, Context>, id: int): (r: Option<ContextRef>)
    requires forall c :: c in contexts ==> c in ctx
    ensures r.Some? ==> r.value in contexts && ctx[r.value].contextId == id
    ensures r.None? ==> forall c :: c in contexts ==> ctx[c].contextId != id
  {
    if contexts == [] then None
    else if ctx[contexts[0]].contextId == id then Some(contexts[0])
    else FindContext(contexts[1..], ctx, id)
  }

  /** CNif::FindChannel */
  function FindChannel(contexts: seq<ContextRef>, ctx: map<ContextRef, Context>,
                       channelId: int): (r: Option<ContextRef>)
    requires forall c :: c in contexts ==> c in ctx
    ensures r.Some? ==> r.value in contexts && ctx[r.value].channelId == channelId
    ensures r.None? ==> forall c :: c in contexts ==> ctx[c].channelId != channelId
  {
    if contexts == [] then None
    else if ctx[contexts[0]].channelId == channelId then Some(contexts[0])
    else FindChannel(contexts[1..], ctx, channelId)
  }

  function ContextOf(s: State, id: int): (r: Option<ContextRef>)
    requires Ok(s)
    ensures r.Some? ==> r.value in s.ctx && s.ctx[r.value].contextId == id
  {
    DeleteReady(s);
    FindContext(s.contexts, s.ctx, id)
  }

  function Channel(s: State, channelId: int): (r: Option<ContextRef>)
    requires Ok(s)
    ensures r.Some? ==> r.value in s.ctx && s.ctx[r.value].channelId == channelId
  {
    DeleteReady(s);
    FindChannel(s.contexts, s.ctx, channelId)
  }

  // ---------- calls of the QoS framework ----------

  /** No request refers to flow `f` any more (CancelPendingRequest for a flow). */
  function CancelFlow(s: State, f: FlowRef): State {
    s.(req := map r | r in s.req :: if s.req[r].flow == Some(f) then s.req[r].(flow := None) else s.req[r])
  }

  /** Flow `f`'s context, if not the default one, gets a Close request to update its filters. */
  function ScheduleCleanup(s: State, f: FlowRef): State
    requires f in s.flows
  {
    var c := s.flows[f].context;
    if c.Some? && c != Some(s.primary) then AddRequest(s, FreshRequest(Close, None, c, 0, false)) else s
  }

  function DoOpenFlow(s: State, f: FlowRef, filter: PacketFilter): State
    requires Ok(s)
  {
    DeleteReady(s);
    if f in s.flows then s else Attach(s, f, filter, s.primary)
  }

  function DoCloseFlow(s: State, f: FlowRef): State
    requires Ok(s)
  {
    if f !in s.flows then s
    else
      AttachedFlow(s, f);
      Detach(CancelFlow(ScheduleCleanup(s, f), f), f)
  }

  function DoReleaseFlow(s: State, f: FlowRef): State
    requires Ok(s)
  {
    if f !in s.flows then s
    else
      AttachedFlow(s, f);
      SetFlowContext(ScheduleCleanup(CancelFlow(s, f), f), f, s.primary)
  }

  function Refuse(s: State, reason: int): State {
    Emit(s, [Refused(reason)])
  }

  function DoOpenChannel(s: State, channelId: int, f: FlowRef, sblp: bool): State
    requires Ok(s)
  {
    if channelId <= 0 then Refuse(s, KErrArgument)
    else if f !in s.flows then Refuse(s, KErrNotFound)
    else if Channel(s, channelId).Some? then Refuse(s, KErrAlreadyExists)
    else AddRequest(s, FreshRequest(Open, Some(f), None, channelId, sblp))
  }

  function DoCloseChannel(s: State, channelId: int): State
    requires Ok(s)
  {
    var c := Channel(s, channelId);
    if channelId <= 0 || c.None? then s
    else if c.value == s.primary then Touch(s, c.value, s.ctx[c.value].(channelId := 0))
    else RemoveContext(s, c.value)
  }

  /** The network is told, then the context goes. */
  function RemoveContext(s: State, c: ContextRef): State
    requires Ok(s) && c in s.ctx
  {
    RemoveReady(s, c);
    DeletePdpContext(DeleteOnNetwork(s, c), c)
  }

  lemma RemoveReady(s: State, c: ContextRef)
    requires Ok(s) && c in s.ctx
    ensures var told := DeleteOnNetwork(s, c);
            && Ok(told) && told.primary in told.ctx && c in told.ctx
            && (forall x :: x in told.contexts <==> x in told.ctx)
            && (forall x :: x in told.pending <==> x in told.req)
            && s.controls <= told.controls && FiltersKept(s, told)
            && told.req == s.req && told.current == s.current
            && (Settled(s) ==> Settled(told))
  {
    hide Ok;
    DeleteReady(s);
    if c != s.primary {
      ControlOk(s, DeleteContext(s.ctx[c].contextId));
    }
  }

  function DoNegotiateChannel(s: State, channelId: int, sblp: bool): State
    requires Ok(s)
  {
    if channelId <= 0 then Refuse(s, KErrArgument)
    else if Channel(s, channelId).None? then Refuse(s, KErrNotFound)
    else AddRequest(s, FreshRequest(Negotiate, None, Channel(s, channelId), 0, sblp))
  }

  function DoJoinOrLeave(s: State, kind: Kind, channelId: int, f: FlowRef): State
    requires Ok(s)
  {
    if Channel(s, channelId).None? || f !in s.flows then Refuse(s, KErrNotFound)
    else AddRequest(s, FreshRequest(kind, Some(f), Channel(s, channelId), 0, false))
  }

  /** `policy` says whether an extension policy is found for the flow. */
  function DoNegotiateFlow(s: State, f: FlowRef, policy: bool, sblp: bool): State {
    if f !in s.flows || !policy then Refuse(s, KErrNotFound)
    else AddRequest(s, FreshRequest(Open, Some(f), None, 0, sblp))
  }

  function DoScheduleDeletion(s: State, id: int): State
    requires Ok(s)
  {
    var c := ContextOf(s, id);
    if c.None? then s else AddRequest(s, FreshRequest(Delete, None, c, 0, false))
  }

  /** CFlowData::Send: a packet the network does not take blocks the context. */
  function DoSendPacket(s: State, f: FlowRef, accepted: int): State
    requires Ok(s)
  {
    if f !in s.flows || accepted > 0 then s
    else
      AttachedFlow(s, f);
      Block(s, s.flows[f].context.value)
  }

  // ---------- events of the network ----------

  function DoPrimaryCreated(s: State, status: ContextStatus): State
    requires Ok(s)
  {
    DeleteReady(s);
    SetStatus(s, s.primary, status).(ready := true, issued := true)
  }

  /** A secondary context with no flows and no filters. */
  function NewContextAdded(s: State, id: int, status: ContextStatus): State {
    s.(contexts := s.contexts + [s.nextContext],
       ctx := s.ctx[s.nextContext := PrimaryContext.(contextId := id, status := status)],
       nextContext := s.nextContext + 1)
  }

  function DoSecondaryCreated(s: State, nif: Network, id: int, status: ContextStatus, reason: int, err: int): State
    requires Ok(s) && Settled(s)
  {
    if s.current.None? then SendControl(s, DeleteContext(id))
    else
      var r := s.current.value;
      var m := s.(ready := true);
      if err != KErrNone then
        SendControl(Destruct(Heard(m, r, Failed(PendingCreate, err)), r, Err(err)), DeleteContext(id))
      else
        NewContextOk(m, id, status);
        Run(NewContextAdded(m, id, status), nif, r, PendingCreate, s.nextContext, reason)
  }

  lemma ReadyOk(s: State)
    requires Ok(s) && s.current.Some?
    ensures Ok(s.(ready := true))
  {
    hide Linked, Mirrored, ExactlyOnce, DistinctIds, NoDangling, Queued;
  }

  lemma NewContextOk(s: State, id: int, status: ContextStatus)
    requires Ok(s.(ready := false)) && s.current.Some?
    ensures var t := NewContextAdded(s, id, status);
            && Ok(t) && s.nextContext in t.ctx && s.nextContext !in s.ctx
            && t.ctx.Keys == s.ctx.Keys + {s.nextContext}
  {
    hide Linked, Mirrored, ExactlyOnce, DistinctIds, NoDangling, Queued;
    var t := NewContextAdded(s, id, status);
    assert s.ctx == s.(ready := false).ctx;
    assert s.nextContext !in s.ctx;
    LinkedNew(s.contexts, s.ctx, s.flows, s.nextContext, PrimaryContext.(contextId := id, status := status));
    assert t.ctx.Keys == s.ctx.Keys + {s.nextContext};
    NoDanglingMore(s.req, s.ctx.Keys, s.flows.Keys, s.nextContext);
    if s.notifier {
      MirroredNew(s.contexts, s.ctx, s.flows, s.upcalls, s.nextContext,
        PrimaryContext.(contextId := id, status := status));
    }
    assert DistinctIds([]) by {
      NoIds();
    }
  }

  lemma NoIds()
    ensures DistinctIds([])
  {
  }

  lemma LinkedNew(contexts: seq<ContextRef>, ctx: map<ContextRef, Context>, flows: map<FlowRef, Flow>, c: ContextRef,
                  x: Context)
    requires Linked(contexts, ctx, flows) && c !in ctx && x.flows == [] && x.refs == 0
    ensures Linked(contexts + [c], ctx[c := x], flows)
  {
    assert c !in contexts;
    NoDupAppend(contexts, c);
    hide NoDup;
    forall f | f in flows
      ensures flows[f].context.Some? && flows[f].context.value in ctx && flows[f].context.value != c
    {
    }
  }

  lemma NoDanglingMore(req: map<RequestRef, Request>, contexts: set<ContextRef>, flows: set<FlowRef>, c: ContextRef)
    requires NoDangling(req, contexts, flows)
    ensures NoDangling(req, contexts + {c}, flows)
  {
  }

  lemma MirroredNew(contexts: seq<ContextRef>, ctx: map<ContextRef, Context>, flows: map<FlowRef, Flow>,
                    upcalls: seq<Upcall>, c: ContextRef, x: Context)
    requires Linked(contexts, ctx, flows) && Mirrored(ctx, flows, upcalls) && c !in ctx
    ensures Mirrored(ctx[c := x], flows, upcalls)
  {
    hide NoDup, LastTold;
    forall f | f in flows
      ensures flows[f].context.Some? && flows[f].context.value in ctx && flows[f].context.value != c
    {
    }
  }

  function DoContextBlocked(s: State, id: int, status: ContextStatus): State
    requires Ok(s)
  {
    var c := ContextOf(s, id);
    if c.None? then s else Block(SetStatus(s, c.value, status), c.value)
  }

  function DoContextUnblocked(s: State, id: int, status: ContextStatus): State
    requires Ok(s)
  {
    var c := ContextOf(s, id);
    if c.None? then s else UnBlock(SetStatus(s, c.value, status), c.value)
  }

  /** CPdpContext::GenerateEvent: one upcall for the channel, or one per flow, if an event interface is installed. */
  function Notices(installed: bool, x: Context, failure: bool, reason: int): (r: seq<Upcall>)
    ensures OnlyEvents(r)
  {
    if !installed then []
    else if x.channelId != 0 then [NotifyChannel(x.channelId, failure, reason)]
    else seq(|x.flows|, i requires 0 <= i < |x.flows| => NotifyFlow(x.flows[i], failure, reason))
  }

  function DoContextDeleted(s: State, id: int, status: ContextStatus, reason: int): State
    requires Ok(s)
  {
    var c := ContextOf(s, id);
    if c.None? then s
    else
      DeletedReady(s, c.value, status, reason);
      DeletePdpContext(Announced(s, c.value, status, reason), c.value)
  }

  function Announced(s: State, c: ContextRef, status: ContextStatus, reason: int): State
    requires c in s.ctx
  {
    Emit(SetStatus(s, c, status), Notices(s.notifier, s.ctx[c], true, reason))
  }

  lemma DeletedReady(s: State, c: ContextRef, status: ContextStatus, reason: int)
    requires Ok(s) && c in s.ctx
    ensures var t := Announced(s, c, status, reason);
            && Ok(t) && (Settled(s) ==> Settled(t)) && FiltersKept(s, t) && c in t.ctx
            && t.primary in t.ctx && t.controls == s.controls && t.req == s.req && t.current == s.current
            && (forall x :: x in t.contexts <==> x in t.ctx)
            && (forall x :: x in t.pending <==> x in t.req)
  {
    hide Ok, Announce, DistinctIds, Notices;
    OkAt(s, c);
    TouchOk(s, c, s.ctx[c].(status := status));
    EmitOk(SetStatus(s, c, status), Notices(s.notifier, s.ctx[c], true, reason));
    DeleteReady(Announced(s, c, status, reason));
  }

  function FilterLists(contexts: seq<ContextRef>, ctx: map<ContextRef, Context>): (r: seq<seq<PacketFilter>>)
    requires forall c :: c in contexts ==> c in ctx
    ensures |r| == |contexts|
    ensures forall i :: 0 <= i < |r| ==> r[i] == ctx[contexts[i]].filters
  {
    seq(|contexts|, i requires 0 <= i < |contexts| => ctx[contexts[i]].filters)
  }

  /** CPdpContext::Update up to the status: filters and QoS as reported, precedence map recomputed. */
  function Reported(s: State, c: ContextRef, report: Report): State
    requires Ok(s) && c in s.ctx
  {
    DeleteReady(s);
    var after := s.ctx[c := s.ctx[c].(filters := Occupied(report.tft), negotiated := report.negotiated)];
    s.(ctx := after, marked := Marks(FilterLists(s.contexts, after)))
  }

  function Update(s: State, c: ContextRef, report: Report): State
    requires Ok(s) && c in s.ctx
  {
    SetStatus(Reported(s, c, report), c, report.status)
  }

  function DoParametersChanged(s: State, id: int, report: Report, reason: int): State
    requires Ok(s)
  {
    var c := ContextOf(s, id);
    if c.None? then s else Emit(Update(s, c.value, report), Notices(s.notifier, s.ctx[c.value], false, reason))
  }

  /** A reply is delivered to the request being served, whoever asked for it. */
  function Reply(s: State, nif: Network, reply: Expected, c: ContextRef, reason: int): State
    requires Ok(s) && Settled(s) && c in s.ctx
  {
    if s.current.None? then s else Run(s, nif, s.current.value, reply, c, reason)
  }

  function DoQoSSet(s: State, nif: Network, id: int, reason: int): State
    requires Ok(s) && Settled(s)
  {
    var c := ContextOf(s, id);
    if c.None? then s else Reply(s, nif, PendingSetQoS, c.value, reason)
  }

  function TftReply(operation: TftOperation): Expected {
    match operation
    case AddFilters => PendingPacketFilterAdd
    case RemoveFilters => PendingPacketFilterRemove
    case DeleteTft => PendingTFTRemove
    case AddSblp => PendingSblpParameterAdd
    case RemoveSblp => PendingSblpParameterRemove
    case OtherOperation => PendingAny
  }

  function DoTftModified(s: State, nif: Network, id: int, operation: TftOperation, reason: int): State
    requires Ok(s) && Settled(s)
  {
    var c := ContextOf(s, id);
    if c.None? then s else Reply(s, nif, TftReply(operation), c.value, reason)
  }

  /** ActivateReply and ModifyActiveReply before they reach the request. */
  function Confirmed(s: State, c: ContextRef, report: Report): State
    requires Ok(s) && c in s.ctx
  {
    var m := Update(s, c, report);
    if report.status == StatusActive then UnBlock(m, c) else m
  }

  function DoConfirmed(s: State, nif: Network, reply: Expected, id: int, report: Report, reason: int): State
    requires Ok(s) && Settled(s) && ValidSlots(report.tft)
  {
    var c := ContextOf(s, id);
    if c.None? then s
    else
      ConfirmedOk(s, c.value, report);
      Reply(Confirmed(s, c.value, report), nif, reply, c.value, reason)
  }

  lemma ReportedOk(s: State, c: ContextRef, report: Report)
    requires Ok(s) && c in s.ctx && ValidSlots(report.tft)
    ensures var t := Reported(s, c, report);
            && Ok(t) && (Settled(s) ==> Settled(t)) && t.ctx.Keys == s.ctx.Keys
            && t.req == s.req && t.current == s.current && t.controls == s.controls && t.ready == s.ready
               && t.notifier == s.notifier
  {
    hide Ok, Marks, Announce, DistinctIds, Occupied, AsMap;
    DeleteReady(s);
    OkAt(s, c);
    OccupiedIsMap(report.tft);
    var x := s.ctx[c].(filters := Occupied(report.tft), negotiated := report.negotiated);
    TouchOk(s, c, x);
    var m := Touch(s, c, x);
    assert m.upcalls == s.upcalls;
    MarkedOk(m, Marks(FilterLists(s.contexts, m.ctx)));
    assert Reported(s, c, report) == m.(marked := Marks(FilterLists(s.contexts, m.ctx)));
    assert m.ctx.Keys == s.ctx.Keys;
  }

  lemma MarkedOk(s: State, marked: seq<bool>)
    requires Ok(s) && |marked| == KMaxEvaluationPrecedences
    ensures Ok(s.(marked := marked))
  {
    hide Linked, Mirrored, ExactlyOnce, DistinctIds, NoDangling, Queued;
  }

  lemma UpdateOk(s: State, c: ContextRef, report: Report)
    requires Ok(s) && c in s.ctx && ValidSlots(report.tft)
    ensures var t := Update(s, c, report);
            && Ok(t) && (Settled(s) ==> Settled(t)) && t.ctx.Keys == s.ctx.Keys
            && t.req == s.req && t.current == s.current && t.controls == s.controls && t.ready == s.ready
               && t.notifier == s.notifier
            && FiltersKept(Reported(s, c, report), t)
  {
    hide Ok, Reported, Announce, DistinctIds;
    ReportedOk(s, c, report);
    var m := Reported(s, c, report);
    OkAt(m, c);
    TouchOk(m, c, m.ctx[c].(status := report.status));
    assert Update(s, c, report).ctx.Keys == m.ctx.Keys;
  }

  lemma ConfirmedOk(s: State, c: ContextRef, report: Report)
    requires Ok(s) && c in s.ctx && ValidSlots(report.tft)
    ensures var t := Confirmed(s, c, report);
            && Ok(t) && (Settled(s) ==> Settled(t)) && t.ctx.Keys == s.ctx.Keys
            && t.req == s.req && t.current == s.current && t.controls == s.controls && t.ready == s.ready
               && t.notifier == s.notifier
            && FiltersKept(Reported(s, c, report), t)
  {
    hide Ok, Reported, Update, Announce, DistinctIds;
    UpdateOk(s, c, report);
    var m := Update(s, c, report);
    if report.status == StatusActive {
      OkAt(m, c);
      TouchOk(m, c, m.ctx[c].(blocked := false));
      assert UnBlock(m, c).ctx.Keys == m.ctx.Keys;
    }
  }

  // ---------- timers ----------

  function DoQueueTimer(s: State, nif: Network): State
    requires Ok(s)
  {
    if !s.issued then s
    else
      FireOk(s);
      RunPending(s.(issued := false), nif)
  }

  lemma FireOk(s: State)
    requires Ok(s) && s.issued
    ensures OkAsleep(s.(issued := false))
  {
    assert s.(issued := false).(issued := true) == s;
  }

  /** CPdpContext::Timeout */
  function DoContextTimer(s: State, c: ContextRef): State
    requires Ok(s)
  {
    if c !in s.ctx || !s.ctx[c].expiring then s
    else
      ExpiredOk(s, c);
      var m := Expired(s, c);
      if m.ctx[c].flows == [] then RemoveContext(m, c)
      else AddRequest(m, FreshRequest(Close, None, Some(c), 0, false))
  }

  function Expired(s: State, c: ContextRef): State
    requires c in s.ctx
  {
    Touch(s, c, s.ctx[c].(expiring := false))
  }

  lemma ExpiredOk(s: State, c: ContextRef)
    requires Ok(s) && c in s.ctx
    ensures var t := Expired(s, c);
            && Ok(t) && (Settled(s) ==> Settled(t)) && FiltersKept(s, t) && c in t.ctx
            && t.req == s.req && t.current == s.current && t.controls == s.controls
  {
    hide Ok, Announce, DistinctIds;
    OkAt(s, c);
    TouchOk(s, c, s.ctx[c].(expiring := false));
  }

  // ---------- one event ----------

  /** Reports carry templates, and a template keeps identifiers distinct. */
  ghost predicate WellFormed(e: Event) {
    (e.ParametersChanged? || e.Activated? || e.ModifiedActive?) ==> ValidSlots(e.report.tft)
  }

  function Step(s: State, nif: Network, e: Event): State
    requires Ok(s) && Settled(s) && WellFormed(e)
  {
    match e
    case OpenFlow(f, filter) => DoOpenFlow(s, f, filter)
    case CloseFlow(f) => DoCloseFlow(s, f)
    case ReleaseFlow(f) => DoReleaseFlow(s, f)
    case OpenChannel(channelId, f, sblp) => DoOpenChannel(s, channelId, f, sblp)
    case CloseChannel(channelId) => DoCloseChannel(s, channelId)
    case NegotiateChannel(channelId, sblp) => DoNegotiateChannel(s, channelId, sblp)
    case JoinChannel(channelId, f) => DoJoinOrLeave(s, Join, channelId, f)
    case LeaveChannel(channelId, f) => DoJoinOrLeave(s, Leave, channelId, f)
    case NegotiateFlow(f, policy, sblp) => DoNegotiateFlow(s, f, policy, sblp)
    case ScheduleDeletion(id) => DoScheduleDeletion(s, id)
    case SendPacket(f, accepted) => DoSendPacket(s, f, accepted)
    case PrimaryCreated(status) => DoPrimaryCreated(s, status)
    case SecondaryCreated(id, status, reason, err) => DoSecondaryCreated(s, nif, id, status, reason, err)
    case ContextBlocked(id, status) => DoContextBlocked(s, id, status)
    case ContextUnblocked(id, status) => DoContextUnblocked(s, id, status)
    case ContextDeleted(id, status, reason) => DoContextDeleted(s, id, status, reason)
    case ParametersChanged(id, report, reason) => DoParametersChanged(s, id, report, reason)
    case QoSSet(id, reason) => DoQoSSet(s, nif, id, reason)
    case TftModified(id, operation, reason) => DoTftModified(s, nif, id, operation, reason)
    case Activated(id, report, reason) => DoConfirmed(s, nif, PendingActivate, id, report, reason)
    case ModifiedActive(id, report, reason) => DoConfirmed(s, nif, PendingModifyActive, id, report, reason)
    case QueueTimer => DoQueueTimer(s, nif)
    case ContextTimer(c) => DoContextTimer(s, c)
  }
}
