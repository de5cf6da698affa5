/**
 What the calls of the QoS framework, the timers and the plain events of the network do,
 stated on queue, lists, calls and upcalls.
*/
module GuqosCalls {
  import opened Wrappers
  import opened Sequences
  import opened PacketFilters
  import opened Tft
  import opened GuqosState
  import opened GuqosHeap
  import opened GuqosRequests
  import opened GuqosSteps
  import opened GuqosLoops
  import opened GuqosEvents
  import opened GuqosRuns
  import opened GuqosTheorems
  import opened GuqosCodes
  import opened GuqosStory

  // ---------- channels and flows by name ----------

  /** The first context of the list that carries the channel. */
  ghost predicate Carries(s: State, channelId: int, c: ContextRef) {
    exists k: nat :: FirstAt(s, channelId, c, k)
  }

  ghost predicate FirstAt(s: State, channelId: int, c: ContextRef, k: nat) {
    && k < |s.contexts| && s.contexts[k] == c && c in s.ctx && s.ctx[c].channelId == channelId
    && forall i :: 0 <= i < k && s.contexts[i] in s.ctx ==> s.ctx[s.contexts[i]].channelId != channelId
  }

  /** No context carries the channel. */
  ghost predicate Unused(s: State, channelId: int) {
    forall c :: c in s.ctx ==> s.ctx[c].channelId != channelId
  }

  lemma {:induction false} ChannelFirst(contexts: seq<ContextRef>, ctx: map<ContextRef, Context>, channelId: int)
    requires forall c :: c in contexts ==> c in ctx
    ensures var r := FindChannel(contexts, ctx, channelId);
            r.Some? ==> exists k: nat ::
              && k < |contexts| && contexts[k] == r.value && ctx[r.value].channelId == channelId
              && forall i :: 0 <= i < k ==> ctx[contexts[i]].channelId != channelId
  {
    var r := FindChannel(contexts, ctx, channelId);
    if r.Some? {
      if ctx[contexts[0]].channelId == channelId {
        assert contexts[0] == r.value;
      } else {
        ChannelFirst(contexts[1..], ctx, channelId);
        var k: nat :| k < |contexts[1..]| && contexts[1..][k] == r.value
                      && forall i :: 0 <= i < k ==> ctx[contexts[1..][i]].channelId != channelId;
        assert contexts[k + 1] == r.value;
        assert forall i :: 1 <= i < k + 1 ==> contexts[i] == contexts[1..][i - 1];
      }
    }
  }

  lemma {:induction false} ContextFirst(contexts: seq<ContextRef>, ctx: map<ContextRef, Context>, id: int)
    requires forall c :: c in contexts ==> c in ctx
    ensures var r := FindContext(contexts, ctx, id);
            r.Some? ==> exists k: nat ::
              && k < |contexts| && contexts[k] == r.value && ctx[r.value].contextId == id
              && forall i :: 0 <= i < k ==> ctx[contexts[i]].contextId != id
  {
    var r := FindContext(contexts, ctx, id);
    if r.Some? {
      if ctx[contexts[0]].contextId == id {
        assert contexts[0] == r.value;
      } else {
        ContextFirst(contexts[1..], ctx, id);
        var k: nat :| k < |contexts[1..]| && contexts[1..][k] == r.value
                      && forall i :: 0 <= i < k ==> ctx[contexts[1..][i]].contextId != id;
        assert contexts[k + 1] == r.value;
        assert forall i :: 1 <= i < k + 1 ==> contexts[i] == contexts[1..][i - 1];
      }
    }
  }

  /** Events are about the first context of the list that has their identifier. */
  lemma EventsNameTheFirst(s: State, id: int)
    requires Ok(s)
    ensures match ContextOf(s, id)
            case None => forall c :: c in s.ctx ==> s.ctx[c].contextId != id
            case Some(c) => exists k: nat ::
              && k < |s.contexts| && s.contexts[k] == c && c in s.ctx && s.ctx[c].contextId == id
              && forall i :: 0 <= i < k && s.contexts[i] in s.ctx ==> s.ctx[s.contexts[i]].contextId != id
  {
    hide Ok, FindContext;
    DeleteReady(s);
    ContextFirst(s.contexts, s.ctx, id);
  }

  lemma ChannelIs(s: State, channelId: int)
    requires Ok(s)
    ensures Channel(s, channelId).Some? ==> Carries(s, channelId, Channel(s, channelId).value)
    ensures Channel(s, channelId).None? ==> Unused(s, channelId)
  {
    hide Ok, FindChannel;
    DeleteReady(s);
    ChannelFirst(s.contexts, s.ctx, channelId);
    var r := Channel(s, channelId);
    if r.Some? {
      var k: nat :| k < |s.contexts| && s.contexts[k] == r.value
                    && forall i :: 0 <= i < k ==> s.ctx[s.contexts[i]].channelId != channelId;
      assert FirstAt(s, channelId, r.value, k);
    }
  }

  // ---------- requests ----------

  /** A new request waits at the end of the queue, and will be served; nothing else has changed. */
  ghost predicate Queues(s: State, t: State, q: Request) {
    && t == s.(pending := s.pending + [s.nextRequest], req := t.req, nextRequest := s.nextRequest + 1, issued := true)
    && t.req == s.req[s.nextRequest := q]
    && q.state == 0 && q.expected == PendingAny && q.said == [] && q.context.None? && q.newContext.None?
    && q.added.None? && !q.modified
  }

  /** The caller has been told at once that it cannot be; nothing else has changed. */
  ghost predicate Turns(s: State, t: State, reason: int) {
    t == s.(upcalls := s.upcalls + [Refused(reason)])
  }

  /**
   Every call is refused at once, for the first of its reasons that applies, or queues one
   request that carries what was asked for.
  */
  lemma CallsAreQueued(s: State, nif: Network, e: Event)
    requires Ok(s) && Settled(s) && WellFormed(e)
    requires e.OpenChannel? || e.NegotiateChannel? || e.JoinChannel? || e.LeaveChannel? || e.NegotiateFlow?
    ensures var t := Step(s, nif, e);
            match e
            case OpenChannel(channelId, f, sblp) =>
              (if channelId <= 0 then Turns(s, t, -6)
               else if f !in s.flows then Turns(s, t, -1)
               else if !Unused(s, channelId) then Turns(s, t, -11)
               else
                 s.nextRequest in t.req && var q := t.req[s.nextRequest];
                 Queues(s, t, q) && q.kind == Open && q.flow == Some(f) && q.channelId == channelId && q.sblp == sblp
                 && q.target.None?)
            case NegotiateChannel(channelId, sblp) =>
              (if channelId <= 0 then Turns(s, t, -6)
               else if Unused(s, channelId) then Turns(s, t, -1)
               else
                 s.nextRequest in t.req && var q := t.req[s.nextRequest];
                 Queues(s, t, q) && q.kind == Negotiate && q.flow.None? && q.sblp == sblp && q.target.Some?
                 && Carries(s, channelId, q.target.value))
            case JoinChannel(channelId, f) =>
              (if Unused(s, channelId) || f !in s.flows then Turns(s, t, -1)
               else
                 s.nextRequest in t.req && var q := t.req[s.nextRequest];
                 Queues(s, t, q) && q.kind == Join && q.flow == Some(f) && !q.sblp && q.target.Some?
                 && Carries(s, channelId, q.target.value))
            case LeaveChannel(channelId, f) =>
              (if Unused(s, channelId) || f !in s.flows then Turns(s, t, -1)
               else
                 s.nextRequest in t.req && var q := t.req[s.nextRequest];
                 Queues(s, t, q) && q.kind == Leave && q.flow == Some(f) && !q.sblp && q.target.Some?
                 && Carries(s, channelId, q.target.value))
            case NegotiateFlow(f, policy, sblp) =>
              (if f !in s.flows || !policy then Turns(s, t, -1)
               else
                 s.nextRequest in t.req && var q := t.req[s.nextRequest];
                 Queues(s, t, q) && q.kind == Open && q.flow == Some(f) && q.channelId == 0 && q.sblp == sblp
                 && q.target.None?)
            case _ => true
  {
    hide Ok, Waiting, Channel, Carries, Unused;
    match e
    case OpenChannel(channelId, _, _) => ChannelIs(s, channelId); ChannelUsed(s, channelId);
    case NegotiateChannel(channelId, _) => ChannelIs(s, channelId); ChannelUsed(s, channelId);
    case JoinChannel(channelId, _) => ChannelIs(s, channelId); ChannelUsed(s, channelId);
    case LeaveChannel(channelId, _) => ChannelIs(s, channelId); ChannelUsed(s, channelId);
    case NegotiateFlow(_, _, _) =>
  }

  lemma ChannelUsed(s: State, channelId: int)
    requires Ok(s)
    ensures Channel(s, channelId).Some? ==> !Unused(s, channelId)
  {
    hide Ok, FindChannel;
  }

  // ---------- flows ----------

  /** One more request at the end of the queue: a Close of context `c`. */
  ghost predicate ClosesLast(s: State, t: State, c: ContextRef) {
    && t.pending == s.pending + [s.nextRequest] && t.issued && s.nextRequest in t.req
    && var q := t.req[s.nextRequest];
       q.kind == Close && q.target == Some(c) && q.flow.None? && q.state == 0 && q.said == []
  }

  /** What closing or releasing flow `f` does to the queue: its context, if a secondary one, is to be closed. */
  ghost predicate CleansUp(s: State, t: State, f: FlowRef)
    requires f in s.flows
  {
    var c := s.flows[f].context;
    && (if c.Some? && c != Some(s.primary) then ClosesLast(s, t, c.value) else t.pending == s.pending)
    && (forall r :: r in t.req ==> t.req[r].flow != Some(f))
    && (forall r :: r in s.req ==> r in t.req && t.req[r] == s.req[r].(flow := t.req[r].flow)
                                   && (s.req[r].flow != Some(f) ==> t.req[r].flow == s.req[r].flow))
  }

  /** The other flows are as before. */
  ghost predicate OthersStay(s: State, t: State, f: FlowRef) {
    forall g :: g != f ==> (g in t.flows <==> g in s.flows) && (g in s.flows ==> t.flows[g] == s.flows[g])
  }

  /** A secondary context whose last flow has gone is on its way out. */
  ghost predicate Expires(s: State, t: State, f: FlowRef)
    requires f in s.flows
  {
    s.flows[f].context.Some? &&
    var c := s.flows[f].context.value;
    c in s.ctx && c in t.ctx && (c != s.primary && s.ctx[c].flows == [f] ==> t.ctx[c].expiring)
  }

  lemma NothingWithout(f: FlowRef)
    ensures Without([f], f) == []
  {
    assert [f][1..] == [];
  }

  /**
   Opening a flow puts it last on the default context. Closing it takes it away; releasing
   it puts it on the default context; both take it from every request, have its old context
   closed if that was a secondary one, and let that one expire if it was the last flow.
  */
  lemma FlowsComeAndGo(s: State, nif: Network, e: Event)
    requires Ok(s) && Settled(s) && WellFormed(e) && (e.OpenFlow? || e.CloseFlow? || e.ReleaseFlow?)
    ensures var t := Step(s, nif, e);
            match e
            case OpenFlow(f, filter) =>
              (if f in s.flows then t == s
               else
                 && s.primary in s.ctx && s.primary in t.ctx
                 && t.flows == s.flows[f := Flow(filter, Some(s.primary))]
                 && t.ctx[s.primary].flows == s.ctx[s.primary].flows + [f])
            case CloseFlow(f) =>
              (if f !in s.flows then t == s
               else f !in t.flows && OthersStay(s, t, f) && CleansUp(s, t, f) && Expires(s, t, f))
            case ReleaseFlow(f) =>
              (if f !in s.flows then t == s
               else
                 && f in t.flows && t.flows[f] == s.flows[f].(context := Some(s.primary)) && OthersStay(s, t, f)
                 && CleansUp(s, t, f) && Expires(s, t, f))
            case _ => true
  {
    hide Ok, Settled, CleansUp, Expires, DoCloseFlow, DoReleaseFlow;
    DeleteReady(s);
    match e
    case OpenFlow(_, _) =>
    case CloseFlow(f) =>
      if f in s.flows {
        CloseFlowDoes(s, f);
      } else {
        NothingDone(s, f);
      }
    case ReleaseFlow(f) =>
      if f in s.flows {
        ReleaseFlowDoes(s, f);
      } else {
        NothingDone(s, f);
      }
  }

  lemma NothingDone(s: State, f: FlowRef)
    requires Ok(s) && f !in s.flows
    ensures DoCloseFlow(s, f) == s && DoReleaseFlow(s, f) == s
  {
    hide Ok;
  }

  /** Every request lets go of the flow. */
  lemma CancelDoes(s: State, f: FlowRef)
    ensures var t := CancelFlow(s, f);
            && t == s.(req := t.req) && t.req.Keys == s.req.Keys
            && (forall r :: r in s.req ==> t.req[r] == s.req[r].(flow := if s.req[r].flow == Some(f) then None
                                                                         else s.req[r].flow))
  {
  }

  lemma CleanupDoes(s: State, f: FlowRef)
    requires f in s.flows && (forall r :: r in s.req ==> r < s.nextRequest)
    ensures var t := ScheduleCleanup(s, f);
            var c := s.flows[f].context;
            if c.Some? && c != Some(s.primary) then
              && ClosesLast(s, t, c.value) && s.nextRequest !in s.req
              && t == s.(pending := t.pending, req := s.req[s.nextRequest := t.req[s.nextRequest]],
                         nextRequest := s.nextRequest + 1, issued := true)
            else t == s
  {
  }

  lemma LetsGoClosing(s: State, f: FlowRef)
    requires Ok(s) && f in s.flows
    ensures var m := CancelFlow(ScheduleCleanup(s, f), f);
            m.flows == s.flows && m.ctx == s.ctx && m.primary == s.primary && CleansUp(s, m, f)
  {
    hide Ok, ScheduleCleanup, CancelFlow;
    OkAtQueue(s);
    CleanupDoes(s, f);
    CancelDoes(ScheduleCleanup(s, f), f);
  }

  lemma LetsGoReleasing(s: State, f: FlowRef)
    requires Ok(s) && f in s.flows
    ensures f in CancelFlow(s, f).flows
    ensures var m := ScheduleCleanup(CancelFlow(s, f), f);
            m.flows == s.flows && m.ctx == s.ctx && m.primary == s.primary && CleansUp(s, m, f)
  {
    hide Ok, ScheduleCleanup, CancelFlow;
    OkAtQueue(s);
    CancelDoes(s, f);
    CleanupDoes(CancelFlow(s, f), f);
  }

  lemma DetachDoes(s: State, f: FlowRef)
    requires f in s.flows && s.flows[f].context.Some? && s.flows[f].context.value in s.ctx
    ensures var t := Detach(s, f);
            && f !in t.flows && OthersStay(s, t, f) && Expires(s, t, f) && t.req == s.req && t.pending == s.pending
            && t.issued == s.issued
  {
    hide Without;
    NothingWithout(f);
  }

  lemma MoveDoes(s: State, f: FlowRef, c: ContextRef)
    requires f in s.flows && s.flows[f].context.Some? && s.flows[f].context.value in s.ctx && c in s.ctx
    requires c == s.primary
    ensures var t := SetFlowContext(s, f, c);
            && f in t.flows && t.flows[f] == s.flows[f].(context := Some(c)) && OthersStay(s, t, f) && Expires(s, t, f)
            && t.req == s.req && t.pending == s.pending && t.issued == s.issued
  {
    hide Without;
    NothingWithout(f);
  }

  lemma SameCleanUp(s: State, m: State, t: State, f: FlowRef)
    requires f in s.flows && CleansUp(s, m, f) && t.req == m.req && t.pending == m.pending && t.issued == m.issued
    ensures CleansUp(s, t, f)
  {
  }

  lemma CloseFlowDoes(s: State, f: FlowRef)
    requires Ok(s) && f in s.flows
    ensures var t := DoCloseFlow(s, f);
            f !in t.flows && OthersStay(s, t, f) && CleansUp(s, t, f) && Expires(s, t, f)
  {
    hide Ok, Detach, ScheduleCleanup, CancelFlow, CleansUp;
    AttachedFlow(s, f);
    LetsGoClosing(s, f);
    var m := CancelFlow(ScheduleCleanup(s, f), f);
    DetachDoes(m, f);
    SameCleanUp(s, m, Detach(m, f), f);
  }

  lemma ReleaseFlowDoes(s: State, f: FlowRef)
    requires Ok(s) && f in s.flows
    ensures var t := DoReleaseFlow(s, f);
            && f in t.flows && t.flows[f] == s.flows[f].(context := Some(s.primary)) && OthersStay(s, t, f)
            && CleansUp(s, t, f) && Expires(s, t, f)
  {
    hide Ok, SetFlowContext, ScheduleCleanup, CancelFlow, CleansUp;
    AttachedFlow(s, f);
    LetsGoReleasing(s, f);
    var m := ScheduleCleanup(CancelFlow(s, f), f);
    MoveDoes(m, f, s.primary);
    SameCleanUp(s, m, SetFlowContext(m, f, s.primary), f);
  }

  // ---------- channels that close and contexts that go ----------

  /** Context `c` has gone, the network has been told, and its flows are behind those of the default context. */
  ghost predicate Goes(s: State, t: State, c: ContextRef)
    requires c in s.ctx
  {
    && c !in t.ctx && t.controls == s.controls + [DeleteContext(s.ctx[c].contextId)]
    && s.primary in s.ctx && s.primary in t.ctx && t.primary == s.primary
    && t.ctx[s.primary].flows == s.ctx[s.primary].flows + s.ctx[c].flows
  }

  lemma RemovedGoes(s: State, c: ContextRef)
    requires Ok(s) && c in s.ctx && c != s.primary
    ensures Goes(s, RemoveContext(s, c), c)
  {
    hide Ok, DeletePdpContext, FiltersKept, Targets, Settled;
    RemoveReady(s, c);
    DeleteReady(s);
    var told := DeleteOnNetwork(s, c);
    NotAlone(told, c);
    DeleteDropped(told, c);
  }

  lemma NotAlone(s: State, c: ContextRef)
    requires s.primary in s.ctx && c != s.primary && forall x :: x in s.contexts <==> x in s.ctx
    ensures s.contexts != [c]
  {
    assert s.primary in s.contexts;
  }

  /**
   Closing a channel takes it from the default context, or has its own context go; a context
   whose time is up goes if it has no flows, and is closed if it has some.
  */
  lemma ContextsGo(s: State, nif: Network, e: Event)
    requires Ok(s) && Settled(s) && WellFormed(e) && (e.CloseChannel? || e.ContextTimer?)
    ensures var t := Step(s, nif, e);
            match e
            case CloseChannel(channelId) =>
              (if channelId <= 0 || Unused(s, channelId) then t == s
               else if Carries(s, channelId, s.primary) then
                 s.primary in s.ctx && t.ctx == s.ctx[s.primary := s.ctx[s.primary].(channelId := 0)]
                 && t.req == s.req && t.flows == s.flows && t.controls == s.controls && t.upcalls == s.upcalls
               else exists c :: c in s.ctx && Carries(s, channelId, c) && Goes(s, t, c))
            case ContextTimer(c) =>
              (if c !in s.ctx || !s.ctx[c].expiring then t == s
               else if s.ctx[c].flows == [] && c != s.primary then Goes(s, t, c)
               else if s.ctx[c].flows != [] then
                 ClosesLast(s, t, c) && t.controls == s.controls && c in t.ctx && !t.ctx[c].expiring
               else t.controls == s.controls)
            case _ => true
  {
    hide Ok, Settled, Channel, Carries, Unused, RemoveContext, Goes, DeletePdpContext;
    DeleteReady(s);
    assert s.upcalls + [] == s.upcalls;
    match e
    case CloseChannel(channelId) =>
      ChannelIs(s, channelId);
      ChannelUsed(s, channelId);
      var c := Channel(s, channelId);
      if channelId > 0 && c.Some? {
        if Carries(s, channelId, s.primary) {
          CarriesOne(s, channelId, c.value, s.primary);
        }
        if c.value != s.primary {
          RemovedGoes(s, c.value);
        }
      }
    case ContextTimer(c) =>
      if c in s.ctx && s.ctx[c].expiring {
        ExpiredOk(s, c);
        if s.ctx[c].flows == [] && c != s.primary {
          RemovedGoes(Expired(s, c), c);
          ExpiredGoes(s, RemoveContext(Expired(s, c), c), c);
        } else if s.ctx[c].flows == [] {
          PrimaryRemoved(Expired(s, c), c);
        }
      }
  }

  lemma CarriesOne(s: State, channelId: int, c: ContextRef, d: ContextRef)
    requires Ok(s) && Carries(s, channelId, c) && Carries(s, channelId, d)
    ensures c == d
  {
    hide Ok;
    DeleteReady(s);
    var k: nat :| FirstAt(s, channelId, c, k);
    var l: nat :| FirstAt(s, channelId, d, l);
    if k < l {
      assert s.contexts[k] in s.contexts;
    }
  }

  lemma ExpiredGoes(s: State, t: State, c: ContextRef)
    requires c in s.ctx && Goes(Expired(s, c), t, c)
    ensures Goes(s, t, c)
  {
  }

  lemma PrimaryRemoved(s: State, c: ContextRef)
    requires Ok(s) && c in s.ctx && c == s.primary
    ensures RemoveContext(s, c).controls == s.controls
  {
    hide Ok, DeletePdpContext, FiltersKept, Targets, Settled;
    RemoveReady(s, c);
    DeletePdpContextOk(DeleteOnNetwork(s, c), c);
  }

  // ---------- plain events ----------

  /** One notice for the channel, or else one for each flow in the order of the list. */
  ghost predicate Notified(s: State, x: Context, more: seq<Upcall>, failure: bool, reason: int) {
    if !s.notifier then more == []
    else if x.channelId != 0 then more == [NotifyChannel(x.channelId, failure, reason)]
    else |more| == |x.flows| && forall i :: 0 <= i < |more| ==> more[i] == NotifyFlow(x.flows[i], failure, reason)
  }

  /** Some upcalls of `t`, behind those of `s`, are these notices. */
  ghost predicate NotifiedFrom(s: State, t: State, x: Context, failure: bool, reason: int) {
    exists i: nat, j: nat :: |s.upcalls| <= i <= j <= |t.upcalls| && Notified(s, x, t.upcalls[i..j], failure, reason)
  }

  /**
   The default context coming up makes the interface ready and has the queue served. A context
   that nobody has asked for is deleted again. A report replaces filters and parameters of
   its context, recomputes the map of precedences from all contexts, and is announced.
  */
  lemma EventsAreTaken(s: State, nif: Network, e: Event)
    requires Ok(s) && Settled(s) && WellFormed(e)
    requires e.PrimaryCreated? || (e.SecondaryCreated? && s.current.None?) || e.ParametersChanged?
    ensures var t := Step(s, nif, e);
            match e
            case PrimaryCreated(status) =>
              && s.primary in s.ctx && t.ready && t.issued
                 && t.ctx == s.ctx[s.primary := s.ctx[s.primary].(status := status)]
              && t.req == s.req && t.pending == s.pending && t.flows == s.flows && t.controls == s.controls
            case SecondaryCreated(id, _, _, _) => t == s.(controls := s.controls + [DeleteContext(id)])
            case ParametersChanged(id, report, reason) =>
              (if ContextOf(s, id).None? then t == s
               else
                 var c := ContextOf(s, id).value;
                 && c in t.ctx
                 && t.ctx[c] == s.ctx[c].(filters := Occupied(report.tft), negotiated := report.negotiated,
                                          status := report.status)
                 && (forall d :: d in s.ctx && d != c ==> d in t.ctx && t.ctx[d] == s.ctx[d])
                 && |t.marked| == 256
                 && (forall p :: 0 <= p < 256 ==>
                       (t.marked[p] <==> exists d, i :: d in t.ctx && 0 <= i < |t.ctx[d].filters|
                                                        && t.ctx[d].filters[i].precedence == p))
                 && NotifiedFrom(s, t, s.ctx[c], false, reason))
            case _ => true
  {
    hide Ok, Waiting, ContextOf, Announce, Occupied, Marks, Notices;
    DeleteReady(s);
    if e.ParametersChanged? && ContextOf(s, e.contextId).Some? {
      var c := ContextOf(s, e.contextId).value;
      ReportTaken(s, c, e.report, e.reason);
    }
  }

  lemma ReportTaken(s: State, c: ContextRef, report: Report, reason: int)
    requires Ok(s) && c in s.ctx
    ensures var t := Emit(Update(s, c, report), Notices(s.notifier, s.ctx[c], false, reason));
            && c in t.ctx
            && t.ctx == s.ctx[c := s.ctx[c].(filters := Occupied(report.tft), negotiated := report.negotiated,
                                             status := report.status)]
            && |t.marked| == 256
            && (forall p :: 0 <= p < 256 ==>
                  (t.marked[p] <==> exists d, i :: d in t.ctx && 0 <= i < |t.ctx[d].filters|
                                                   && t.ctx[d].filters[i].precedence == p))
            && NotifiedFrom(s, t, s.ctx[c], false, reason)
  {
    hide Ok, Announce, Occupied, Marks, Notices;
    DeleteReady(s);
    var m := Update(s, c, report);
    var t := Emit(m, Notices(s.notifier, s.ctx[c], false, reason));
    NoticesAre(s, s.ctx[c], false, reason);
    assert t.upcalls[|m.upcalls|..|t.upcalls|] == Notices(s.notifier, s.ctx[c], false, reason);
    MarksAre(s.contexts, t.ctx);
  }

  lemma NoticesAre(s: State, x: Context, failure: bool, reason: int)
    ensures Notified(s, x, Notices(s.notifier, x, failure, reason), failure, reason)
  {
  }

  lemma MarksAre(contexts: seq<ContextRef>, ctx: map<ContextRef, Context>)
    requires forall c :: c in contexts <==> c in ctx
    ensures var marked := Marks(FilterLists(contexts, ctx));
            && |marked| == 256
            && (forall p :: 0 <= p < 256 ==>
                  (marked[p] <==> exists d, i ::
                    d in ctx && 0 <= i < |ctx[d].filters| && ctx[d].filters[i].precedence == p))
  {
    var lists := FilterLists(contexts, ctx);
    forall p | 0 <= p < 256
      ensures UsesPrecedence(lists, p) <==>
                exists d, i :: d in ctx && 0 <= i < |ctx[d].filters| && ctx[d].filters[i].precedence == p
    {
      if d, i :| d in ctx && 0 <= i < |ctx[d].filters| && ctx[d].filters[i].precedence == p {
        var k :| 0 <= k < |contexts| && contexts[k] == d;
        assert lists[k][i].precedence == p;
      }
    }
  }

  /**
   In every state that a run reaches: a context that the network has deleted is announced as
   failed, before it goes with its flows handed over; the only one stays and stops its flows.
  */
  lemma DeletionIsAnnounced(notifier: bool, nif: Network, es: seq<Event>, e: Event)
    requires AllWellFormed(es) && WellFormed(e) && e.ContextDeleted?
    ensures var s := Reached(notifier, nif, es); Ok(s) && Settled(s) && Deletes(s, Step(s, nif, e), e)
  {
    hide Ok, Settled, Informed, Deletes;
    ReachedOk(notifier, nif, es);
    InitialOk(notifier);
    NothingSaid(notifier);
    AfterInformed(Initial(notifier), nif, es);
    DeletedIsAnnounced(Reached(notifier, nif, es), nif, e);
  }

  lemma NothingSaid(notifier: bool)
    ensures Informed(Initial(notifier))
  {
  }

  ghost predicate Deletes(s: State, t: State, e: Event)
    requires Ok(s) && e.ContextDeleted?
  {
    if ContextOf(s, e.contextId).None? then t == s
    else
      var c := ContextOf(s, e.contextId).value;
      && NotifiedFrom(s, t, s.ctx[c], true, e.reason) && t.controls == s.controls
      && (if s.contexts == [c] then c in t.ctx && t.ctx[c].blocked && t.ctx[c].status == e.status
          else c !in t.ctx && t.flows.Keys == s.flows.Keys)
  }

  lemma DeletedIsAnnounced(s: State, nif: Network, e: Event)
    requires Ok(s) && Settled(s) && Informed(s) && e.ContextDeleted?
    ensures Deletes(s, DoContextDeleted(s, e.contextId, e.status, e.reason), e)
  {
    hide Ok, Settled, Informed, Touch, Notices, DeletePdpContext, FiltersKept, ContextOf, Quietly;
    if ContextOf(s, e.contextId).Some? {
      var c := ContextOf(s, e.contextId).value;
      DeletedReady(s, c, e.status, e.reason);
      var n := Announced(s, c, e.status, e.reason);
      AnnouncedSays(s, c, e.status, e.reason);
      QuietInformed(s, n) by {
        OkAtQueue(s);
      }
      CurrentCancellable(n, c);
      DeleteQuietly(n, c);
      var t := DeletePdpContext(n, c);
      SaysMore(n, t);
      DeletePdpContextOk(n, c);
      NotifiedStill(s, n, t, s.ctx[c], e.reason);
      if n.contexts == [c] {
        DeleteKept(n, c);
        BlockedThere(n, c);
      }
    }
  }

  lemma SaysMore(s: State, t: State)
    requires Quietly(s, t)
    ensures s.upcalls <= t.upcalls
  {
    hide Recorded;
  }

  lemma BlockedThere(s: State, c: ContextRef)
    requires c in s.ctx
    ensures c in Block(s, c).ctx && Block(s, c).ctx[c] == s.ctx[c].(blocked := true)
  {
  }

  lemma AnnouncedSays(s: State, c: ContextRef, status: ContextStatus, reason: int)
    requires c in s.ctx
    ensures var n := Announced(s, c, status, reason);
            && NotifiedFrom(s, n, s.ctx[c], true, reason) && n.ctx == s.ctx[c := s.ctx[c].(status := status)]
            && n.contexts == s.contexts && n.flows == s.flows
            && Quietly(s, n)
  {
    hide Touch, Notices, Quietly;
    var x := s.ctx[c].(status := status);
    TouchQuietly(s, c, x);
    TouchQueue(s, c, x);
    var m := Touch(s, c, x);
    var n := Announced(s, c, status, reason);
    EmitQuietly(m, Notices(s.notifier, s.ctx[c], true, reason));
    QuietlyThen(s, m, n);
    SaysMore(s, m);
    NoticesAre(s, s.ctx[c], true, reason);
    assert n.upcalls[|m.upcalls|..|n.upcalls|] == Notices(s.notifier, s.ctx[c], true, reason);
    TouchLists(s, c, x);
  }

  lemma TouchLists(s: State, c: ContextRef, x: Context)
    requires c in s.ctx
    ensures Touch(s, c, x).contexts == s.contexts && Touch(s, c, x).flows == s.flows
  {
  }

  lemma NotifiedStill(s: State, n: State, t: State, x: Context, reason: int)
    requires NotifiedFrom(s, n, x, true, reason) && n.upcalls <= t.upcalls
    ensures NotifiedFrom(s, t, x, true, reason)
  {
    hide Notified;
    var i: nat, j: nat :| |s.upcalls| <= i <= j <= |n.upcalls| && Notified(s, x, n.upcalls[i..j], true, reason);
    assert t.upcalls[i..j] == n.upcalls[i..j];
  }

  // ---------- the start of a request ----------

  /**
   A request that has nothing to do completes at once, and makes no call: an Open or Join whose
   flow has been closed, and a Join whose flow is on the channel already. A Delete tells the
   network and has its context go. Any other request runs its table: an Open whose flow is
   alone on a secondary context from the quality of service on, with that context, and all
   others from the first action on, with the context of the flow or the one they are for.
  */
  lemma RequestsStart(s: State, nif: Network, r: RequestRef)
    requires Ok(s) && s.current == Some(r) && r in s.req && Idle(s.req[r])
    ensures var q := s.req[r];
            var t := Start(s, nif, r);
            var onward := Onward(s, q);
            if q.kind == Delete then
              r !in t.req && (q.target.Some? && q.target.value in s.ctx && q.target != Some(s.primary) ==>
                                Goes(s, t, q.target.value))
            else if (q.kind == Open || q.kind == Join)
                    && (q.flow.None? || (q.kind == Join && onward.context == q.target)) then
              r !in t.req && t.controls == s.controls && t.flows == s.flows && t.ctx == s.ctx
            else
              var m := SetRequest(s, r, onward); Ok(m) && Acting(m, r) && t == RunActions(m, nif, r)
  {
    hide Ok, RunActions, Without;
    RequestParts(s, r);
    if s.req[r].flow.Some? {
      AttachedFlow(s, s.req[r].flow.value);
      AloneIs(s, s.req[r].flow.value);
    }
    if s.req[r].kind == Delete {
      StartDeleteOk(s, r);
      DeleteStarts(s, r);
    } else if !Moot(s, s.req[r]) {
      BegunOk(s, r);
    }
  }

  /** The flow is the only one of its context. */
  ghost predicate Alone(s: State, q: Request) {
    && q.flow.Some? && q.flow.value in s.flows && s.flows[q.flow.value].context.Some?
    && var c := s.flows[q.flow.value].context.value;
       c in s.ctx && c != s.primary && s.ctx[c].flows == [q.flow.value]
  }

  /** The request as it sets out. */
  ghost function Onward(s: State, q: Request): Request {
    var c := if q.kind == Open || q.kind == Join then
               if q.flow.Some? && q.flow.value in s.flows then s.flows[q.flow.value].context else None
             else q.target;
    var p := if q.context == c then q else q.(context := c, modified := false);
    if q.kind == Open && Alone(s, q) then p.(state := 5) else p
  }

  lemma AloneIs(s: State, f: FlowRef)
    requires Ok(s) && f in s.flows && s.flows[f].context.Some? && s.flows[f].context.value in s.ctx
    ensures var x := s.ctx[s.flows[f].context.value]; x.refs == 1 <==> x.flows == [f]
  {
    hide Mirrored, ExactlyOnce, DistinctIds, Queued, NoDangling, NoDup;
  }

  lemma DeleteStarts(s: State, r: RequestRef)
    requires Ok(s) && s.current == Some(r) && r in s.req && s.req[r].kind == Delete && r in StartDelete(s, r).req
    ensures var t := Destruct(StartDelete(s, r), r, Err(KErrNone));
            && r !in t.req
            && (s.req[r].target.Some? && s.req[r].target.value in s.ctx && s.req[r].target != Some(s.primary) ==>
                  Goes(s, t, s.req[r].target.value))
  {
    hide Ok, DeletePdpContext, FiltersKept, Targets, Settled, Without;
    StartDeleteOk(s, r);
    if s.req[r].target.Some? {
      var c := s.req[r].target.value;
      StartDeleteReady(s, r, c);
      var told := DeleteOnNetwork(SetRequest(s, r, s.req[r].(target := None)), c);
      if c != s.primary {
        NotAlone(told, c);
        DeleteDropped(told, c);
      }
    }
  }

  // ---------- actions that move flows ----------

  /** The request's flow, if it still has one, is on the request's context. */
  ghost predicate Moved(s: State, t: State, q: Request) {
    q.flow.Some? && q.context.Some? ==>
      && q.flow.value in t.flows && t.flows[q.flow.value].context == q.context
      && forall g :: g in s.flows && g != q.flow.value ==> g in t.flows && t.flows[g] == s.flows[g]
  }

  /**
   The context made for an Open carries its channel from then on and belongs to it; a Join
   goes on with the context it wants to join; and the flow of a request that comes to that
   action, or to its end, is put on the request's context.
  */
  lemma ActionsMove(s: State, nif: Network, r: RequestRef)
    requires Ok(s) && Acting(s, r)
    ensures var (t, done) := Act(s, nif, r);
            var q := s.req[r];
            match Table(q.kind)[q.state]
            case RememberCreatedContext =>
              && !done && r in t.req && t.req[r] == q.(newContext := q.context)
              && (q.context.Some? ==>
                    && q.context.value in t.ctx && t.ctx[q.context.value].channelId == q.channelId
                    && t.ctx == s.ctx[q.context.value := s.ctx[q.context.value].(channelId := q.channelId)])
            case AddFlowToContext => !done && r in t.req && t.req[r] == q.(flow := None) && Moved(s, t, q)
            case NegotiationComplete => done && r !in t.req && Moved(s, t, q)
            case StartWithTargetContext =>
              && !done && r in t.req
                 && t.req[r] == q.(context := q.target, modified := q.modified && q.context == q.target)
            case CompleteRequest => done && r !in t.req && t.flows == s.flows && t.controls == s.controls
            case _ => true
  {
    hide Ok, Table, Ask, ActRemovePacketFilter, ActAddPacketFilter, ActCommit, ActAddSblpParameter, ActSetQoS, Without,
      ActAddFlowToContext, ActNegotiationComplete, Moved;
    FlowActions(s, r);
  }

  lemma FlowActions(s: State, r: RequestRef)
    requires Ok(s) && Acting(s, r)
    ensures var (t, done) := ActAddFlowToContext(s, r);
            !done && r in t.req && t.req[r] == s.req[r].(flow := None) && Moved(s, t, s.req[r])
    ensures var (t, done) := ActNegotiationComplete(s, r); done && r !in t.req && Moved(s, t, s.req[r])
  {
    hide Ok, Table, Without, SetFlowContext;
    var q := s.req[r];
    RequestParts(s, r);
    if q.context.Some? {
      RehomeOk(s, r, q.context.value);
      if q.flow.Some? {
        AttachedFlow(s, q.flow.value);
        MovesOne(s, q.flow.value, q.context.value);
      }
    }
  }

  lemma MovesOne(s: State, f: FlowRef, c: ContextRef)
    requires f in s.flows && s.flows[f].context.Some? && s.flows[f].context.value in s.ctx && c in s.ctx
    ensures var t := SetFlowContext(s, f, c);
            && f in t.flows && t.flows[f].context == Some(c)
            && (forall g :: g in s.flows && g != f ==> g in t.flows && t.flows[g] == s.flows[g])
  {
    hide Without;
  }
}
