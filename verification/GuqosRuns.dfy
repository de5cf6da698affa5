/**
 Whole runs of a CNif: any sequence of events from its construction on, and its
 destruction. The theorems at the end hold in every reachable state.
*/
module GuqosRuns {
  import opened Wrappers
  import opened Sequences
  import opened PacketFilters
  import opened Tft
  import opened GuqosState
  import opened GuqosHeap
  import opened GuqosRequests
  import opened GuqosSteps
  import opened GuqosLoops
  import opened GuqosEvents

  // ---------- one event ----------

  /** The request being served either leaves or stays, `k` states further on at least. */
  ghost predicate Stays(s: State, t: State, k: nat) {
    forall r :: s.current == Some(r) && r in s.req && r in t.req ==>
      t.current == Some(r) && t.req[r].kind == s.req[r].kind && s.req[r].state + k <= t.req[r].state
  }

  /** What every event guarantees. `k` counts the replies it delivers to the request being served. */
  ghost predicate Sound(s: State, t: State, k: nat) {
    && Ok(t) && Settled(t)
    && s.controls <= t.controls && t.notifier == s.notifier
    && Stays(s, t, k)
  }

  lemma AddRequestSound(s: State, q: Request)
    requires Ok(s) && Settled(s) && Idle(q)
    requires q.flow.Some? ==> q.flow.value in s.flows
    requires q.target.Some? ==> q.target.value in s.ctx
    requires q.kind == Open ==> q.target.None?
    ensures Sound(s, AddRequest(s, q), 0) && (!Adds(q.kind) ==> FiltersKept(s, AddRequest(s, q)))
    ensures FitAdded(s, AddRequest(s, q))
  {
    hide Ok, Waiting, Fit, Load;
    AddRequestOk(s, q);
    OkAtQueue(s);
    if Fit(s) {
      AddRequestLoad(s, q);
    }
  }

  /** A call that adds a request adds at most one to the load. */
  ghost predicate FitAdded(s: State, t: State) {
    Fit(s) && Load(s) < KMaxEvaluationPrecedences ==> Fit(t) && Load(t) <= Load(s) + 1
  }

  lemma AddRequestLoad(s: State, q: Request)
    requires Fit(s) && Idle(q) && s.nextRequest !in s.req && (s.current.Some? ==> s.current.value in s.req)
    ensures Load(AddRequest(s, q)) <= Load(s) + 1
    ensures Load(s) < KMaxEvaluationPrecedences ==> Fit(AddRequest(s, q))
  {
    var t := AddRequest(s, q);
    assert InFlight(t.req, t.current) == InFlight(s.req, s.current);
    SubsetSize(Owed(t.req), Owed(s.req) + {s.nextRequest});
    hide PrecedencesDistinct, NoClash, Taken, AddingState;
  }

  lemma OkAtQueue(s: State)
    requires Ok(s)
    ensures forall r :: r in s.req ==> r < s.nextRequest
    ensures s.current.Some? ==> s.current.value in s.req
  {
    DeleteReady(s);
    QueueParts(s);
    hide Linked, Mirrored, NoDangling, NoDup, Deliveries, LoggedLoud, Logged, DistinctIds, Queued;
  }

  lemma CancelFlowOk(s: State, f: FlowRef)
    requires Ok(s) && Settled(s)
    ensures var t := CancelFlow(s, f);
            && Sound(s, t, 0) && FiltersKept(s, t)
            && (forall r :: r in t.req ==> t.req[r].flow != Some(f))
            && t.flows == s.flows && t.ctx == s.ctx && t.primary == s.primary
            && t.req.Keys == s.req.Keys
  {
    hide Ok, Waiting, CancelFlow, FiltersKept;
    var t := CancelFlow(s, f);
    CancelFlowShape(s, f);
    CancelFlowKeepsOk(s, f);
    if s.current.Some? && s.current.value in s.req {
      CancelFlowWaits(s.req[s.current.value], t.req[s.current.value]);
    }
  }

  lemma CancelFlowKeepsOk(s: State, f: FlowRef)
    requires Ok(s)
    ensures Ok(CancelFlow(s, f))
  {
    hide Linked, Mirrored, ExactlyOnce, DistinctIds, Queued, NoDangling, CancelFlow, FiltersKept;
    var t := CancelFlow(s, f);
    CancelFlowShape(s, f);
    CancelFlowQueued(s.pending, s.req, t.req, s.current);
    CancelFlowDangling(s.req, t.req, s.ctx.Keys, s.flows.Keys);
  }

  lemma CancelFlowShape(s: State, f: FlowRef)
    ensures var t := CancelFlow(s, f);
            && t == s.(req := t.req) && t.req.Keys == s.req.Keys
            && (forall r :: r in t.req ==> t.req[r].flow != Some(f))
            && (forall r :: r in s.req ==> t.req[r] == s.req[r] || t.req[r] == s.req[r].(flow := None))
            && FiltersKept(s, t)
  {
  }

  lemma CancelFlowQueued(pending: seq<RequestRef>, req: map<RequestRef, Request>, after: map<RequestRef, Request>,
                         current: Option<RequestRef>)
    requires Queued(pending, req, current) && after.Keys == req.Keys
    requires forall r :: r in req ==> after[r] == req[r].(flow := after[r].flow)
    ensures Queued(pending, after, current)
  {
    hide NoDup;
  }

  lemma CancelFlowDangling(req: map<RequestRef, Request>, after: map<RequestRef, Request>, contexts: set<ContextRef>,
                           flows: set<FlowRef>)
    requires NoDangling(req, contexts, flows) && after.Keys == req.Keys
    requires forall r :: r in req ==> after[r] == req[r] || after[r] == req[r].(flow := None)
    ensures NoDangling(after, contexts, flows)
  {
  }

  lemma CancelFlowWaits(q: Request, p: Request)
    requires p == q.(flow := p.flow)
    ensures Waiting(q) ==> Waiting(p)
  {
  }

  lemma CloseFlowSound(s: State, f: FlowRef)
    requires Ok(s) && Settled(s)
    ensures Sound(s, DoCloseFlow(s, f), 0) && FiltersKept(s, DoCloseFlow(s, f))
  {
    hide Ok, Waiting, FiltersKept, CancelFlow;
    FiltersKeptReflexive(s);
    if f in s.flows {
      AttachedFlow(s, f);
      var m := ScheduleCleanup(s, f);
      CleanupSound(s, f);
      CancelFlowOk(m, f);
      var n := CancelFlow(m, f);
      DetachOk(n, f);
      DetachKept(n, f);
      KeptChain(s, m, n, Detach(n, f));
    }
  }

  lemma DetachKept(s: State, f: FlowRef)
    requires f in s.flows && s.flows[f].context.Some? && s.flows[f].context.value in s.ctx
    ensures FiltersKept(s, Detach(s, f)) && Detach(s, f).req == s.req
    ensures Detach(s, f).current == s.current && Detach(s, f).controls == s.controls
            && Detach(s, f).notifier == s.notifier
  {
  }

  lemma KeptChain(s: State, m: State, n: State, t: State)
    requires FiltersKept(s, m) && FiltersKept(m, n) && FiltersKept(n, t)
    requires s.req.Keys <= m.req.Keys && m.req.Keys == n.req.Keys && n.req.Keys == t.req.Keys
    ensures FiltersKept(s, t)
  {
    FiltersKeptTransitive(m, n, t);
    FiltersKeptTransitive(s, m, t);
  }

  lemma CleanupSound(s: State, f: FlowRef)
    requires Ok(s) && Settled(s) && f in s.flows
    ensures var t := ScheduleCleanup(s, f);
            && Sound(s, t, 0) && FiltersKept(s, t) && t.flows == s.flows && t.ctx == s.ctx && t.primary == s.primary
            && s.req.Keys <= t.req.Keys
            && (forall r :: r in t.req && t.req[r].flow == Some(f) ==> r in s.req && s.req[r].flow == Some(f))
  {
    hide Ok, Waiting;
    AttachedFlow(s, f);
    OkAtQueue(s);
    if s.flows[f].context != Some(s.primary) {
      AddRequestSound(s, FreshRequest(Close, None, s.flows[f].context, 0, false));
    }
  }

  lemma ReleaseFlowSound(s: State, f: FlowRef)
    requires Ok(s) && Settled(s)
    ensures Sound(s, DoReleaseFlow(s, f), 0) && FiltersKept(s, DoReleaseFlow(s, f))
  {
    hide Ok, Waiting, FiltersKept, CancelFlow, SetFlowContext;
    FiltersKeptReflexive(s);
    if f in s.flows {
      AttachedFlow(s, f);
      CancelFlowOk(s, f);
      var m := CancelFlow(s, f);
      CleanupSound(m, f);
      var n := ScheduleCleanup(m, f);
      AttachedFlow(n, f);
      SetFlowContextOk(n, f, s.primary);
      SetFlowQueue(n, f, s.primary);
      ReleaseKept(s, m, n, SetFlowContext(n, f, s.primary));
    }
  }

  lemma SetFlowQueue(s: State, f: FlowRef, c: ContextRef)
    requires f in s.flows && s.flows[f].context.Some? && s.flows[f].context.value in s.ctx && c in s.ctx
    ensures SetFlowContext(s, f, c).req == s.req && SetFlowContext(s, f, c).current == s.current
    ensures SetFlowContext(s, f, c).controls == s.controls && SetFlowContext(s, f, c).notifier == s.notifier
  {
  }

  lemma ReleaseKept(s: State, m: State, n: State, t: State)
    requires FiltersKept(s, m) && FiltersKept(m, n) && FiltersKept(n, t)
    requires s.req.Keys == m.req.Keys && m.req.Keys <= n.req.Keys && n.req == t.req
    ensures FiltersKept(s, t)
  {
    FiltersKeptTransitive(m, n, t);
    FiltersKeptTransitive(s, m, t);
  }

  lemma RefuseSound(s: State, reason: int)
    requires Ok(s) && Settled(s)
    ensures Sound(s, Refuse(s, reason), 0) && FiltersKept(s, Refuse(s, reason)) && StaysFit(s, Refuse(s, reason))
  {
    hide Ok, Waiting, Fit, Load;
    EmitOk(s, [Refused(reason)]);
    OkAtQueue(s);
    if Fit(s) {
      FitFrame(s, Refuse(s, reason));
    }
  }

  /** The calls that ask for a filter of their own. */
  predicate Demands(e: Event) {
    e.OpenChannel? || e.JoinChannel? || e.NegotiateFlow?
  }

  lemma NewRequestSound(s: State, e: Event, nif: Network)
    requires Ok(s) && Settled(s) && WellFormed(e)
    requires e.OpenChannel? || e.NegotiateChannel? || e.JoinChannel? || e.LeaveChannel? || e.NegotiateFlow?
            || e.ScheduleDeletion?
    ensures Sound(s, Step(s, nif, e), 0) && (!Demands(e) ==> FiltersKept(s, Step(s, nif, e)))
    ensures FitAdded(s, Step(s, nif, e))
  {
    hide Ok, Waiting, FiltersKept, Sound, Fit, Load, AddRequest, Refuse, Channel, ContextOf;
    RefuseSound(s, KErrArgument);
    RefuseSound(s, KErrNotFound);
    RefuseSound(s, KErrAlreadyExists);
    NothingSound(s);
    match e
    case OpenChannel(channelId, f, sblp) =>
      if f in s.flows {
        AddRequestSound(s, FreshRequest(Open, Some(f), None, channelId, sblp));
      }
    case NegotiateChannel(channelId, sblp) =>
      if Channel(s, channelId).Some? {
        AddRequestSound(s, FreshRequest(Negotiate, None, Channel(s, channelId), 0, sblp));
      }
    case JoinChannel(channelId, f) =>
      if Channel(s, channelId).Some? && f in s.flows {
        AddRequestSound(s, FreshRequest(Join, Some(f), Channel(s, channelId), 0, false));
      }
    case LeaveChannel(channelId, f) =>
      if Channel(s, channelId).Some? && f in s.flows {
        AddRequestSound(s, FreshRequest(Leave, Some(f), Channel(s, channelId), 0, false));
      }
    case NegotiateFlow(f, policy, sblp) =>
      if f in s.flows && policy {
        AddRequestSound(s, FreshRequest(Open, Some(f), None, 0, sblp));
      }
    case ScheduleDeletion(id) =>
      if ContextOf(s, id).Some? {
        AddRequestSound(s, FreshRequest(Delete, None, ContextOf(s, id), 0, false));
      }
  }

  lemma NothingSound(s: State)
    requires Ok(s) && Settled(s)
    ensures Sound(s, s, 0) && FiltersKept(s, s)
  {
    hide Ok, Waiting;
  }

  lemma TouchSound(s: State, c: ContextRef, x: Context)
    requires Ok(s) && Settled(s) && c in s.ctx
    requires x.flows == s.ctx[c].flows && x.refs == s.ctx[c].refs && x.filters == s.ctx[c].filters
    ensures Sound(s, Touch(s, c, x), 0) && FiltersKept(s, Touch(s, c, x))
    ensures Touch(s, c, x).req == s.req && Touch(s, c, x).current == s.current && Touch(s, c, x).ctx.Keys == s.ctx.Keys
  {
    hide Ok, Waiting, DistinctIds, Announce;
    OkAt(s, c);
    TouchOk(s, c, x);
    assert Touch(s, c, x).ctx.Keys == s.ctx.Keys;
  }

  /** Two steps that leave the queue alone. */
  lemma QuietThen(s: State, m: State, t: State)
    requires Sound(s, m, 0) && FiltersKept(s, m) && Sound(m, t, 0) && FiltersKept(m, t)
    requires m.req == s.req && m.current == s.current
    ensures Sound(s, t, 0) && FiltersKept(s, t)
  {
    hide Ok, Waiting, FiltersKept;
    FiltersKeptTransitive(s, m, t);
  }

  lemma DeleteSound(s: State, c: ContextRef)
    requires Ok(s) && Settled(s) && c in s.ctx && s.primary in s.ctx
    requires forall x :: x in s.contexts ==> x in s.ctx
    requires forall x :: x in s.pending ==> x in s.req
    ensures Sound(s, DeletePdpContext(s, c), 0) && FiltersKept(s, DeletePdpContext(s, c))
  {
    hide Ok, Waiting, DeletePdpContext, Targets;
    DeletePdpContextOk(s, c);
    DeleteTargets(s, c);
  }

  /** The request being served goes exactly when its target does. */
  lemma DeleteTargets(s: State, c: ContextRef)
    requires Ok(s) && c in s.ctx && s.primary in s.ctx
    requires forall x :: x in s.contexts ==> x in s.ctx
    requires forall x :: x in s.pending ==> x in s.req
    ensures CurrentTargets(s, c) && s.contexts != [c] ==> s.current.value !in DeletePdpContext(s, c).req
    ensures s.contexts == [c] ==> DeletePdpContext(s, c).req == s.req && DeletePdpContext(s, c).current == s.current
  {
    hide Ok, FiltersKept, Targets, Without, Reelect, Announce, Settled, DropContext, Evacuate;
    if s.contexts == [c] {
      DeleteKept(s, c);
    } else {
      DeleteDropped(s, c);
    }
  }

  lemma RemoveSound(s: State, c: ContextRef)
    requires Ok(s) && Settled(s) && c in s.ctx
    ensures Sound(s, RemoveContext(s, c), 0) && FiltersKept(s, RemoveContext(s, c))
  {
    hide Ok, Waiting, FiltersKept, DeletePdpContext, Sound, Settled;
    RemoveReady(s, c);
    DeleteSound(DeleteOnNetwork(s, c), c);
    ControlSound(s, c);
    QuietThen(s, DeleteOnNetwork(s, c), RemoveContext(s, c));
  }

  lemma ControlSound(s: State, c: ContextRef)
    requires Ok(s) && Settled(s) && c in s.ctx
    ensures Sound(s, DeleteOnNetwork(s, c), 0)
  {
    hide Ok, Waiting;
    RemoveReady(s, c);
  }

  lemma ContextStatusSound(s: State, e: Event, nif: Network)
    requires Ok(s) && Settled(s) && WellFormed(e)
    requires e.ContextBlocked? || e.ContextUnblocked? || e.ContextDeleted? || e.SendPacket? || e.CloseChannel?
    ensures Sound(s, Step(s, nif, e), 0) && FiltersKept(s, Step(s, nif, e))
  {
    hide Ok, Waiting, FiltersKept, Sound, Touch, Channel, ContextOf, Announced, DeletePdpContext, RemoveContext;
    NothingSound(s);
    match e
    case ContextBlocked(id, status) =>
      if ContextOf(s, id).Some? {
        var c := ContextOf(s, id).value;
        TouchSound(s, c, s.ctx[c].(status := status));
        var m := SetStatus(s, c, status);
        SettledAfter(s, m);
        TouchSound(m, c, m.ctx[c].(blocked := true));
        QuietThen(s, m, Block(m, c));
      }
    case ContextUnblocked(id, status) =>
      if ContextOf(s, id).Some? {
        var c := ContextOf(s, id).value;
        TouchSound(s, c, s.ctx[c].(status := status));
        var m := SetStatus(s, c, status);
        SettledAfter(s, m);
        TouchSound(m, c, m.ctx[c].(blocked := false));
        QuietThen(s, m, UnBlock(m, c));
      }
    case ContextDeleted(id, status, reason) =>
      if ContextOf(s, id).Some? {
        var c := ContextOf(s, id).value;
        DeletedReady(s, c, status, reason);
        var m := Announced(s, c, status, reason);
        DeleteSound(m, c);
        AnnouncedSound(s, c, status, reason);
        QuietThen(s, m, DeletePdpContext(m, c));
      }
    case SendPacket(f, accepted) =>
      if f in s.flows && accepted <= 0 {
        AttachedFlow(s, f);
        var c := s.flows[f].context.value;
        TouchSound(s, c, s.ctx[c].(blocked := true));
      }
    case CloseChannel(channelId) =>
      if channelId > 0 && Channel(s, channelId).Some? {
        var c := Channel(s, channelId).value;
        TouchSound(s, c, s.ctx[c].(channelId := 0));
        RemoveSound(s, c);
      }
  }

  lemma SettledAfter(s: State, t: State)
    requires Sound(s, t, 0)
    ensures Ok(t) && Settled(t)
  {
  }

  lemma AnnouncedSound(s: State, c: ContextRef, status: ContextStatus, reason: int)
    requires Ok(s) && Settled(s) && c in s.ctx
    ensures Sound(s, Announced(s, c, status, reason), 0)
  {
    hide Ok, Waiting;
    DeletedReady(s, c, status, reason);
    OkAtQueue(s);
  }

  lemma PrimaryCreatedSound(s: State, status: ContextStatus)
    requires Ok(s) && Settled(s)
    ensures Sound(s, DoPrimaryCreated(s, status), 0)
    ensures StaysFit(s, DoPrimaryCreated(s, status))
  {
    hide Waiting, Touch, DistinctIds, Linked, Mirrored, ExactlyOnce, NoDangling, Queued, PrecedencesDistinct, NoClash;
    DeleteReady(s);
    TouchSound(s, s.primary, s.ctx[s.primary].(status := status));
    var m := SetStatus(s, s.primary, status);
    if Fit(s) {
      OkAtQueue(s);
      FitKept(s, m);
    }
  }

  lemma ContextTimerSound(s: State, c: ContextRef)
    requires Ok(s) && Settled(s)
    ensures Sound(s, DoContextTimer(s, c), 0) && FiltersKept(s, DoContextTimer(s, c))
  {
    hide Ok, Waiting, FiltersKept, Sound, Touch, RemoveContext, Settled, AddRequest;
    NothingSound(s);
    if c in s.ctx && s.ctx[c].expiring {
      ExpiredOk(s, c);
      var m := Expired(s, c);
      TouchSound(s, c, s.ctx[c].(expiring := false));
      if m.ctx[c].flows == [] {
        RemoveSound(m, c);
        QuietThen(s, m, RemoveContext(m, c));
      } else {
        AddRequestSound(m, FreshRequest(Close, None, Some(c), 0, false));
        QuietThen(s, m, AddRequest(m, FreshRequest(Close, None, Some(c), 0, false)));
      }
    }
  }

  // ---------- replies ----------

  /** A reply moves the request being served on by at least one state, if it does not complete it. */
  lemma ReplySound(s: State, nif: Network, reply: Expected, c: ContextRef, reason: int)
    requires Ok(s) && Settled(s) && c in s.ctx
    ensures Sound(s, Reply(s, nif, reply, c, reason), 1)
    ensures StaysFit(s, Reply(s, nif, reply, c, reason))
  {
    hide Ok, Run, Fit, Load, Waiting;
    if s.current.Some? {
      RunOk(s, nif, s.current.value, reply, c, reason);
    }
  }

  lemma SecondaryCreatedSound(s: State, nif: Network, id: int, status: ContextStatus, reason: int, err: int)
    requires Ok(s) && Settled(s)
    ensures Sound(s, DoSecondaryCreated(s, nif, id, status, reason, err), 1)
    ensures StaysFit(s, DoSecondaryCreated(s, nif, id, status, reason, err))
  {
    hide Ok, Run, Fit, Load, Waiting, Destruct, FiltersKept;
    if s.current.None? {
      ControlOk(s, DeleteContext(id));
      if Fit(s) {
        FitFrame(s, SendControl(s, DeleteContext(id)));
      }
    } else if err != KErrNone {
      CreationFailedSound(s, id, err);
    } else {
      var m := s.(ready := true);
      ReadyOk(s);
      NotReadyOk(s);
      NewContextOk(m, id, status);
      var n := NewContextAdded(m, id, status);
      RunOk(n, nif, s.current.value, PendingCreate, s.nextContext, reason);
      if Fit(s) {
        FitFrame(s, m);
        FitFrame(m, n);
      }
    }
  }

  /** The request that a context could not be created for ends. */
  lemma CreationFailedSound(s: State, id: int, err: int)
    requires Ok(s) && Settled(s) && s.current.Some? && s.current.value in s.req
    ensures var r := s.current.value;
            var t := SendControl(Destruct(Heard(s.(ready := true), r, Failed(PendingCreate, err)), r, Err(err)),
                       DeleteContext(id));
            Sound(s, t, 1) && StaysFit(s, t)
  {
    hide Ok, Fit, Load, Waiting, Destruct, FiltersKept;
    var r := s.current.value;
    var m := s.(ready := true);
    ReadyOk(s);
    var h := Heard(m, r, Failed(PendingCreate, err));
    HeardOk(m, r, Failed(PendingCreate, err));
    DestructOk(h, r, Err(err));
    var d := Destruct(h, r, Err(err));
    DestructShape(h, r, Err(err));
    ControlOk(d, DeleteContext(id));
    if Fit(s) {
      FitFrame(s, m);
      FitKept(m, h);
      FitKept(h, d);
      FitFrame(d, SendControl(d, DeleteContext(id)));
    }
  }

  lemma NotReadyOk(s: State)
    requires Ok(s)
    ensures Ok(s.(ready := false))
  {
    hide Linked, Mirrored, ExactlyOnce, DistinctIds, NoDangling, Queued;
  }

  /** Fitness looks at filters, marks and requests only. */
  lemma FitFrame(s: State, t: State)
    requires Fit(s) && t.marked == s.marked && t.req == s.req && t.current == s.current
    requires forall c :: c in t.ctx ==> t.ctx[c].filters == if c in s.ctx then s.ctx[c].filters else []
    ensures Fit(t) && Load(t) == Load(s)
  {
    hide Taken, Owed, AddingState, IdentityInRange;
  }

  /** What the network may report about context `c`: filters it reported last, and the one in flight. */
  ghost predicate Honest(s: State, e: Event)
    requires Ok(s) && WellFormed(e)
  {
    match e
    case ParametersChanged(id, report, reason) => HonestReport(s, ContextOf(s, id), report)
    case Activated(id, report, reason) => HonestReport(s, ContextOf(s, id), report)
    case ModifiedActive(id, report, reason) => HonestReport(s, ContextOf(s, id), report)
    case _ => true
  }

  ghost predicate HonestReport(s: State, c: Option<ContextRef>, report: Report)
    requires c.Some? ==> c.value in s.ctx
  {
    c.Some? ==> forall f :: f in Occupied(report.tft) ==>
      f in s.ctx[c.value].filters || InFlight(s.req, s.current) == Some((c.value, f))
  }

  /** An honest report keeps identities unique, although it recomputes the precedence map. */
  lemma ReportedUnique(s: State, c: ContextRef, report: Report)
    requires Ok(s) && Unique(s) && c in s.ctx && ValidSlots(report.tft)
    requires HonestReport(s, Some(c), report)
    ensures Unique(Reported(s, c, report))
  {
    hide Ok, Occupied, AsMap, Marks, PrecedencesDistinct;
    OccupiedIsMap(report.tft);
    ReportedDistinct(s, c, report);
    ReportedNoClash(s, c, Occupied(report.tft));
  }

  /** A report takes up no precedence that was not marked or in flight. */
  lemma ReportedTaken(s: State, c: ContextRef, report: Report)
    requires Ok(s) && Unique(s) && c in s.ctx && HonestReport(s, Some(c), report)
    ensures var t := Reported(s, c, report);
            Taken(t.marked, InFlight(t.req, t.current)) <= Taken(s.marked, InFlight(s.req, s.current))
  {
    hide Ok, Occupied, NoClash, InFlight;
    DeleteReady(s);
    var t := Reported(s, c, report);
    var lists := FilterLists(s.contexts, t.ctx);
    forall p | p in Taken(t.marked, InFlight(t.req, t.current))
      ensures p in Taken(s.marked, InFlight(s.req, s.current))
    {
      if UsesPrecedence(lists, p) {
        var i, j :| 0 <= i < |lists| && 0 <= j < |lists[i]| && lists[i][j].precedence == p;
        var x := s.contexts[i];
        assert x in s.contexts && lists[i] == t.ctx[x].filters;
        var f := lists[i][j];
        if x == c {
          assert f in Occupied(report.tft);
        }
      }
    }
  }

  /** An honest report keeps the state fit. */
  lemma ReportedFit(s: State, c: ContextRef, report: Report)
    requires Ok(s) && Fit(s) && c in s.ctx && ValidSlots(report.tft)
    requires HonestReport(s, Some(c), report)
    ensures Fit(Reported(s, c, report)) && Load(Reported(s, c, report)) <= Load(s)
  {
    hide Ok, Occupied, Unique, Taken, AddingState;
    ReportedUnique(s, c, report);
    ReportedTaken(s, c, report);
    var t := Reported(s, c, report);
    SubsetSize(Taken(t.marked, InFlight(t.req, t.current)), Taken(s.marked, InFlight(s.req, s.current)));
  }

  lemma ReportedDistinct(s: State, c: ContextRef, report: Report)
    requires Ok(s) && Unique(s) && c in s.ctx && ValidSlots(report.tft)
    requires HonestReport(s, Some(c), report)
    ensures PrecedencesDistinct(Reported(s, c, report).ctx, Reported(s, c, report).marked)
  {
    hide Ok, Occupied, AsMap, Marks, IdentityInRange, FilterLists, PrecedencesDistinct;
    DeleteReady(s);
    OccupiedIsMap(report.tft);
    var t := Reported(s, c, report);
    ReportedApart(s, c, t.ctx[c]);
    ReportedMarked(s.contexts, t.ctx);
    ReportedRange(s, c, report);
    DistinctBy(t.ctx, t.marked);
  }

  /** Every filter is in range after a report. */
  lemma ReportedRange(s: State, c: ContextRef, report: Report)
    requires Ok(s) && Unique(s) && c in s.ctx && HonestReport(s, Some(c), report)
    ensures var t := Reported(s, c, report);
            forall x, i :: x in t.ctx && 0 <= i < |t.ctx[x].filters| ==> IdentityInRange(t.ctx[x].filters[i])
  {
    hide Ok, Occupied, IdentityInRange, Marks, FilterLists;
    ReportedInRange(s, c, report);
    var t := Reported(s, c, report);
    forall x, i | x in t.ctx && 0 <= i < |t.ctx[x].filters| ensures IdentityInRange(t.ctx[x].filters[i]) {
      if x == c {
        assert Occupied(report.tft)[i] in Occupied(report.tft);
      }
    }
  }

  lemma DistinctBy(ctx: map<ContextRef, Context>, marked: seq<bool>)
    requires |marked| == KMaxEvaluationPrecedences
    requires forall x, i :: x in ctx && 0 <= i < |ctx[x].filters| ==> IdentityInRange(ctx[x].filters[i])
    requires forall x, i ::
               && x in ctx && 0 <= i < |ctx[x].filters|
               && 0 <= ctx[x].filters[i].precedence < KMaxEvaluationPrecedences ==>
                 marked[ctx[x].filters[i].precedence]
    requires forall x, i, d, j ::
               x in ctx && 0 <= i < |ctx[x].filters| && d in ctx && 0 <= j < |ctx[d].filters| && (x != d || i != j) ==>
                 ctx[x].filters[i].precedence != ctx[d].filters[j].precedence
    ensures PrecedencesDistinct(ctx, marked)
  {
    forall x, i | x in ctx && 0 <= i < |ctx[x].filters|
      ensures 0 <= ctx[x].filters[i].precedence < KMaxEvaluationPrecedences
    {
      assert IdentityInRange(ctx[x].filters[i]);
    }
  }

  /** A recomputation marks the precedence of every filter. */
  lemma ReportedMarked(contexts: seq<ContextRef>, ctx: map<ContextRef, Context>)
    requires forall x :: x in contexts <==> x in ctx
    ensures forall x, i ::
              && x in ctx && 0 <= i < |ctx[x].filters|
              && 0 <= ctx[x].filters[i].precedence < KMaxEvaluationPrecedences ==>
                Marks(FilterLists(contexts, ctx))[ctx[x].filters[i].precedence]
  {
    hide Marks, FilterLists;
    var lists := FilterLists(contexts, ctx);
    forall x, i | x in ctx && 0 <= i < |ctx[x].filters| ensures UsesPrecedence(lists, ctx[x].filters[i].precedence) {
      var k :| 0 <= k < |contexts| && contexts[k] == x;
      assert lists[k][i].precedence == ctx[x].filters[i].precedence;
    }
  }

  lemma ReportedInRange(s: State, c: ContextRef, report: Report)
    requires Unique(s) && c in s.ctx && HonestReport(s, Some(c), report)
    ensures forall f :: f in Occupied(report.tft) ==> IdentityInRange(f)
  {
    hide Occupied;
    forall f | f in Occupied(report.tft) ensures IdentityInRange(f) {
      if f in s.ctx[c].filters {
        var i :| 0 <= i < |s.ctx[c].filters| && s.ctx[c].filters[i] == f;
      }
    }
  }

  ghost predicate Explained(s: State, c: ContextRef, filters: seq<PacketFilter>)
    requires c in s.ctx
  {
    forall f :: f in filters ==> f in s.ctx[c].filters || InFlight(s.req, s.current) == Some((c, f))
  }

  lemma ReportedApart(s: State, c: ContextRef, reported: Context)
    requires Unique(s) && c in s.ctx && Explained(s, c, reported.filters) && DistinctIds(reported.filters)
    ensures var after := s.ctx[c := reported];
            forall x, i, d, j ::
              && x in after && 0 <= i < |after[x].filters| && d in after && 0 <= j < |after[d].filters|
              && (x != d || i != j) ==>
                after[x].filters[i].precedence != after[d].filters[j].precedence
  {
    var filters := reported.filters;
    forall i, j | 0 <= i < |filters| && 0 <= j < |filters| && i != j
      ensures filters[i].precedence != filters[j].precedence
    {
      assert filters[i] in filters && filters[j] in filters;
      assert filters[i].id != filters[j].id;
      ExplainedApart(s, c, filters[i], c, filters[j]);
    }
    forall i, d, j | 0 <= i < |filters| && d in s.ctx && d != c && 0 <= j < |s.ctx[d].filters|
      ensures filters[i].precedence != s.ctx[d].filters[j].precedence
    {
      assert filters[i] in filters && s.ctx[d].filters[j] in s.ctx[d].filters;
      ExplainedApart(s, c, filters[i], d, s.ctx[d].filters[j]);
    }
  }

  /** Two different filters, each reported before or in flight, have different precedences. */
  lemma ExplainedApart(s: State, c: ContextRef, f: PacketFilter, d: ContextRef, g: PacketFilter)
    requires Unique(s) && c in s.ctx && d in s.ctx
    requires f in s.ctx[c].filters || InFlight(s.req, s.current) == Some((c, f))
    requires g in s.ctx[d].filters || InFlight(s.req, s.current) == Some((d, g))
    requires c != d || f != g
    ensures f.precedence != g.precedence
  {
    if f in s.ctx[c].filters {
      var i :| 0 <= i < |s.ctx[c].filters| && s.ctx[c].filters[i] == f;
      if g in s.ctx[d].filters {
        var j :| 0 <= j < |s.ctx[d].filters| && s.ctx[d].filters[j] == g;
      }
    } else if g in s.ctx[d].filters {
      var j :| 0 <= j < |s.ctx[d].filters| && s.ctx[d].filters[j] == g;
    }
  }

  lemma ReportedNoClash(s: State, c: ContextRef, filters: seq<PacketFilter>)
    requires Unique(s) && c in s.ctx && Explained(s, c, filters)
    ensures NoClash(s.ctx[c := s.ctx[c].(filters := filters)], InFlight(s.req, s.current))
  {
    var added := InFlight(s.req, s.current);
    if added.Some? {
      forall i | 0 <= i < |filters| && !(c == added.value.0 && filters[i] == added.value.1)
        ensures filters[i].precedence != added.value.1.precedence
        ensures c == added.value.0 ==> filters[i].id != added.value.1.id
      {
        assert filters[i] in filters;
        var k :| 0 <= k < |s.ctx[c].filters| && s.ctx[c].filters[k] == filters[i];
      }
    }
  }

  /** After an honest report the state stays fit, and the load is what the report leaves. */
  ghost predicate FitReport(s: State, t: State, id: int, report: Report)
    requires Ok(s)
  {
    HonestReport(s, ContextOf(s, id), report) ==>
      StaysFit(s, t) && (Fit(s) && ContextOf(s, id).Some? ==>
        Load(t) <= Load(Reported(s, ContextOf(s, id).value, report)))
  }

  lemma ReportSound(s: State, e: Event, nif: Network)
    requires Ok(s) && Settled(s) && WellFormed(e)
    requires e.ParametersChanged? || e.Activated? || e.ModifiedActive?
    ensures Sound(s, Step(s, nif, e), if e.ParametersChanged? || ContextOf(s, e.contextId).None? then 0 else 1)
    ensures Honest(s, e) ==> StaysFit(s, Step(s, nif, e))
    ensures FitReport(s, Step(s, nif, e), e.contextId, e.report)
  {
    hide Ok, Fit, Load, Sound, Settled, HonestReport, Reported, ContextOf, DoParametersChanged, DoConfirmed;
    match e
    case ParametersChanged(id, report, reason) => ParametersSound(s, id, report, reason);
    case Activated(id, report, reason) => ConfirmedSound(s, nif, PendingActivate, id, report, reason);
    case ModifiedActive(id, report, reason) => ConfirmedSound(s, nif, PendingModifyActive, id, report, reason);
  }

  lemma ParametersSound(s: State, id: int, report: Report, reason: int)
    requires Ok(s) && Settled(s) && ValidSlots(report.tft)
    ensures Sound(s, DoParametersChanged(s, id, report, reason), 0)
    ensures FitReport(s, DoParametersChanged(s, id, report, reason), id, report)
  {
    hide Ok, Fit, Load, Waiting, FiltersKept, Update, Reported, HonestReport, ContextOf, Notices;
    if ContextOf(s, id).Some? {
      var c := ContextOf(s, id).value;
      var m, u := Reported(s, c, report), Update(s, c, report);
      ReportedOk(s, c, report);
      OkAtQueue(s);
      UpdateOk(s, c, report);
      EmitOk(u, Notices(s.notifier, s.ctx[c], false, reason));
      if Fit(s) && HonestReport(s, Some(c), report) {
        ReportedFit(s, c, report);
        FitKept(m, u);
        FitFrame(u, Emit(u, Notices(s.notifier, s.ctx[c], false, reason)));
      }
    } else {
      NothingSound(s);
    }
  }

  lemma ConfirmedSound(s: State, nif: Network, reply: Expected, id: int, report: Report, reason: int)
    requires Ok(s) && Settled(s) && ValidSlots(report.tft)
    ensures var t := DoConfirmed(s, nif, reply, id, report, reason);
            && Sound(s, t, if ContextOf(s, id).None? then 0 else 1)
            && FitReport(s, t, id, report)
  {
    hide Ok, Fit, Load, Waiting, FiltersKept, Confirmed, Reported, Reply, HonestReport, ContextOf;
    if ContextOf(s, id).Some? {
      var c := ContextOf(s, id).value;
      var m, u := Reported(s, c, report), Confirmed(s, c, report);
      ReportedOk(s, c, report);
      OkAtQueue(s);
      ConfirmedOk(s, c, report);
      if Fit(s) && HonestReport(s, Some(c), report) {
        ReportedFit(s, c, report);
        FitKept(m, u);
      }
      ReplySound(u, nif, reply, c, reason);
    } else {
      NothingSound(s);
    }
  }

  /** The replies an event delivers to the request being served: none or one. */
  function Replies(s: State, e: Event): nat
    requires Ok(s)
  {
    if s.current.None? then 0
    else
      match e
      case SecondaryCreated(_, _, _, _) => 1
      case QoSSet(id, _) => if ContextOf(s, id).Some? then 1 else 0
      case TftModified(id, _, _) => if ContextOf(s, id).Some? then 1 else 0
      case Activated(id, _, _) => if ContextOf(s, id).Some? then 1 else 0
      case ModifiedActive(id, _, _) => if ContextOf(s, id).Some? then 1 else 0
      case _ => 0
  }

  lemma StaysLess(s: State, t: State, k: nat, n: nat)
    requires Sound(s, t, k) && (n <= k || s.current.None?)
    ensures Sound(s, t, n)
  {
    hide Ok, Waiting;
  }

  lemma SmallReplySound(s: State, e: Event, nif: Network)
    requires Ok(s) && Settled(s) && WellFormed(e)
    requires e.QoSSet? || e.TftModified?
    ensures Sound(s, Step(s, nif, e), Replies(s, e))
    ensures StaysFit(s, Step(s, nif, e))
  {
    hide Ok, Fit, Load, Waiting, Reply, ContextOf, Sound;
    NothingSound(s);
    if ContextOf(s, e.contextId).Some? {
      var c := ContextOf(s, e.contextId).value;
      var reply := if e.QoSSet? then PendingSetQoS else TftReply(e.operation);
      ReplySound(s, nif, reply, c, e.reason);
      StaysLess(s, Reply(s, nif, reply, c, e.reason), 1, Replies(s, e));
    }
  }

  lemma QueueTimerSound(s: State, nif: Network)
    requires Ok(s) && Settled(s)
    ensures Sound(s, DoQueueTimer(s, nif), 0)
    ensures StaysFit(s, DoQueueTimer(s, nif))
    ensures s.issued && s.ready && DoQueueTimer(s, nif).pending != [] ==> DoQueueTimer(s, nif).current.Some?
  {
    hide Ok, OkAsleep, Fit, Load, Waiting, RunPending;
    if s.issued {
      var m := s.(issued := false);
      FireOk(s);
      RunPendingOk(m, nif);
      if Fit(s) {
        FitFrame(s, m);
      }
      if s.current.Some? {
        RunPendingBusy(m, nif);
        OkAtQueue(s);
      }
    } else {
      NothingSound(s);
      if s.ready && s.pending != [] && s.current.None? {
        AwakeOk(s);
      }
    }
  }

  lemma AwakeOk(s: State)
    requires Ok(s)
    ensures Awake(s)
  {
  }

  lemma RunPendingBusy(s: State, nif: Network)
    requires OkAsleep(s) && s.current.Some?
    ensures RunPending(s, nif) == s
  {
  }

  lemma OpenFlowSound(s: State, f: FlowRef, filter: PacketFilter)
    requires Ok(s) && Settled(s)
    ensures Sound(s, DoOpenFlow(s, f, filter), 0) && FiltersKept(s, DoOpenFlow(s, f, filter))
  {
    hide Ok, Waiting;
    NothingSound(s);
    DeleteReady(s);
    OkAtQueue(s);
    if f !in s.flows {
      AttachOk(s, f, filter, s.primary);
    }
  }

  /** Every event keeps the invariant, and never loses sight of the request being served. */
  lemma StepSound(s: State, nif: Network, e: Event)
    requires Ok(s) && Settled(s) && WellFormed(e)
    ensures Sound(s, Step(s, nif, e), Replies(s, e))
    ensures Honest(s, e) ==> if Demands(e) then FitAdded(s, Step(s, nif, e)) else StaysFit(s, Step(s, nif, e))
  {
    hide Ok, Fit, Load, Waiting, FiltersKept, Sound, ContextOf, HonestReport,
      DoOpenFlow, DoCloseFlow, DoReleaseFlow, DoPrimaryCreated, DoSecondaryCreated, DoQueueTimer, DoContextTimer,
      DoOpenChannel, DoCloseChannel, DoNegotiateChannel, DoJoinOrLeave, DoNegotiateFlow, DoScheduleDeletion,
      DoSendPacket, DoContextBlocked, DoContextUnblocked, DoContextDeleted, DoParametersChanged, DoQoSSet,
      DoTftModified, DoConfirmed;
    var t := Step(s, nif, e);
    match e
    case OpenFlow(f, filter) => OpenFlowSound(s, f, filter); KeptFit(s, t);
    case CloseFlow(f) => CloseFlowSound(s, f); KeptFit(s, t);
    case ReleaseFlow(f) => ReleaseFlowSound(s, f); KeptFit(s, t);
    case OpenChannel(_, _, _) => NewRequestSound(s, e, nif);
    case CloseChannel(_) => ContextStatusSound(s, e, nif); KeptFit(s, t);
    case NegotiateChannel(_, _) => NewRequestSound(s, e, nif); KeptFit(s, t);
    case JoinChannel(_, _) => NewRequestSound(s, e, nif);
    case LeaveChannel(_, _) => NewRequestSound(s, e, nif); KeptFit(s, t);
    case NegotiateFlow(_, _, _) => NewRequestSound(s, e, nif);
    case ScheduleDeletion(_) => NewRequestSound(s, e, nif); KeptFit(s, t);
    case SendPacket(_, _) => ContextStatusSound(s, e, nif); KeptFit(s, t);
    case PrimaryCreated(status) => PrimaryCreatedSound(s, status);
    case SecondaryCreated(id, status, reason, err) =>
      SecondaryCreatedSound(s, nif, id, status, reason, err);
      StaysLess(s, t, 1, Replies(s, e));
    case ContextBlocked(_, _) => ContextStatusSound(s, e, nif); KeptFit(s, t);
    case ContextUnblocked(_, _) => ContextStatusSound(s, e, nif); KeptFit(s, t);
    case ContextDeleted(_, _, _) => ContextStatusSound(s, e, nif); KeptFit(s, t);
    case ParametersChanged(_, _, _) => ReportSound(s, e, nif); StaysLess(s, t, 0, Replies(s, e));
    case QoSSet(_, _) => SmallReplySound(s, e, nif);
    case TftModified(_, _, _) => SmallReplySound(s, e, nif);
    case Activated(id, _, _) => ReportSound(s, e, nif); StaysLess(s, t, if ContextOf(s, id).None? then 0
      else 1, Replies(s, e));
    case ModifiedActive(id, _, _) => ReportSound(s, e, nif); StaysLess(s, t, if ContextOf(s, id).None? then 0
      else 1, Replies(s, e));
    case QueueTimer => QueueTimerSound(s, nif);
    case ContextTimer(c) => ContextTimerSound(s, c); KeptFit(s, t);
  }

  lemma KeptFit(s: State, t: State)
    requires Ok(s) && FiltersKept(s, t) && Sound(s, t, 0)
    ensures StaysFit(s, t)
  {
    hide Fit, Load, FiltersKept, Waiting, Ok;
    if Fit(s) {
      OkAtQueue(s);
      OkAtQueue(t);
      CurrentKept(s, t);
      FitKept(s, t);
    }
  }

  lemma CurrentKept(s: State, t: State)
    requires FiltersKept(s, t)
    ensures t.current.Some? ==> t.current == s.current
  {
  }
}
