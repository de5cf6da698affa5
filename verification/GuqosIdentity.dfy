/**
 When identities are lost: over runs with an honest network they are unique exactly as
 long as no action that adds a filter, and is accepted by the network, finds the map full.
*/
module GuqosIdentity {
  import opened Wrappers
  import opened Sequences
  import opened PacketFilters
  import opened Tft
  import opened GuqosState
  import opened GuqosHeap
  import opened GuqosRequests
  import opened GuqosSteps
  import opened GuqosLoops
  import opened GuqosEvents
  import opened GuqosRuns
  import opened GuqosTheorems

  /** The filter in flight, if there is one, has a precedence. */
  predicate Preceded(s: State) {
    var added := InFlight(s.req, s.current); added.Some? ==> added.value.1.precedence >= 0
  }

  /** The request being served adds a filter that the network takes, and the map is full. */
  ghost predicate FindsFull(s: State, nif: Network) {
    && s.current.Some? && Ok(s) && Acting(s, s.current.value) && AsksForFilter(s, s.current.value)
    && FreePrecedence(s.marked) < 0 && nif(s.controls + [FilterCall(s, s.current.value)]) >= 0
  }

  ghost predicate Room(acts: seq<State>, nif: Network) {
    forall x :: x in acts ==> !FindsFull(x, nif)
  }

  /** From `s` on to `t` by actions in the states `acts`, identities stay unique exactly if there is room. */
  ghost predicate StaysUnique(s: State, t: State, acts: seq<State>, nif: Network) {
    && (Unique(s) && Room(acts, nif) ==> Unique(t))
    && (!Room(acts, nif) ==> !Preceded(t))
  }

  // ---------- where actions run ----------

  /** The states in which `RunActions` runs an action. */
  ghost function Acts(s: State, nif: Network, r: RequestRef): seq<State>
    requires Ok(s) && Acting(s, r)
    decreases |Table(s.req[r].kind)| - s.req[r].state
  {
    ActContinues(s, nif, r);
    var (t, done) := Act(s, nif, r);
    [s] + if done then [] else Acts(Advance(t, r), nif, r)
  }

  /** Those in which a reply has actions run. */
  ghost function ReplyActs(s: State, nif: Network, reply: Expected, c: ContextRef, reason: int): seq<State>
    requires Ok(s) && Settled(s) && c in s.ctx
  {
    if s.current.None? then []
    else RunActs(s, nif, s.current.value, reply, c, reason)
  }

  ghost function RunActs(s: State, nif: Network, r: RequestRef, reply: Expected, c: ContextRef, reason: int)
    : seq<State>
    requires Ok(s) && s.current == Some(r) && r in s.req && Waiting(s.req[r]) && c in s.ctx
  {
    if (s.req[r].expected != reply && s.req[r].expected != PendingAny) || reason != KErrNone then []
    else
      RunReady(s, r, c, reply);
      Acts(Resumed(s, r, c, reply), nif, r)
  }

  /** Those in which a request that is started has actions run. */
  ghost function StartActs(s: State, nif: Network, r: RequestRef): seq<State>
    requires Ok(s) && s.current == Some(r) && r in s.req && Idle(s.req[r])
  {
    if s.req[r].kind == Delete || Moot(s, s.req[r]) then []
    else
      BegunOk(s, r);
      Acts(SetRequest(s, r, Begun(s, r)), nif, r)
  }

  /** Those in which the queue has actions run. */
  ghost function PendingActs(s: State, nif: Network): seq<State>
    requires OkAsleep(s)
    decreases |s.contexts|, |s.pending|
  {
    if !s.ready || s.pending == [] || s.current.Some? then []
    else
      PickHead(s);
      ServedRound(s, nif);
      var m := s.(current := Some(s.pending[0]));
      var t := Start(m, nif, s.pending[0]);
      StartActs(m, nif, s.pending[0]) + if t.current.Some? then [] else PendingActs(t, nif)
  }

  /** Those in which an event has actions run: only the callback and the answers of the network do. */
  ghost function EventActs(s: State, nif: Network, e: Event): seq<State>
    requires Ok(s) && Settled(s) && WellFormed(e)
  {
    match e
    case SecondaryCreated(id, status, reason, err) =>
      if s.current.None? || err != KErrNone then []
      else
        NotReadyOk(s);
        NewContextOk(s.(ready := true), id, status);
        RunActs(NewContextAdded(s.(ready := true), id, status), nif, s.current.value, PendingCreate, s.nextContext,
                reason)
    case QoSSet(id, reason) =>
      if ContextOf(s, id).None? then [] else ReplyActs(s, nif, PendingSetQoS, ContextOf(s, id).value, reason)
    case TftModified(id, operation, reason) =>
      if ContextOf(s, id).None? then [] else ReplyActs(s, nif, TftReply(operation), ContextOf(s, id).value, reason)
    case Activated(id, report, reason) => ConfirmedActs(s, nif, PendingActivate, id, report, reason)
    case ModifiedActive(id, report, reason) => ConfirmedActs(s, nif, PendingModifyActive, id, report, reason)
    case QueueTimer =>
      if !s.issued then []
      else
        FireOk(s);
        PendingActs(s.(issued := false), nif)
    case _ => []
  }

  ghost function ConfirmedActs(s: State, nif: Network, reply: Expected, id: int, report: Report, reason: int)
    : seq<State>
    requires Ok(s) && Settled(s) && ValidSlots(report.tft)
  {
    if ContextOf(s, id).None? then []
    else
      var c := ContextOf(s, id).value;
      ConfirmedOk(s, c, report);
      ReplyActs(Confirmed(s, c, report), nif, reply, c, reason)
  }

  lemma KeptStaysUnique(s: State, t: State)
    requires FiltersKept(s, t) && (t.current.Some? ==> t.current.value in t.req && t.current.value in s.req)
    ensures Unique(s) ==> Unique(t)
  {
    hide Unique, FiltersKept;
    if Unique(s) {
      UniqueKept(s, t);
    }
  }

  /** Unique identities are those of a state whose filter in flight has a precedence. */
  lemma UniquePreceded(s: State)
    requires Unique(s)
    ensures Preceded(s)
  {
    hide PrecedencesDistinct;
  }

  // ---------- actions ----------

  /** With a full map, an accepted filter is in flight without a precedence. */
  lemma ExhaustedInFlight(s: State, nif: Network, r: RequestRef)
    requires Ok(s) && Acting(s, r) && AsksForFilter(s, r)
    requires FreePrecedence(s.marked) < 0 && nif(s.controls + [FilterCall(s, r)]) >= 0
    ensures !Preceded(Act(s, nif, r).0)
  {
    hide Ok, Fail, LastMatch, Reserve, FreeId, FiltersKept, FreePrecedence, Table;
    RequestParts(s, r);
    var c, f := s.req[r].context.value, s.req[r].flow.value;
    ReservedOk(s, r, c, f);
    ReservedFilter(s, r, c, f);
    var m := Reserved(s, r, c, f);
    AskedOk(m, r, FilterCall(s, r), PendingPacketFilterAdd);
    assert Act(s, nif, r) == ActAddPacketFilter(s, nif, r);
  }

  /** An action that adds no filter keeps filters as they are. */
  lemma NoFilterKept(s: State, nif: Network, r: RequestRef)
    requires Ok(s) && Acting(s, r) && !AsksForFilter(s, r)
    ensures FiltersKept(s, Act(s, nif, r).0)
  {
    hide Ok, Fail, Ask, LastMatch, FreeId, FiltersKept, Table, ActAddPacketFilter;
    ActOk(s, nif, r);
    if Table(s.req[r].kind)[s.req[r].state] == AddPacketFilter {
      NothingAdded(s, nif, r);
    }
  }

  lemma NothingAdded(s: State, nif: Network, r: RequestRef)
    requires Ok(s) && Acting(s, r) && !AsksForFilter(s, r) && Table(s.req[r].kind)[s.req[r].state] == AddPacketFilter
    ensures FiltersKept(s, ActAddPacketFilter(s, nif, r).0)
  {
    hide Ok, Fail, Ask, LastMatch, FreeId, FiltersKept, Table;
    FiltersKeptReflexive(s);
    if s.req[r].context.Some? && s.req[r].flow.Some? {
      RequestParts(s, r);
      var c := s.req[r].context.value;
      var filters := s.ctx[c].filters;
      if LastMatch(s.flows[s.req[r].flow.value].filter, filters) < 0 && FreeId(filters) < 0 {
        FailStep(s, r, Some(c), FreeId(filters));
      }
    }
  }

  /** The request being served, after an action, is the same or none. */
  lemma ActCurrent(s: State, nif: Network, r: RequestRef)
    requires Ok(s) && Acting(s, r)
    ensures var t := Act(s, nif, r).0; t.current.Some? ==> t.current == Some(r) && r in t.req
  {
    hide Ok, Act, Table;
    ActOk(s, nif, r);
  }

  lemma ActUniquely(s: State, nif: Network, r: RequestRef)
    requires Ok(s) && Acting(s, r)
    ensures StaysUnique(s, Act(s, nif, r).0, [s], nif)
    ensures !Act(s, nif, r).1 ==> !FindsFull(s, nif) && (Unique(s) ==> Unique(Act(s, nif, r).0))
  {
    hide Ok, Act, Unique, Preceded, AsksForFilter, FiltersKept, FreePrecedence, Table, FilterCall;
    ActCurrent(s, nif, r);
    if AsksForFilter(s, r) {
      AsksIsDone(s, nif, r);
      if Unique(s) {
        AddingNeedsRoom(s, nif, r);
      }
      if FindsFull(s, nif) {
        assert s in [s];
        ExhaustedInFlight(s, nif, r);
      }
    } else {
      NoFilterKept(s, nif, r);
      KeptStaysUnique(s, Act(s, nif, r).0);
    }
  }

  lemma AsksIsDone(s: State, nif: Network, r: RequestRef)
    requires Ok(s) && Acting(s, r) && AsksForFilter(s, r)
    ensures Act(s, nif, r).1
  {
    hide Ok, Fail, Ask, LastMatch, FreeId;
    RequestParts(s, r);
  }

  lemma {:induction false} RunActionsUniquely(s: State, nif: Network, r: RequestRef)
    requires Ok(s) && Acting(s, r)
    ensures StaysUnique(s, RunActions(s, nif, r), Acts(s, nif, r), nif)
    decreases |Table(s.req[r].kind)| - s.req[r].state
  {
    hide Ok, Act, Unique, Preceded, FiltersKept, Table, FindsFull;
    ActUniquely(s, nif, r);
    ActContinues(s, nif, r);
    var (t, done) := Act(s, nif, r);
    if !done {
      ActCurrent(s, nif, r);
      ActsCurrent(s, nif, r);
      AdvanceOk(t, r);
      KeptStaysUnique(t, Advance(t, r));
      RunActionsUniquely(Advance(t, r), nif, r);
    }
  }

  lemma ActsCurrent(s: State, nif: Network, r: RequestRef)
    requires Ok(s) && Acting(s, r) && !Act(s, nif, r).1
    ensures Acting(Act(s, nif, r).0, r) && Ok(Act(s, nif, r).0) && r in Act(s, nif, r).0.req
  {
    hide Ok, Act, Table;
    ActOk(s, nif, r);
  }

  // ---------- replies, starts and the queue ----------

  lemma RunUniquely(s: State, nif: Network, r: RequestRef, reply: Expected, c: ContextRef, reason: int)
    requires Ok(s) && s.current == Some(r) && r in s.req && Waiting(s.req[r]) && c in s.ctx
    ensures StaysUnique(s, Run(s, nif, r, reply, c, reason), RunActs(s, nif, r, reply, c, reason), nif)
  {
    hide Ok, Unique, Preceded, FiltersKept, RunActions, Acts, FindsFull, Fail, Destruct, Waiting,
      Heard, Resumed, StepOk;
    RunReady(s, r, c, reply);
    var m := SetRequest(s, r, s.req[r].(context := Some(c)));
    var t := Run(s, nif, r, reply, c, reason);
    KeptStaysUnique(s, m);
    if s.req[r].expected != reply && s.req[r].expected != PendingAny {
      var h := Heard(m, r, Strange(reply));
      HeardOk(m, r, Strange(reply));
      KeptStaysUnique(m, h);
      DestructStep(h, h, r, Err(KErrCancel));
      StaysCurrent(h, t, r);
      KeptStaysUnique(h, t);
    } else if reason == KErrNone {
      KeptStaysUnique(s, Resumed(s, r, c, reply));
      RunActionsUniquely(Resumed(s, r, c, reply), nif, r);
    } else {
      var h := Heard(m, r, Failed(reply, reason));
      HeardOk(m, r, Failed(reply, reason));
      KeptStaysUnique(m, h);
      FailStep(h, r, Some(c), reason);
      StaysCurrent(h, t, r);
      KeptStaysUnique(h, t);
    }
  }

  lemma StartUniquely(s: State, nif: Network, r: RequestRef)
    requires Ok(s) && s.current == Some(r) && r in s.req && Idle(s.req[r])
    ensures StaysUnique(s, Start(s, nif, r), StartActs(s, nif, r), nif)
  {
    hide Ok, Unique, Preceded, FiltersKept, RunActions, Acts, FindsFull, Destruct, StartDelete, Waiting, Begun, Moot;
    var t := Start(s, nif, r);
    if s.req[r].kind == Delete {
      StartDeleteOk(s, r);
      var m := StartDelete(s, r);
      DestructOk(m, r, Err(KErrNone));
      DestructShape(m, r, Err(KErrNone));
      KeptStaysUnique(s, m);
      KeptStaysUnique(m, t);
    } else if Moot(s, s.req[r]) {
      DestructStep(s, s, r, Err(KErrNone));
      StaysCurrent(s, t, r);
      KeptStaysUnique(s, t);
    } else {
      BegunOk(s, r);
      KeptStaysUnique(s, SetRequest(s, r, Begun(s, r)));
      RunActionsUniquely(SetRequest(s, r, Begun(s, r)), nif, r);
    }
  }

  lemma PickUniquely(s: State, r: RequestRef)
    requires Unique(s) && r in s.req && Idle(s.req[r])
    ensures Unique(s.(current := Some(r)))
  {
  }

  lemma IdlePreceded(s: State)
    requires s.current.None?
    ensures Preceded(s)
  {
  }

  lemma {:induction false} RunPendingUniquely(s: State, nif: Network)
    requires OkAsleep(s) && Settled(s)
    ensures StaysUnique(s, RunPending(s, nif), PendingActs(s, nif), nif)
    decreases |s.contexts|, |s.pending|
  {
    hide Ok, OkAsleep, Start, StartActs, FindsFull, Unique, Preceded, Waiting, Idle;
    if s.ready && s.pending != [] && s.current.None? {
      var r := s.pending[0];
      PickHead(s);
      var m := s.(current := Some(r));
      ServedRound(s, nif);
      StartUniquely(m, nif, r);
      if Unique(s) {
        PickUniquely(s, r);
      }
      var t := Start(m, nif, r);
      if t.current.None? {
        IdlePreceded(t);
        RunPendingUniquely(t, nif);
      }
    }
  }

  // ---------- events ----------

  /** Identities are those of filters, marks and requests. */
  lemma UniqueFrame(s: State, t: State)
    requires t.marked == s.marked && t.req == s.req && t.current == s.current
    requires forall c :: c in t.ctx ==> t.ctx[c].filters == if c in s.ctx then s.ctx[c].filters else []
    ensures Unique(s) ==> Unique(t)
  {
  }

  lemma AddedUniquely(s: State, q: Request)
    requires Ok(s)
    ensures Unique(s) ==> Unique(AddRequest(s, q))
  {
    hide Ok;
    OkAtQueue(s);
  }

  lemma ReplyUniquely(s: State, nif: Network, reply: Expected, c: ContextRef, reason: int)
    requires Ok(s) && Settled(s) && c in s.ctx
    ensures StaysUnique(s, Reply(s, nif, reply, c, reason), ReplyActs(s, nif, reply, c, reason), nif)
  {
    hide Ok, Run, RunActs, FindsFull, Unique, Preceded, Waiting;
    if s.current.Some? {
      RunUniquely(s, nif, s.current.value, reply, c, reason);
    }
  }

  lemma NewContextUnique(s: State, id: int, status: ContextStatus)
    requires Ok(s) && s.current.Some?
    ensures Unique(s) ==> Unique(NewContextAdded(s.(ready := true), id, status))
  {
    hide Ok, Unique;
    NotReadyOk(s);
    NewContextOk(s.(ready := true), id, status);
    UniqueFrame(s, NewContextAdded(s.(ready := true), id, status));
  }

  lemma FailedSecondaryUnique(s: State, nif: Network, id: int, err: int)
    requires Ok(s) && Settled(s) && s.current.Some?
    ensures var d := Destruct(Heard(s.(ready := true), s.current.value, Failed(PendingCreate, err)), s.current.value,
                       Err(err));
            Unique(s) ==> Unique(SendControl(d, DeleteContext(id)))
  {
    hide Ok, Unique, Destruct, FiltersKept, Waiting;
    var m := s.(ready := true);
    var r := s.current.value;
    ReadyOk(s);
    UniqueFrame(s, m);
    var h := Heard(m, r, Failed(PendingCreate, err));
    HeardOk(m, r, Failed(PendingCreate, err));
    KeptStaysUnique(m, h);
    DestructOk(h, r, Err(err));
    var d := Destruct(h, r, Err(err));
    DestructShape(h, r, Err(err));
    KeptStaysUnique(h, d);
    UniqueFrame(d, SendControl(d, DeleteContext(id)));
  }

  lemma CreatedUniquely(s: State, nif: Network, id: int, status: ContextStatus, reason: int)
    requires Ok(s) && Settled(s) && s.current.Some?
    ensures var e := SecondaryCreated(id, status, reason, KErrNone);
            StaysUnique(s, Step(s, nif, e), EventActs(s, nif, e), nif)
  {
    hide Ok, Run, RunActs, FindsFull, Unique, Preceded, Waiting, Destruct;
    NotReadyOk(s);
    NewContextOk(s.(ready := true), id, status);
    NewContextUnique(s, id, status);
    RunUniquely(NewContextAdded(s.(ready := true), id, status), nif, s.current.value, PendingCreate, s.nextContext,
                reason);
  }

  lemma SecondaryUniquely(s: State, nif: Network, id: int, status: ContextStatus, reason: int, err: int)
    requires Ok(s) && Settled(s)
    ensures var e := SecondaryCreated(id, status, reason, err);
            StaysUnique(s, Step(s, nif, e), EventActs(s, nif, e), nif)
  {
    hide Ok, Run, RunActs, FindsFull, Unique, Preceded, Waiting, Destruct;
    if s.current.None? {
      UniqueFrame(s, SendControl(s, DeleteContext(id)));
    } else if err != KErrNone {
      FailedSecondaryUnique(s, nif, id, err);
    } else {
      hide Step, EventActs;
      CreatedUniquely(s, nif, id, status, reason);
    }
  }

  lemma ReportUniquely(s: State, nif: Network, e: Event)
    requires Ok(s) && Settled(s) && WellFormed(e) && Honest(s, e)
    requires e.ParametersChanged? || e.Activated? || e.ModifiedActive?
    ensures StaysUnique(s, Step(s, nif, e), EventActs(s, nif, e), nif)
  {
    hide Ok, Unique, Preceded, Waiting, FiltersKept, Update, Confirmed, Reported, Reply, HonestReport, ContextOf,
      Notices, ValidSlots, ReplyActs, FindsFull;
    HonestIs(s, e);
    if ContextOf(s, e.contextId).Some? {
      var c := ContextOf(s, e.contextId).value;
      var m := Reported(s, c, e.report);
      ReportedOk(s, c, e.report);
      OkAtQueue(s);
      if Unique(s) {
        ReportedUnique(s, c, e.report);
      }
      if e.ParametersChanged? {
        UpdateOk(s, c, e.report);
        var u := Update(s, c, e.report);
        KeptStaysUnique(m, u);
        UniqueFrame(u, Emit(u, Notices(s.notifier, s.ctx[c], false, e.reason)));
      } else {
        ConfirmedOk(s, c, e.report);
        var u := Confirmed(s, c, e.report);
        KeptStaysUnique(m, u);
        ReplyUniquely(u, nif, if e.Activated? then PendingActivate else PendingModifyActive, c, e.reason);
      }
    }
  }

  lemma CallUniquely(s: State, nif: Network, e: Event)
    requires Ok(s) && Settled(s) && WellFormed(e) && Demands(e)
    ensures StaysUnique(s, Step(s, nif, e), EventActs(s, nif, e), nif)
  {
    hide Ok, Unique, Preceded, Channel, AddRequest;
    forall q ensures Unique(s) ==> Unique(AddRequest(s, q)) {
      AddedUniquely(s, q);
    }
    forall reason ensures Unique(s) ==> Unique(Refuse(s, reason)) {
      UniqueFrame(s, Refuse(s, reason));
    }
  }

  lemma QuietUniquely(s: State, t: State)
    requires Ok(s) && FiltersKept(s, t) && Sound(s, t, 0)
    ensures Unique(s) ==> Unique(t)
  {
    hide Unique, FiltersKept, Waiting, Ok, Preceded;
    OkAtQueue(s);
    OkAtQueue(t);
    CurrentKept(s, t);
    KeptStaysUnique(s, t);
  }

  lemma StepStaysUnique(s: State, nif: Network, e: Event)
    requires Ok(s) && Settled(s) && WellFormed(e) && Honest(s, e)
    ensures StaysUnique(s, Step(s, nif, e), EventActs(s, nif, e), nif)
  {
    hide Ok, Unique, Preceded, Waiting, FiltersKept, Sound, ContextOf, HonestReport, FindsFull, RunPending, Reply,
      DoOpenFlow, DoCloseFlow, DoReleaseFlow, DoPrimaryCreated, DoSecondaryCreated, DoContextTimer,
      DoOpenChannel, DoCloseChannel, DoNegotiateChannel, DoJoinOrLeave, DoNegotiateFlow, DoScheduleDeletion,
      DoSendPacket, DoContextBlocked, DoContextUnblocked, DoContextDeleted, DoParametersChanged, DoConfirmed;
    var t := Step(s, nif, e);
    match e
    case OpenFlow(f, filter) => OpenFlowSound(s, f, filter); QuietUniquely(s, t);
    case CloseFlow(f) => CloseFlowSound(s, f); QuietUniquely(s, t);
    case ReleaseFlow(f) => ReleaseFlowSound(s, f); QuietUniquely(s, t);
    case OpenChannel(_, _, _) => CallUniquely(s, nif, e);
    case CloseChannel(_) => ContextStatusSound(s, e, nif); QuietUniquely(s, t);
    case NegotiateChannel(_, _) => NewRequestSound(s, e, nif); QuietUniquely(s, t);
    case JoinChannel(_, _) => CallUniquely(s, nif, e);
    case LeaveChannel(_, _) => NewRequestSound(s, e, nif); QuietUniquely(s, t);
    case NegotiateFlow(_, _, _) => CallUniquely(s, nif, e);
    case ScheduleDeletion(_) => NewRequestSound(s, e, nif); QuietUniquely(s, t);
    case SendPacket(_, _) => ContextStatusSound(s, e, nif); QuietUniquely(s, t);
    case PrimaryCreated(status) => PrimaryUniquely(s, status);
    case SecondaryCreated(id, status, reason, err) => SecondaryUniquely(s, nif, id, status, reason, err);
    case ContextBlocked(_, _) => ContextStatusSound(s, e, nif); QuietUniquely(s, t);
    case ContextUnblocked(_, _) => ContextStatusSound(s, e, nif); QuietUniquely(s, t);
    case ContextDeleted(_, _, _) => ContextStatusSound(s, e, nif); QuietUniquely(s, t);
    case ParametersChanged(_, _, _) => ReportUniquely(s, nif, e);
    case QoSSet(_, _) => SmallReplyUniquely(s, nif, e);
    case TftModified(_, _, _) => SmallReplyUniquely(s, nif, e);
    case Activated(_, _, _) => ReportUniquely(s, nif, e);
    case ModifiedActive(_, _, _) => ReportUniquely(s, nif, e);
    case QueueTimer => TimerUniquely(s, nif);
    case ContextTimer(c) => ContextTimerSound(s, c); QuietUniquely(s, t);
  }

  lemma PrimaryUniquely(s: State, status: ContextStatus)
    requires Ok(s) && Settled(s)
    ensures Unique(s) ==> Unique(DoPrimaryCreated(s, status))
  {
    hide Ok, Announce, Unique, Preceded;
    DeleteReady(s);
    UniqueFrame(s, DoPrimaryCreated(s, status));
  }

  lemma SmallReplyUniquely(s: State, nif: Network, e: Event)
    requires Ok(s) && Settled(s) && WellFormed(e) && (e.QoSSet? || e.TftModified?)
    ensures StaysUnique(s, Step(s, nif, e), EventActs(s, nif, e), nif)
  {
    hide Ok, Unique, Preceded, Waiting, Reply, ReplyActs, FindsFull, ContextOf;
    if ContextOf(s, e.contextId).Some? {
      var reply := if e.QoSSet? then PendingSetQoS else TftReply(e.operation);
      ReplyUniquely(s, nif, reply, ContextOf(s, e.contextId).value, e.reason);
    }
  }

  lemma TimerUniquely(s: State, nif: Network)
    requires Ok(s) && Settled(s)
    ensures StaysUnique(s, DoQueueTimer(s, nif), EventActs(s, nif, QueueTimer), nif)
  {
    hide Ok, OkAsleep, Unique, Preceded, Waiting, RunPending, PendingActs, FindsFull;
    if s.issued {
      FireOk(s);
      UniqueFrame(s, s.(issued := false));
      RunPendingUniquely(s.(issued := false), nif);
    }
  }

  /** After any event the identities are still unique exactly if no accepted filter action found the map full. */
  lemma StepUniquely(s: State, nif: Network, e: Event)
    requires Ok(s) && Settled(s) && WellFormed(e) && Honest(s, e) && Unique(s)
    ensures Unique(Step(s, nif, e)) <==> Room(EventActs(s, nif, e), nif)
  {
    hide Ok, Settled, Step, EventActs, Room, Unique, Preceded, Honest, WellFormed;
    StepStaysUnique(s, nif, e);
    if Unique(Step(s, nif, e)) {
      UniquePreceded(Step(s, nif, e));
    }
  }

  // ---------- runs ----------

  /** In every state of the run the identities are unique. */
  ghost predicate AlwaysUnique(s: State, nif: Network, es: seq<Event>)
    requires Ok(s) && Settled(s) && AllWellFormed(es)
    decreases |es|
  {
    Unique(s) && (es != [] ==> (NextReady(s, nif, es); AlwaysUnique(Step(s, nif, es[0]), nif, es[1..])))
  }

  /** No accepted filter action of the run finds the map full. */
  ghost predicate AlwaysRoom(s: State, nif: Network, es: seq<Event>)
    requires Ok(s) && Settled(s) && AllWellFormed(es)
    decreases |es|
  {
    es != [] ==>
      (NextReady(s, nif, es); Room(EventActs(s, nif, es[0]), nif) && AlwaysRoom(Step(s, nif, es[0]), nif, es[1..]))
  }

  lemma {:induction false} UniqueExactly(s: State, nif: Network, es: seq<Event>)
    requires Ok(s) && Settled(s) && AllWellFormed(es) && HonestRun(s, nif, es) && Unique(s)
    ensures AlwaysUnique(s, nif, es) <==> AlwaysRoom(s, nif, es)
    decreases |es|
  {
    hide Ok, Settled, Step, EventActs, Room, Unique, Honest, WellFormed;
    if es != [] {
      NextReady(s, nif, es);
      StepUniquely(s, nif, es[0]);
      var t := Step(s, nif, es[0]);
      if Unique(t) {
        UniqueExactly(t, nif, es[1..]);
      }
    }
  }

  /**
   Over every run from the construction of an interface on, with an honest network:
   identities are unique throughout exactly if no action that adds a filter, and is
   accepted by the network, finds the map full.
  */
  lemma IdentitiesUniqueExactly(notifier: bool, nif: Network, es: seq<Event>)
    requires AllWellFormed(es) && HonestFromStart(notifier, nif, es)
    ensures Ok(Initial(notifier)) && Settled(Initial(notifier))
    ensures AlwaysUnique(Initial(notifier), nif, es) <==> AlwaysRoom(Initial(notifier), nif, es)
  {
    hide Ok, Settled, Unique, HonestRun, AlwaysUnique, AlwaysRoom;
    InitialOk(notifier);
    UniqueExactly(Initial(notifier), nif, es);
  }
}
