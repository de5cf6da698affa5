/**
 The loops that run actions: CRequestBase::Run on a reply of the network,
 CRequestBase::Start and its overrides, and CNif::RunPendingRequests. Each is
 defined with its termination, and ends with the request completed or waiting
 for one specific reply.
*/
module GuqosLoops {
  import opened Wrappers
  import opened Sequences
  import opened PacketFilters
  import opened Tft
  import opened GuqosState
  import opened GuqosHeap
  import opened GuqosRequests
  import opened GuqosSteps

  /** On to the next state of the table. */
  function Advance(s: State, r: RequestRef): State
    requires r in s.req
  {
    SetRequest(s, r, s.req[r].(state := s.req[r].state + 1))
  }

  lemma AdvanceOk(s: State, r: RequestRef)
    requires Ok(s) && Acting(s, r) && s.req[r].state + 1 < |Table(s.req[r].kind)|
    ensures Ok(Advance(s, r)) && Acting(Advance(s, r), r)
    ensures FiltersKept(s, Advance(s, r))
  {
    hide Ok, Table;
    RequestParts(s, r);
    SetRequestOk(s, r, s.req[r].(state := s.req[r].state + 1));
  }

  /** Run actions, state by state, until one of them asks the network or ends the request. */
  function RunActions(s: State, nif: Network, r: RequestRef): State
    requires Ok(s) && Acting(s, r)
    decreases |Table(s.req[r].kind)| - s.req[r].state
  {
    ActContinues(s, nif, r);
    var (t, done) := Act(s, nif, r);
    if done then t else RunActions(Advance(t, r), nif, r)
  }

  lemma ActContinues(s: State, nif: Network, r: RequestRef)
    requires Ok(s) && Acting(s, r)
    ensures var (t, done) := Act(s, nif, r);
            !done ==> r in t.req && Ok(Advance(t, r)) && Acting(Advance(t, r), r)
                      && t.req[r].kind == s.req[r].kind && t.req[r].state == s.req[r].state
                      && s.req[r].state + 1 < |Table(s.req[r].kind)|
  {
    hide Ok, Act, Table;
    ActOk(s, nif, r);
    if !Act(s, nif, r).1 {
      AdvanceOk(Act(s, nif, r).0, r);
    }
  }

  /** What a run of actions guarantees: completed with less to serve, or waiting in a state from `least` on. */
  ghost predicate Served(s: State, t: State, r: RequestRef, kind: Kind, least: nat) {
    && Ok(t)
    && s.controls <= t.controls
    && t.flows.Keys == s.flows.Keys
    && t.ready == s.ready && t.notifier == s.notifier
    && (|| Ended(s, t, r)
        || (t.current == Some(r) && r in t.req && Waiting(t.req[r]) && t.req[r].kind == kind
           && least <= t.req[r].state))
  }

  lemma {:induction false} RunActionsOk(s: State, nif: Network, r: RequestRef)
    requires Ok(s) && Acting(s, r)
    ensures Served(s, RunActions(s, nif, r), r, s.req[r].kind, s.req[r].state)
    ensures Unadded(s.req[r]) ==> StaysFit(s, RunActions(s, nif, r))
    decreases |Table(s.req[r].kind)| - s.req[r].state
  {
    hide Ok, Act, Fit, Load, FiltersKept, Waiting, Table;
    ActOk(s, nif, r);
    ActContinues(s, nif, r);
    var t := Act(s, nif, r).0;
    if Act(s, nif, r).1 {
      if Fit(s) && Unadded(s.req[r]) {
        ActFit(s, nif, r);
      }
    } else {
      AdvanceOk(t, r);
      var next := Advance(t, r);
      RunActionsOk(next, nif, r);
      var last := RunActions(next, nif, r);
      assert last == RunActions(s, nif, r);
      if Fit(s) && Unadded(s.req[r]) {
        ActFit(s, nif, r);
        FitKept(t, next);
      }
    }
  }

  // ---------- a reply of the network ----------

  /** CRequestBase::Run: event `reply` of context `c` with result `reason`. */
  function Run(s: State, nif: Network, r: RequestRef, reply: Expected, c: ContextRef, reason: int): State
    requires Ok(s) && s.current == Some(r) && r in s.req && Waiting(s.req[r]) && c in s.ctx
  {
    var m := SetRequest(s, r, s.req[r].(context := Some(c)));
    RunReady(s, r, c, reply);
    if s.req[r].expected != reply && s.req[r].expected != PendingAny then
      Destruct(Heard(m, r, Strange(reply)), r, Err(KErrCancel))
    else if reason == KErrNone then
      RunActions(Resumed(s, r, c, reply), nif, r)
    else
      HeardOk(m, r, Failed(reply, reason));
      Fail(Heard(m, r, Failed(reply, reason)), r, Some(c), reason)
  }

  /** The request about to run the action after the one whose reply has come. */
  function Resumed(s: State, r: RequestRef, c: ContextRef, reply: Expected): State
    requires r in s.req
  {
    SetRequest(s, r, s.req[r].(context := Some(c), expected := PendingAny, state := s.req[r].state + 1,
                               said := s.req[r].said + [Answered(reply)]))
  }

  lemma RunReady(s: State, r: RequestRef, c: ContextRef, reply: Expected)
    requires Ok(s) && s.current == Some(r) && r in s.req && Waiting(s.req[r]) && c in s.ctx
    ensures var m := SetRequest(s, r, s.req[r].(context := Some(c)));
            Ok(m) && r in m.req && c in m.ctx && FiltersKept(s, m)
    ensures Ok(Resumed(s, r, c, reply)) && Acting(Resumed(s, r, c, reply), r)
            && FiltersKept(s, Resumed(s, r, c, reply))
  {
    hide Ok, Table, FiltersKept, Resumed;
    SameRequestOk(s, r, s.req[r].(context := Some(c)));
    ResumedReady(s, r, c, reply);
  }

  lemma ResumedReady(s: State, r: RequestRef, c: ContextRef, reply: Expected)
    requires Ok(s) && s.current == Some(r) && r in s.req && Waiting(s.req[r]) && c in s.ctx
    ensures Ok(Resumed(s, r, c, reply)) && Acting(Resumed(s, r, c, reply), r)
            && FiltersKept(s, Resumed(s, r, c, reply))
  {
    hide Ok, Table, FiltersKept, WaitsFor;
    SameRequestOk(s, r, s.req[r].(context := Some(c), expected := PendingAny, state := s.req[r].state + 1,
                                  said := s.req[r].said + [Answered(reply)]));
  }

  /** Changing only how far the current request has got. */
  lemma SameRequestOk(s: State, r: RequestRef, q: Request)
    requires Ok(s) && s.current == Some(r) && r in s.req
    requires q == s.req[r].(context := q.context, expected := q.expected, state := q.state, modified := q.modified,
                            said := q.said)
    requires s.req[r].state <= q.state
    ensures Ok(SetRequest(s, r, q)) && FiltersKept(s, SetRequest(s, r, q))
  {
    hide Ok;
    RequestParts(s, r);
    SetRequestOk(s, r, q);
  }

  /**
   A reply is answered by completion, or by waiting for one specific further
   reply in a strictly later state of the table.
  */
  lemma RunOk(s: State, nif: Network, r: RequestRef, reply: Expected, c: ContextRef, reason: int)
    requires Ok(s) && s.current == Some(r) && r in s.req && Waiting(s.req[r]) && c in s.ctx
    ensures Served(s, Run(s, nif, r, reply, c, reason), r, s.req[r].kind, s.req[r].state + 1)
    ensures StaysFit(s, Run(s, nif, r, reply, c, reason))
  {
    hide Ok, Fit, Load, FiltersKept, RunActions, Fail, Destruct, Waiting;
    RunReady(s, r, c, reply);
    var m := SetRequest(s, r, s.req[r].(context := Some(c)));
    var t := Run(s, nif, r, reply, c, reason);
    if s.req[r].expected != reply && s.req[r].expected != PendingAny {
      var h := Heard(m, r, Strange(reply));
      HeardOk(m, r, Strange(reply));
      FiltersKeptTransitive(s, m, h);
      DestructStep(h, h, r, Err(KErrCancel));
      StepFit(s, h, t, r);
    } else if reason == KErrNone {
      RunActionsOk(Resumed(s, r, c, reply), nif, r);
      if Fit(s) {
        ResumedUnadded(s, r, c, reply);
        FitCurrent(s, Resumed(s, r, c, reply), r);
      }
    } else {
      var h := Heard(m, r, Failed(reply, reason));
      HeardOk(m, r, Failed(reply, reason));
      FiltersKeptTransitive(s, m, h);
      FailStep(h, r, Some(c), reason);
      StepFit(s, h, t, r);
    }
  }

  lemma ResumedUnadded(s: State, r: RequestRef, c: ContextRef, reply: Expected)
    requires Fit(s) && r in s.req
    ensures r in Resumed(s, r, c, reply).req && Unadded(Resumed(s, r, c, reply).req[r])
  {
    hide Unique;
  }

  lemma FitCurrent(s: State, t: State, r: RequestRef)
    requires Fit(s) && FiltersKept(s, t) && r in s.req && r in t.req
    requires t.current.Some? ==> t.current == Some(r)
    ensures Fit(t) && Load(t) <= Load(s)
  {
    hide Fit, Load, FiltersKept;
    FitKept(s, t);
  }

  lemma StepFit(s: State, m: State, t: State, r: RequestRef)
    requires FiltersKept(s, m) && FiltersKept(m, t) && r in s.req && r in m.req
    requires m.current.Some? ==> m.current == Some(r)
    requires StepOk(m, t, r, false)
    ensures StaysFit(s, t)
  {
    hide Ok, Fit, Load, FiltersKept;
    if Fit(s) {
      FitCurrent(s, m, r);
      StaysCurrent(m, t, r);
      FitKept(m, t);
    }
  }

  // ---------- starting a request ----------

  /** The request with the context it starts on, and the state it starts in. */
  function Begun(s: State, r: RequestRef): Request
    requires r in s.req
  {
    var q := s.req[r];
    match q.kind
    case Open =>
      var c := if q.flow.Some? && q.flow.value in s.flows then s.flows[q.flow.value].context else None;
      var reuse := c.Some? && c != Some(s.primary) && c.value in s.ctx && s.ctx[c.value].refs == 1;
      WithContext(q, c).(state := if reuse then KStateReuseOldContext else q.state)
    case Join =>
      WithContext(q, if q.flow.Some? && q.flow.value in s.flows then s.flows[q.flow.value].context else None)
    case _ => WithContext(q, q.target)
  }

  /** Nothing to do: the flow has been closed, or has already joined the channel. */
  predicate Moot(s: State, q: Request) {
    match q.kind
    case Open => q.flow.None?
    case Join => q.flow.None? || (q.flow.value in s.flows && s.flows[q.flow.value].context == q.target)
    case _ => false
  }

  /** The Start methods. */
  function Start(s: State, nif: Network, r: RequestRef): State
    requires Ok(s) && s.current == Some(r) && r in s.req && Idle(s.req[r])
  {
    if s.req[r].kind == Delete then
      StartDeleteOk(s, r);
      Destruct(StartDelete(s, r), r, Err(KErrNone))
    else if Moot(s, s.req[r]) then
      Destruct(s, r, Err(KErrNone))
    else
      BegunOk(s, r);
      RunActions(SetRequest(s, r, Begun(s, r)), nif, r)
  }

  /** The part of CDeleteRequest::Start before its completion. */
  function StartDelete(s: State, r: RequestRef): State
    requires Ok(s) && s.current == Some(r) && r in s.req && s.req[r].kind == Delete
  {
    if s.req[r].target.None? then s
    else
      var c := s.req[r].target.value;
      StartDeleteReady(s, r, c);
      DeletePdpContext(DeleteOnNetwork(SetRequest(s, r, s.req[r].(target := None)), c), c)
  }

  lemma StartDeleteReady(s: State, r: RequestRef, c: ContextRef)
    requires Ok(s) && s.current == Some(r) && r in s.req && s.req[r].kind == Delete && s.req[r].target == Some(c)
    ensures c in s.ctx
    ensures var told := DeleteOnNetwork(SetRequest(s, r, s.req[r].(target := None)), c);
            && Ok(told) && told.primary in told.ctx && c in told.ctx
            && (forall x :: x in told.contexts <==> x in told.ctx)
            && (forall x :: x in told.pending <==> x in told.req)
            && s.controls <= told.controls
            && FiltersKept(s, told)
  {
    hide Ok;
    RequestParts(s, r);
    var forgotten := SetRequest(s, r, s.req[r].(target := None));
    SetRequestOk(s, r, s.req[r].(target := None));
    if c != s.primary {
      ControlOk(forgotten, DeleteContext(s.ctx[c].contextId));
    }
    DeleteReady(DeleteOnNetwork(forgotten, c));
  }

  lemma StartDeleteOk(s: State, r: RequestRef)
    requires Ok(s) && s.current == Some(r) && r in s.req && s.req[r].kind == Delete
    ensures var t := StartDelete(s, r);
            && Ok(t) && r in t.req && t.current == Some(r) && FiltersKept(s, t)
            && s.controls <= t.controls && t.flows.Keys == s.flows.Keys
            && (|t.contexts| < |s.contexts| || (t.contexts == s.contexts && t.pending == s.pending))
  {
    hide Ok, DeletePdpContext, FiltersKept;
    if s.req[r].target.Some? {
      var c := s.req[r].target.value;
      StartDeleteReady(s, r, c);
      var told := DeleteOnNetwork(SetRequest(s, r, s.req[r].(target := None)), c);
      DeletePdpContextOk(told, c);
      FiltersKeptTransitive(s, told, DeletePdpContext(told, c));
    } else {
      assert FiltersKept(s, s) by {
        FiltersKeptReflexive(s);
      }
    }
  }

  lemma BegunShape(s: State, r: RequestRef)
    requires Ok(s) && r in s.req && Idle(s.req[r]) && s.req[r].kind != Delete
    ensures var q := Begun(s, r);
            && q == s.req[r].(context := q.context, state := q.state, modified := q.modified)
            && (q.context.Some? ==> q.context.value in s.ctx)
            && q.state < |Table(q.kind)|
  {
    hide Ok;
    RequestParts(s, r);
    var q := s.req[r];
    if q.flow.Some? {
      AttachedFlow(s, q.flow.value);
    }
  }

  lemma BegunOk(s: State, r: RequestRef)
    requires Ok(s) && s.current == Some(r) && r in s.req && Idle(s.req[r]) && s.req[r].kind != Delete
    ensures var t := SetRequest(s, r, Begun(s, r));
            Ok(t) && Acting(t, r) && FiltersKept(s, t) && t.req[r].kind == s.req[r].kind
  {
    hide Ok, Begun, FiltersKept, Table;
    BegunShape(s, r);
    SameRequestOk(s, r, Begun(s, r));
  }

  lemma StartOk(s: State, nif: Network, r: RequestRef)
    requires Ok(s) && s.current == Some(r) && r in s.req && Idle(s.req[r])
    ensures Served(s, Start(s, nif, r), r, s.req[r].kind, 0)
    ensures StaysFit(s, Start(s, nif, r))
  {
    hide Ok, Fit, Load, FiltersKept, RunActions, Destruct, StartDelete, Waiting, Begun, Moot;
    var t := Start(s, nif, r);
    if s.req[r].kind == Delete {
      StartDeleteOk(s, r);
      StartedDelete(s, r);
    } else if Moot(s, s.req[r]) {
      DestructStep(s, s, r, Err(KErrNone));
      if Fit(s) {
        FitKept(s, t);
      }
    } else {
      BegunOk(s, r);
      var m := SetRequest(s, r, Begun(s, r));
      RunActionsOk(m, nif, r);
      if Fit(s) {
        BegunShape(s, r);
        FitCurrent(s, m, r);
      }
    }
  }

  lemma StartedDelete(s: State, r: RequestRef)
    requires Ok(s) && s.current == Some(r) && r in s.req && s.req[r].kind == Delete
    requires Ok(StartDelete(s, r)) && r in StartDelete(s, r).req
    ensures Served(s, Destruct(StartDelete(s, r), r, Err(KErrNone)), r, Delete, 0)
    ensures StaysFit(s, Destruct(StartDelete(s, r), r, Err(KErrNone)))
  {
    hide Ok, Fit, Load, StartDelete, Waiting;
    StartDeleteOk(s, r);
    var m := StartDelete(s, r);
    DestructOk(m, r, Err(KErrNone));
    if Fit(s) {
      FitCurrent(s, m, r);
      FitKept(m, Destruct(m, r, Err(KErrNone)));
    }
  }

  // ---------- the queue ----------

  /** Like `Ok`, for the moment when the callback has fired and is no longer set. */
  ghost predicate OkAsleep(s: State) {
    Ok(s.(issued := true))
  }

  lemma PickHead(s: State)
    requires OkAsleep(s) && s.pending != [] && s.current.None?
    ensures var m := s.(current := Some(s.pending[0]));
            Ok(m) && s.pending[0] in m.req && Idle(m.req[s.pending[0]])
  {
    hide Linked, Mirrored, ExactlyOnce, DistinctIds, NoDangling, NoDup, Idle;
    assert s.pending[0] in s.pending;
  }

  lemma StayOk(s: State)
    requires OkAsleep(s) && (!s.ready || s.pending == [] || s.current.Some?)
    ensures Ok(s)
  {
    hide Linked, Mirrored, ExactlyOnce, DistinctIds, NoDangling, Queued;
  }

  lemma OkAsleepOk(s: State)
    requires Ok(s)
    ensures OkAsleep(s)
  {
    hide Linked, Mirrored, ExactlyOnce, DistinctIds, NoDangling, Queued;
  }

  /**
   CNif::RunPendingRequests: serve the queue until a request has to wait. Each
   round either waits, deletes a context, or shortens the queue; the round that
   deletes a context may queue one more request.
  */
  function RunPending(s: State, nif: Network): State
    requires OkAsleep(s)
    decreases |s.contexts|, |s.pending|
  {
    if !s.ready || s.pending == [] || s.current.Some? then s
    else
      var r := s.pending[0];
      PickHead(s);
      ServedRound(s, nif);
      var t := Start(s.(current := Some(r)), nif, r);
      if t.current.Some? then t else RunPending(t, nif)
  }

  lemma ServedRound(s: State, nif: Network)
    requires OkAsleep(s) && s.pending != [] && s.current.None?
    requires var m := s.(current := Some(s.pending[0])); Ok(m) && s.pending[0] in m.req && Idle(m.req[s.pending[0]])
    ensures var t := Start(s.(current := Some(s.pending[0])), nif, s.pending[0]);
            && OkAsleep(t) && Ok(t)
            && s.controls <= t.controls && t.flows.Keys == s.flows.Keys && t.notifier == s.notifier
            && (t.current.Some? ==> Settled(t))
            && (t.current.None? ==>
                  |t.contexts| < |s.contexts| || (|t.contexts| == |s.contexts| && |t.pending| < |s.pending|))
  {
    hide Ok, OkAsleep, Start, Waiting, Idle;
    var r := s.pending[0];
    StartOk(s.(current := Some(r)), nif, r);
    OkAsleepOk(Start(s.(current := Some(r)), nif, r));
  }

  /** Afterwards the queue is empty, or its head waits for one specific reply. */
  lemma {:induction false} RunPendingOk(s: State, nif: Network)
    requires OkAsleep(s) && Settled(s)
    ensures var t := RunPending(s, nif);
            && Ok(t) && Settled(t)
            && s.controls <= t.controls && t.flows.Keys == s.flows.Keys && t.notifier == s.notifier
            && (s.ready && t.pending != [] ==> t.current.Some?)
    ensures StaysFit(s, RunPending(s, nif))
    decreases |s.contexts|, |s.pending|
  {
    hide Ok, OkAsleep, Start, Fit, Load, Waiting, Idle;
    if !s.ready || s.pending == [] || s.current.Some? {
      StayOk(s);
    } else {
      var r := s.pending[0];
      PickHead(s);
      var m := s.(current := Some(r));
      ServedRound(s, nif);
      StartOk(m, nif, r);
      var t := Start(m, nif, r);
      if Fit(s) {
        PickFit(s, r);
      }
      if t.current.None? {
        RunPendingOk(t, nif);
      }
    }
  }

  lemma PickFit(s: State, r: RequestRef)
    requires Fit(s) && r in s.req && Idle(s.req[r])
    ensures Fit(s.(current := Some(r))) && Load(s.(current := Some(r))) <= Load(s)
  {
    SubsetSize(Taken(s.marked, None), Taken(s.marked, InFlight(s.req, s.current)));
  }
}
