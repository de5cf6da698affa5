/**
 What holds over every run of a CNif, for every behaviour of the network and
 every order of calls, replies and timers.
*/
module GuqosTheorems {
  import opened Wrappers
  import opened Sequences
  import opened PacketFilters
  import opened Tft
  import opened GuqosState
  import opened GuqosHeap
  import opened GuqosRequests
  import opened GuqosSteps
  import opened GuqosLoops
  import opened GuqosEvents
  import opened GuqosRuns

  ghost predicate AllWellFormed(es: seq<Event>) {
    forall i :: 0 <= i < |es| ==> WellFormed(es[i])
  }

  /** The state after a sequence of events. */
  function After(s: State, nif: Network, es: seq<Event>): State
    requires Ok(s) && Settled(s) && AllWellFormed(es)
    decreases |es|
  {
    if es == [] then s
    else
      NextReady(s, nif, es);
      After(Step(s, nif, es[0]), nif, es[1..])
  }

  lemma NextReady(s: State, nif: Network, es: seq<Event>)
    requires Ok(s) && Settled(s) && AllWellFormed(es) && es != []
    ensures WellFormed(es[0]) && AllWellFormed(es[1..])
    ensures Ok(Step(s, nif, es[0])) && Settled(Step(s, nif, es[0]))
  {
    hide Ok, Settled, Step, WellFormed;
    StepSound(s, nif, es[0]);
    SettledAfterReplies(s, Step(s, nif, es[0]), Replies(s, es[0]));
  }

  lemma SettledAfterReplies(s: State, t: State, k: nat)
    requires Sound(s, t, k)
    ensures Ok(t) && Settled(t) && s.controls <= t.controls && t.notifier == s.notifier
  {
  }

  /** The state after a run: a sequence of events from the construction of the object on. */
  function Reached(notifier: bool, nif: Network, es: seq<Event>): State
    requires AllWellFormed(es)
  {
    InitialOk(notifier);
    After(Initial(notifier), nif, es)
  }

  lemma ReachedOk(notifier: bool, nif: Network, es: seq<Event>)
    requires AllWellFormed(es)
    ensures var t := Reached(notifier, nif, es); Ok(t) && Settled(t) && t.notifier == notifier
  {
    InitialOk(notifier);
    hide Ok, Settled;
    AfterOk(Initial(notifier), nif, es);
  }

  /** Each report in the run is honest about the filters of its context. */
  ghost predicate HonestRun(s: State, nif: Network, es: seq<Event>)
    requires Ok(s) && Settled(s) && AllWellFormed(es)
    decreases |es|
  {
    es != [] ==>
      && WellFormed(es[0]) && Honest(s, es[0])
      && (NextReady(s, nif, es); HonestRun(Step(s, nif, es[0]), nif, es[1..]))
  }

  /** Each call that asks for a filter is made while the precedence map has room for one more. */
  ghost predicate PacedRun(s: State, nif: Network, es: seq<Event>)
    requires Ok(s) && Settled(s) && AllWellFormed(es)
    decreases |es|
  {
    es != [] ==>
      && (Demands(es[0]) ==> Load(s) < KMaxEvaluationPrecedences)
      && (NextReady(s, nif, es); PacedRun(Step(s, nif, es[0]), nif, es[1..]))
  }

  /** How many calls of the run ask for a filter. */
  function Calls(es: seq<Event>): nat {
    if es == [] then 0 else (if Demands(es[0]) then 1 else 0) + Calls(es[1..])
  }

  lemma {:induction false} AfterOk(s: State, nif: Network, es: seq<Event>)
    requires Ok(s) && Settled(s) && AllWellFormed(es)
    ensures Ok(After(s, nif, es)) && Settled(After(s, nif, es))
    ensures s.controls <= After(s, nif, es).controls && After(s, nif, es).notifier == s.notifier
    ensures Fit(s) && HonestRun(s, nif, es) && PacedRun(s, nif, es) ==> Fit(After(s, nif, es))
    decreases |es|
  {
    hide Ok, Settled, Step, Fit, Load, Honest, WellFormed, Demands;
    if es != [] {
      NextReady(s, nif, es);
      var t := Step(s, nif, es[0]);
      StepSound(s, nif, es[0]);
      SettledAfterReplies(s, t, Replies(s, es[0]));
      AfterOk(t, nif, es[1..]);
    }
  }

  // ---------- exactly-once completion ----------

  /**
   Over every run: a request that was ever added is either queued, exactly once,
   or has been destructed, exactly once; and its completion has been delivered
   exactly once if it is destructed and has a listener, otherwise never.
  */
  lemma ExactlyOnceCompletion(notifier: bool, nif: Network, es: seq<Event>, r: RequestRef)
    requires AllWellFormed(es)
    ensures var t := Reached(notifier, nif, es);
            && NoDup(t.pending)
            && (forall i, j :: 0 <= i < j < |t.log| ==> t.log[i].request != t.log[j].request)
            && (r < t.nextRequest <==> r in t.pending || Logged(t.log, r))
            && (r in t.pending ==> !Logged(t.log, r))
            && Deliveries(t.upcalls, r) == (if LoggedLoud(t.log, r) then 1 else 0)
  {
    hide Ok, Settled, Deliveries, NoDup, Logged, LoggedLoud, Queued;
    ReachedOk(notifier, nif, es);
    var t := Reached(notifier, nif, es);
    OkParts(t);
    DeleteReady(t);
    QueuedNoDup(t.pending, t.req, t.current);
  }

  lemma QueuedNoDup(pending: seq<RequestRef>, req: map<RequestRef, Request>, current: Option<RequestRef>)
    requires Queued(pending, req, current)
    ensures NoDup(pending)
  {
  }

  // ---------- flows and contexts ----------

  /**
   Over every run: contexts and flows point at each other, each live flow is in
   exactly one list and there once, the reference counts are the list lengths,
   the default context is alive, and no queued request refers to a dead object.
  */
  lemma FlowsAndContextsLinked(notifier: bool, nif: Network, es: seq<Event>)
    requires AllWellFormed(es)
    ensures var t := Reached(notifier, nif, es);
            && Linked(t.contexts, t.ctx, t.flows)
            && t.primary in t.ctx
            && NoDangling(t.req, t.ctx.Keys, t.flows.Keys)
            && (forall f, c :: f in t.flows && c in t.ctx ==> (f in t.ctx[c].flows <==> t.flows[f].context == Some(c)))
  {
    hide Ok, Settled, NoDup, NoDangling;
    ReachedOk(notifier, nif, es);
    OkParts(Reached(notifier, nif, es));
  }

  // ---------- blocking ----------

  /**
   Over every run with the event interface installed: each live flow was last
   told exactly the blocking state its context has now.
  */
  lemma BlockingMirror(nif: Network, es: seq<Event>, f: FlowRef)
    requires AllWellFormed(es)
    requires f in Reached(true, nif, es).flows
    ensures var t := Reached(true, nif, es);
            && t.flows[f].context.Some? && t.flows[f].context.value in t.ctx
            && LastTold(t.upcalls, f) == Some(FlowBlocked(t.ctx[t.flows[f].context.value]))
  {
    hide Ok, Settled, NoDup, LastTold;
    ReachedOk(true, nif, es);
    var t := Reached(true, nif, es);
    OkParts(t);
    OkMirrored(t);
  }

  lemma OkMirrored(s: State)
    requires Ok(s) && s.notifier
    ensures Mirrored(s.ctx, s.flows, s.upcalls)
  {
  }

  // ---------- progress ----------

  /**
   Over every run: the request being served is the head of the queue and waits for
   the reply its current action asked for, never for just any reply; and whenever a
   request could be started, the callback that starts it is set.
  */
  lemma AlwaysAwaitsOneReply(notifier: bool, nif: Network, es: seq<Event>)
    requires AllWellFormed(es)
    ensures var t := Reached(notifier, nif, es);
            && (t.current.Some? ==>
                  && t.pending != [] && t.pending[0] == t.current.value
                  && t.current.value in t.req && Waiting(t.req[t.current.value])
                  && t.req[t.current.value].expected != PendingAny)
            && (t.ready && t.pending != [] && t.current.None? ==> t.issued)
  {
    hide Ok;
    ReachedOk(notifier, nif, es);
    var t := Reached(notifier, nif, es);
    QueueParts(t);
    AwakeOk(t);
  }

  /** Request `r` is alive throughout the run. */
  ghost predicate Alive(s: State, nif: Network, es: seq<Event>, r: RequestRef)
    requires Ok(s) && Settled(s) && AllWellFormed(es)
    decreases |es|
  {
    r in s.req && (es != [] ==> (NextReady(s, nif, es); Alive(Step(s, nif, es[0]), nif, es[1..], r)))
  }

  /** How many replies the run delivers. */
  function Delivered(s: State, nif: Network, es: seq<Event>): nat
    requires Ok(s) && Settled(s) && AllWellFormed(es)
    decreases |es|
  {
    if es == [] then 0
    else
      NextReady(s, nif, es);
      Replies(s, es[0]) + Delivered(Step(s, nif, es[0]), nif, es[1..])
  }

  /** A started request ends within as many replies as its table has states left. */
  lemma {:induction false} RepliesAreBounded(s: State, nif: Network, es: seq<Event>, r: RequestRef)
    requires Ok(s) && Settled(s) && AllWellFormed(es)
    requires s.current == Some(r) && Alive(s, nif, es, r)
    ensures var t := After(s, nif, es);
            && t.current == Some(r) && r in t.req && t.req[r].kind == s.req[r].kind
            && s.req[r].state + Delivered(s, nif, es) <= t.req[r].state
            && s.req[r].state + Delivered(s, nif, es) + 2 <= |Table(s.req[r].kind)|
    decreases |es|
  {
    hide Ok, Step, WellFormed, Table, WaitsFor, Replies;
    if es != [] {
      NextReady(s, nif, es);
      var t := Step(s, nif, es[0]);
      StepSound(s, nif, es[0]);
      assert r in t.req;
      RepliesAreBounded(t, nif, es[1..], r);
    }
  }

  // ---------- filter identity ----------

  /** Over a run from the construction of the object on, the network reports honestly. */
  ghost predicate HonestFromStart(notifier: bool, nif: Network, es: seq<Event>)
    requires AllWellFormed(es)
  {
    InitialOk(notifier);
    HonestRun(Initial(notifier), nif, es)
  }

  /** The network reports honestly, and calls are made while there is room. */
  ghost predicate Orderly(notifier: bool, nif: Network, es: seq<Event>)
    requires AllWellFormed(es)
  {
    InitialOk(notifier);
    HonestFromStart(notifier, nif, es) && PacedRun(Initial(notifier), nif, es)
  }

  /**
   Over every run with an honest network in which each call that asks for a filter is
   made while the precedence map has room: identifiers are distinct within 1..8 in each
   context, and precedences are distinct across all contexts of the interface.
  */
  lemma FilterIdentityIsUnique(notifier: bool, nif: Network, es: seq<Event>)
    requires AllWellFormed(es) && Orderly(notifier, nif, es)
    ensures var t := Reached(notifier, nif, es);
            && (forall c :: c in t.ctx ==> DistinctIds(t.ctx[c].filters) && |t.ctx[c].filters| <= KMaxPacketFilters)
            && PrecedencesDistinct(t.ctx, t.marked)
            && NoClash(t.ctx, InFlight(t.req, t.current))
  {
    InitialOk(notifier);
    hide Ok, Settled, Load, PrecedencesDistinct, NoClash, DistinctIds;
    AfterOk(Initial(notifier), nif, es);
    var t := Reached(notifier, nif, es);
    forall c | c in t.ctx ensures DistinctIds(t.ctx[c].filters) && |t.ctx[c].filters| <= KMaxPacketFilters {
      OkAt(t, c);
    }
  }

  /** As long as there is room for all its calls, a run with an honest network keeps identities unique. */
  lemma {:induction false} RoomForAllCalls(s: State, nif: Network, es: seq<Event>)
    requires Ok(s) && Settled(s) && AllWellFormed(es) && Fit(s) && HonestRun(s, nif, es)
    requires Load(s) + Calls(es) <= KMaxEvaluationPrecedences
    ensures PacedRun(s, nif, es) && Unique(After(s, nif, es))
    decreases |es|
  {
    hide Ok, Settled, Step, Load, Unique, Honest, WellFormed, Demands;
    if es != [] {
      NextReady(s, nif, es);
      StepSound(s, nif, es[0]);
      RoomForAllCalls(Step(s, nif, es[0]), nif, es[1..]);
    }
  }

  /**
   A report makes room: what it leaves is at most eight precedences for each context,
   one for the filter in flight, and one for each request still in the queue. So the
   next 255 calls, less those, need no care; with the eleven contexts of an interface
   and an empty queue that is 167.
  */
  lemma ReportLeavesRoom(s: State, nif: Network, e: Event, es: seq<Event>)
    requires Ok(s) && Settled(s) && Fit(s) && AllWellFormed([e] + es) && HonestRun(s, nif, [e] + es)
    requires e.ParametersChanged? || e.Activated? || e.ModifiedActive?
    requires ContextOf(s, e.contextId).Some?
    requires KMaxPacketFilters * |s.contexts| + 1 + |s.pending| + Calls(es) <= KMaxEvaluationPrecedences
    ensures PacedRun(s, nif, [e] + es) && Unique(After(s, nif, [e] + es))
  {
    hide Ok, Settled, Step, Load, Unique, Honest, HonestReport, WellFormed, ContextOf, Reported;
    var c := ContextOf(s, e.contextId).value;
    assert ([e] + es)[0] == e && ([e] + es)[1..] == es;
    NextReady(s, nif, [e] + es);
    HonestIs(s, e);
    ReportedLoad(s, c, e.report);
    ReportSound(s, e, nif);
    RoomForAllCalls(Step(s, nif, e), nif, es);
  }

  lemma HonestIs(s: State, e: Event)
    requires Ok(s) && WellFormed(e) && Honest(s, e)
    requires e.ParametersChanged? || e.Activated? || e.ModifiedActive?
    ensures HonestReport(s, ContextOf(s, e.contextId), e.report) && ValidSlots(e.report.tft)
  {
    hide Ok, HonestReport, ContextOf, ValidSlots;
  }

  lemma ReportedLoad(s: State, c: ContextRef, report: Report)
    requires Ok(s) && c in s.ctx && ValidSlots(report.tft)
    ensures Load(Reported(s, c, report)) <= KMaxPacketFilters * |s.contexts| + 1 + |s.pending|
  {
    hide Ok, Marks, Occupied;
    DeleteReady(s);
    var t := Reported(s, c, report);
    var lists := FilterLists(s.contexts, t.ctx);
    forall i | 0 <= i < |lists| ensures |lists[i]| <= KMaxPacketFilters {
      assert s.contexts[i] in s.contexts;
      OkAt(s, s.contexts[i]);
      assert |Occupied(report.tft)| <= |report.tft|;
    }
    UsedPrecedencesBounded(lists);
    var added := InFlight(t.req, t.current);
    SubsetSize(Taken(t.marked, added),
      UsedPrecedences(lists) + (if added.Some? then {added.value.1.precedence} else {}));
    ElementsSize(s.pending);
    SubsetSize(Owed(t.req), set r | r in s.pending);
  }

  // ---------- destruction ----------

  /** The destructor of CNif completes every queued request, head first. */
  function CompleteAll(s: State): State
    requires forall r :: r in s.pending ==> r in s.req
    decreases |s.pending|
  {
    if s.pending == [] then s else CompleteAll(Destruct(s, s.pending[0], Err(KErrDied)))
  }

  /** And then deletes the contexts, first to last, with the flows attached to them. */
  function DropAll(s: State): State
    requires forall c :: c in s.contexts ==> c in s.ctx
    requires NoDup(s.contexts)
    decreases |s.contexts|
  {
    if s.contexts == [] then s else DropAll(DropFirst(s))
  }

  function DropFirst(s: State): State
    requires s.contexts != [] && s.contexts[0] in s.ctx
  {
    var c := s.contexts[0];
    var gone := set f | f in s.flows && f in s.ctx[c].flows;
    DeleteOnNetwork(s, c).(contexts := s.contexts[1..], ctx := s.ctx - {c}, flows := s.flows - gone)
  }

  function Teardown(s: State): State
    requires Ok(s)
  {
    var quiet := s.(current := None);
    TeardownReady(s);
    DropAll(CompleteAll(quiet).(issued := false))
  }

  lemma TeardownReady(s: State)
    requires Ok(s)
    ensures var quiet := s.(current := None);
            && (forall r :: r in quiet.pending <==> r in quiet.req)
            && NoDup(s.pending) && NoDup(s.contexts)
            && (forall c :: c in s.contexts <==> c in s.ctx)
            && ExactlyOnce(s.log, s.req.Keys, s.nextRequest, s.upcalls)
            && (var done := CompleteAll(quiet); done.contexts == s.contexts && done.ctx == s.ctx)
  {
    DeleteReady(s);
    OkParts(s);
    QueuedNoDup(s.pending, s.req, s.current);
    hide Ok, Queued, ExactlyOnce, NoDangling;
    CompleteAllShape(s.(current := None));
  }

  lemma {:induction false} CompleteAllShape(s: State)
    requires forall r :: r in s.pending <==> r in s.req
    requires NoDup(s.pending) && ExactlyOnce(s.log, s.req.Keys, s.nextRequest, s.upcalls)
    ensures var t := CompleteAll(s);
            && t.contexts == s.contexts && t.ctx == s.ctx && t.flows == s.flows && t.primary == s.primary
            && t.controls == s.controls && t.nextRequest == s.nextRequest
            && t.pending == [] && t.req == map[]
            && ExactlyOnce(t.log, {}, t.nextRequest, t.upcalls)
    decreases |s.pending|
  {
    hide ExactlyOnce, NoDup, Without;
    if s.pending == [] {
      assert s.req.Keys == {};
    } else {
      var r := s.pending[0];
      DestructOnce(s, r, Err(KErrDied));
      var t := Destruct(s, r, Err(KErrDied));
      assert t.req.Keys == s.req.Keys - {r};
      CompleteAllShape(t);
    }
  }

  /** The deletions a destructor asks the network for. */
  function Goodbyes(contexts: seq<ContextRef>, ctx: map<ContextRef, Context>, primary: ContextRef): seq<Control>
    requires forall c :: c in contexts ==> c in ctx
  {
    if contexts == [] then []
    else (if contexts[0] == primary then []
         else [DeleteContext(ctx[contexts[0]].contextId)]) + Goodbyes(contexts[1..], ctx, primary)
  }

  /** No context of `ctx` has flow `f` in its list. */
  ghost predicate Unlisted(ctx: map<ContextRef, Context>, f: FlowRef) {
    forall c :: c in ctx ==> f !in ctx[c].flows
  }

  lemma {:induction false} DropAllShape(s: State)
    requires forall c :: c in s.contexts <==> c in s.ctx
    requires NoDup(s.contexts)
    ensures var t := DropAll(s);
            && t.contexts == [] && t.ctx == map[]
            && t == s.(contexts := [], ctx := map[], flows := t.flows, controls := t.controls)
            && t.controls == s.controls + Goodbyes(s.contexts, s.ctx, s.primary)
    decreases |s.contexts|
  {
    hide NoDup, DropFirst;
    if s.contexts == [] {
      assert s.ctx == map[];
      assert s.controls + [] == s.controls;
    } else {
      var m := DropFirst(s);
      DropFirstShape(s);
      DropAllShape(m);
      GoodbyesFrame(s.contexts[1..], s.ctx, m.ctx, s.primary);
    }
  }

  lemma {:induction false} DropAllUnlisted(s: State, f: FlowRef)
    requires forall c :: c in s.contexts <==> c in s.ctx
    requires NoDup(s.contexts)
    requires f in DropAll(s).flows
    ensures f in s.flows && Unlisted(s.ctx, f)
    decreases |s.contexts|
  {
    hide NoDup, DropFirst;
    if s.contexts == [] {
      assert s.ctx == map[];
    } else {
      DropFirstShape(s);
      DropAllUnlisted(DropFirst(s), f);
      DropFirstUnlisted(s, f);
    }
  }

  lemma DropFirstShape(s: State)
    requires forall c :: c in s.contexts <==> c in s.ctx
    requires NoDup(s.contexts) && s.contexts != []
    ensures var m := DropFirst(s);
            && (forall c :: c in m.contexts <==> c in m.ctx)
            && NoDup(m.contexts) && m.contexts == s.contexts[1..]
            && (forall c :: c in m.ctx ==> c in s.ctx && m.ctx[c] == s.ctx[c])
            && m == s.(contexts := m.contexts, ctx := m.ctx, flows := m.flows, controls := m.controls)
            && m.controls == s.controls + (if s.contexts[0] == s.primary then []
               else [DeleteContext(s.ctx[s.contexts[0]].contextId)])
  {
    assert forall c :: c in s.contexts <==> c == s.contexts[0] || c in s.contexts[1..];
  }

  lemma DropFirstUnlisted(s: State, f: FlowRef)
    requires s.contexts != [] && s.contexts[0] in s.ctx
    requires f in DropFirst(s).flows && Unlisted(DropFirst(s).ctx, f)
    ensures f in s.flows && Unlisted(s.ctx, f)
  {
    forall c | c in s.ctx ensures f !in s.ctx[c].flows {
      if c != s.contexts[0] {
        assert DropFirst(s).ctx[c] == s.ctx[c];
      }
    }
  }

  lemma {:induction false} GoodbyesFrame(contexts: seq<ContextRef>, a: map<ContextRef, Context>,
                                         b: map<ContextRef, Context>, primary: ContextRef)
    requires forall c :: c in contexts ==> c in a && c in b && a[c] == b[c]
    ensures Goodbyes(contexts, a, primary) == Goodbyes(contexts, b, primary)
  {
    if contexts != [] {
      GoodbyesFrame(contexts[1..], a, b, primary);
    }
  }

  /**
   After the destructor nothing is left: every request ever added has been
   destructed exactly once and its completion delivered exactly once, every flow
   is gone, and the network has been asked to delete every context but the default.
  */
  lemma TeardownLeavesNothing(s: State)
    requires Ok(s)
    ensures var t := Teardown(s);
            && t.pending == [] && t.req == map[] && t.contexts == [] && t.ctx == map[] && t.flows == map[]
            && ExactlyOnce(t.log, {}, s.nextRequest, t.upcalls)
            && t.controls == s.controls + Goodbyes(s.contexts, s.ctx, s.primary)
  {
    hide Ok, ExactlyOnce, NoDup, NoDangling, Queued;
    TeardownReady(s);
    OkParts(s);
    var quiet := s.(current := None);
    CompleteAllShape(quiet);
    var done := CompleteAll(quiet).(issued := false);
    DropAllShape(done);
    forall f ensures f !in DropAll(done).flows {
      if f in DropAll(done).flows {
        DropAllUnlisted(done, f);
        LinkedAt(s.contexts, s.ctx, s.flows, f);
      }
    }
  }
}
