/**
 Contexts, flows and the request queue: what the methods of CPdpContext, CFlowData
 and CNif do to them, stated on the whole state. Every operation keeps `Ok`.
*/
module GuqosHeap {
  import opened Wrappers
  import opened Sequences
  import opened PacketFilters
  import opened Tft
  import opened GuqosState

  /** The request has got on, and has asked for no filter meanwhile. */
  predicate Onwards(q: Request, p: Request) {
    p.kind == q.kind && p.added == q.added && q.state <= p.state
  }

  /**
   Filters, marks and in-flight additions are as before, as far as their owners still
   exist; nothing new asks for a filter.
  */
  ghost predicate FiltersKept(s: State, t: State) {
    && t.ready == s.ready && t.notifier == s.notifier
    && t.marked == s.marked
    && (forall c :: c in t.ctx ==> c in s.ctx && t.ctx[c].filters == s.ctx[c].filters)
    && (forall r :: r in t.req ==>
          if r in s.req then Onwards(s.req[r], t.req[r]) else !Adds(t.req[r].kind) && t.req[r].added.None?)
    && (t.current.Some? ==> t.current == s.current)
  }

  lemma FiltersKeptReflexive(s: State)
    ensures FiltersKept(s, s)
  {
  }

  lemma FiltersKeptTransitive(s: State, m: State, t: State)
    requires FiltersKept(s, m) && FiltersKept(m, t)
    requires forall r :: r in t.req && r in s.req ==> r in m.req
    ensures FiltersKept(s, t)
  {
  }

  // ---------- one context ----------

  /** Replace the record of context `c`, and tell its flows if their blocking state changed (NotifyBlockingState). */
  function Touch(s: State, c: ContextRef, x: Context): (t: State)
    requires c in s.ctx
  {
    s.(ctx := s.ctx[c := x],
       upcalls := s.upcalls + if s.notifier && FlowBlocked(x) != FlowBlocked(s.ctx[c])
                              then Announce(x.flows, FlowBlocked(x)) else [])
  }

  lemma LinkedTouch(contexts: seq<ContextRef>, ctx: map<ContextRef, Context>, flows: map<FlowRef, Flow>, c: ContextRef,
                    x: Context)
    requires Linked(contexts, ctx, flows) && c in ctx
    requires x.flows == ctx[c].flows && x.refs == ctx[c].refs
    ensures Linked(contexts, ctx[c := x], flows)
  {
    hide NoDup;
  }

  lemma MirroredTouch(contexts: seq<ContextRef>, ctx: map<ContextRef, Context>, flows: map<FlowRef, Flow>,
                      upcalls: seq<Upcall>, c: ContextRef, x: Context)
    requires Linked(contexts, ctx, flows)
    requires Mirrored(ctx, flows, upcalls) && c in ctx && x.flows == ctx[c].flows
    ensures FlowBlocked(x) == FlowBlocked(ctx[c]) ==> Mirrored(ctx[c := x], flows, upcalls)
    ensures Mirrored(ctx[c := x], flows, upcalls + Announce(x.flows, FlowBlocked(x)))
  {
    TraceAnnounce(upcalls, x.flows, FlowBlocked(x));
    hide LastTold, Announce, NoDup;
  }

  lemma OnceFrame(log: seq<Done>, live: set<RequestRef>, next: nat, before: seq<Upcall>, after: seq<Upcall>)
    requires ExactlyOnce(log, live, next, before)
    requires forall r :: Deliveries(after, r) == Deliveries(before, r)
    ensures ExactlyOnce(log, live, next, after)
  {
    hide Deliveries, Logged, LoggedLoud;
  }

  lemma TouchOk(s: State, c: ContextRef, x: Context)
    requires Ok(s) && c in s.ctx
    requires x.flows == s.ctx[c].flows && x.refs == s.ctx[c].refs
    requires |x.filters| <= KMaxPacketFilters && DistinctIds(x.filters)
    ensures Ok(Touch(s, c, x))
    ensures Settled(s) ==> Settled(Touch(s, c, x))
  {
    var t := Touch(s, c, x);
    LinkedTouch(s.contexts, s.ctx, s.flows, c, x);
    TraceAnnounce(s.upcalls, x.flows, FlowBlocked(x));
    OnceFrame(s.log, s.req.Keys, s.nextRequest, s.upcalls, s.upcalls + Announce(x.flows, FlowBlocked(x)));
    assert s.upcalls + [] == s.upcalls;
    if s.notifier {
      MirroredTouch(s.contexts, s.ctx, s.flows, s.upcalls, c, x);
    }
    assert t.ctx.Keys == s.ctx.Keys;
    hide Linked, Mirrored, ExactlyOnce, Queued, NoDangling, Announce, DistinctIds;
  }

  function Block(s: State, c: ContextRef): State
    requires c in s.ctx
  {
    Touch(s, c, s.ctx[c].(blocked := true))
  }

  function UnBlock(s: State, c: ContextRef): State
    requires c in s.ctx
  {
    Touch(s, c, s.ctx[c].(blocked := false))
  }

  function SetStatus(s: State, c: ContextRef, status: ContextStatus): State
    requires c in s.ctx
  {
    Touch(s, c, s.ctx[c].(status := status))
  }

  /** More upcalls that concern neither blocking nor completion. */
  function Emit(s: State, more: seq<Upcall>): State {
    s.(upcalls := s.upcalls + more)
  }

  lemma EmitOk(s: State, more: seq<Upcall>)
    requires Ok(s) && OnlyEvents(more)
    ensures Ok(Emit(s, more))
  {
    TraceEvents(s.upcalls, more);
  }

  // ---------- flows ----------

  /** The flow object without its link: it leaves the list of its context (CFlowData destructor, FlowDetached). */
  function Detach(s: State, f: FlowRef): State
    requires f in s.flows && s.flows[f].context.Some? && s.flows[f].context.value in s.ctx
  {
    var c := s.flows[f].context.value;
    var left := Without(s.ctx[c].flows, f);
    s.(flows := s.flows - {f},
       ctx := s.ctx[c := s.ctx[c].(flows := left, refs := s.ctx[c].refs - 1,
                                   expiring := s.ctx[c].expiring || (c != s.primary && left == []))])
  }

  /** A flow object linked last into the list of context `c`, and told its blocking state. */
  function Attach(s: State, f: FlowRef, filter: PacketFilter, c: ContextRef): State
    requires c in s.ctx
  {
    s.(flows := s.flows[f := Flow(filter, Some(c))],
       ctx := s.ctx[c := s.ctx[c].(flows := s.ctx[c].flows + [f], refs := s.ctx[c].refs + 1)],
       upcalls := s.upcalls + if s.notifier then [Tell(f, FlowBlocked(s.ctx[c]))] else [])
  }

  /** CFlowData::SetContext */
  function SetFlowContext(s: State, f: FlowRef, c: ContextRef): State
    requires f in s.flows && s.flows[f].context.Some? && s.flows[f].context.value in s.ctx
    requires c in s.ctx
  {
    if s.flows[f].context == Some(c) then s
    else Attach(Detach(s, f), f, s.flows[f].filter, c)
  }

  lemma LinkedAt(contexts: seq<ContextRef>, ctx: map<ContextRef, Context>, flows: map<FlowRef, Flow>, f: FlowRef)
    requires Linked(contexts, ctx, flows) && f in flows
    ensures flows[f].context.Some? && flows[f].context.value in ctx && f in ctx[flows[f].context.value].flows
  {
    hide NoDup;
  }

  lemma LinkedDetach(contexts: seq<ContextRef>, ctx: map<ContextRef, Context>, flows: map<FlowRef, Flow>, f: FlowRef,
                     c: ContextRef, x: Context)
    requires Linked(contexts, ctx, flows) && f in flows && flows[f].context == Some(c) && c in ctx
    requires x.flows == Without(ctx[c].flows, f) && x.refs == ctx[c].refs - 1
    ensures Linked(contexts, ctx[c := x], flows - {f})
  {
    WithoutLength(ctx[c].flows, f);
    hide NoDup, Without;
  }

  lemma LinkedAttach(contexts: seq<ContextRef>, ctx: map<ContextRef, Context>, flows: map<FlowRef, Flow>, f: FlowRef,
                     filter: PacketFilter, c: ContextRef, x: Context)
    requires Linked(contexts, ctx, flows) && f !in flows && c in ctx
    requires x.flows == ctx[c].flows + [f] && x.refs == ctx[c].refs + 1
    ensures Linked(contexts, ctx[c := x], flows[f := Flow(filter, Some(c))])
  {
    NoDupAppend(ctx[c].flows, f);
    hide NoDup;
  }

  /** Detaching and attaching touch blocking states of no context, and only flow `f` is told anything. */
  lemma RelinkMirrored(s: State, t: State, f: FlowRef, c: ContextRef)
    requires Mirrored(s.ctx, s.flows, s.upcalls)
    requires forall g :: g in t.flows && g != f ==> g in s.flows && t.flows[g] == s.flows[g]
    requires forall x :: x in t.ctx <==> x in s.ctx
    requires forall x :: x in s.ctx ==> FlowBlocked(t.ctx[x]) == FlowBlocked(s.ctx[x])
    requires f in t.flows ==>
            c in s.ctx && t.flows[f].context == Some(c) && t.upcalls == s.upcalls + [Tell(f, FlowBlocked(s.ctx[c]))]
    requires f !in t.flows ==> t.upcalls == s.upcalls
    ensures Mirrored(t.ctx, t.flows, t.upcalls)
  {
    if f in t.flows {
      TraceStep(s.upcalls, Tell(f, FlowBlocked(s.ctx[c])));
    }
    hide LastTold;
  }

  lemma DetachOk(s: State, f: FlowRef)
    requires Ok(s) && f in s.flows && s.flows[f].context.Some? && s.flows[f].context.value in s.ctx
    requires forall r :: r in s.req ==> s.req[r].flow != Some(f)
    ensures Ok(Detach(s, f))
    ensures Settled(s) ==> Settled(Detach(s, f))
  {
    hide Linked, Mirrored, ExactlyOnce, Queued, DistinctIds, Without;
    var t := Detach(s, f);
    var c := s.flows[f].context.value;
    LinkedDetach(s.contexts, s.ctx, s.flows, f, c, t.ctx[c]);
    assert t.ctx.Keys == s.ctx.Keys;
    if s.notifier {
      RelinkMirrored(s, t, f, c);
    }
  }

  lemma AttachOk(s: State, f: FlowRef, filter: PacketFilter, c: ContextRef)
    requires Ok(s) && f !in s.flows && c in s.ctx
    ensures Ok(Attach(s, f, filter, c))
    ensures Settled(s) ==> Settled(Attach(s, f, filter, c))
  {
    hide Linked, Mirrored, ExactlyOnce, Queued, DistinctIds;
    var t := Attach(s, f, filter, c);
    LinkedAttach(s.contexts, s.ctx, s.flows, f, filter, c, t.ctx[c]);
    assert s.upcalls + [] == s.upcalls;
    TraceStep(s.upcalls, Tell(f, FlowBlocked(s.ctx[c])));
    OnceFrame(s.log, s.req.Keys, s.nextRequest, s.upcalls, t.upcalls);
    assert t.ctx.Keys == s.ctx.Keys;
    if s.notifier {
      RelinkMirrored(s, t, f, c);
    }
  }

  lemma SetFlowContextKept(s: State, f: FlowRef, c: ContextRef)
    requires f in s.flows && s.flows[f].context.Some? && s.flows[f].context.value in s.ctx && c in s.ctx
    ensures FiltersKept(s, SetFlowContext(s, f, c))
  {
    hide Without, Announce, FlowBlocked;
  }

  lemma SetFlowContextOk(s: State, f: FlowRef, c: ContextRef)
    requires Ok(s) && f in s.flows && s.flows[f].context.Some? && s.flows[f].context.value in s.ctx && c in s.ctx
    ensures Ok(SetFlowContext(s, f, c))
    ensures SetFlowContext(s, f, c).flows.Keys == s.flows.Keys
    ensures SetFlowContext(s, f, c).ctx.Keys == s.ctx.Keys
    ensures FiltersKept(s, SetFlowContext(s, f, c))
    ensures SetFlowContext(s, f, c).flows[f].context == Some(c)
  {
    hide Linked, Mirrored, ExactlyOnce, Queued, DistinctIds, Without, FiltersKept;
    SetFlowContextKept(s, f, c);
    if s.flows[f].context != Some(c) {
      var m := Detach(s, f);
      var t := SetFlowContext(s, f, c);
      var old_c := s.flows[f].context.value;
      LinkedDetach(s.contexts, s.ctx, s.flows, f, old_c, m.ctx[old_c]);
      LinkedAttach(m.contexts, m.ctx, m.flows, f, s.flows[f].filter, c, t.ctx[c]);
      assert t.flows.Keys == s.flows.Keys;
      assert t.ctx.Keys == s.ctx.Keys;
      assert s.upcalls + [] == s.upcalls;
      TraceStep(s.upcalls, Tell(f, FlowBlocked(s.ctx[c])));
      OnceFrame(s.log, s.req.Keys, s.nextRequest, s.upcalls, t.upcalls);
      if s.notifier {
        RelinkMirrored(s, t, f, c);
      }
    }
  }

  // ---------- the request queue ----------

  /** CNif::AddRequest */
  function AddRequest(s: State, q: Request): State {
    s.(pending := s.pending + [s.nextRequest],
       req := s.req[s.nextRequest := q],
       nextRequest := s.nextRequest + 1,
       issued := true)
  }

  lemma OnceAdd(log: seq<Done>, live: set<RequestRef>, next: nat, upcalls: seq<Upcall>)
    requires ExactlyOnce(log, live, next, upcalls)
    ensures next !in live
    ensures ExactlyOnce(log, live + {next}, next + 1, upcalls)
  {
    hide Deliveries, Logged, LoggedLoud;
  }

  lemma QueuedAdd(pending: seq<RequestRef>, req: map<RequestRef, Request>, current: Option<RequestRef>, r: RequestRef,
                  q: Request)
    requires Queued(pending, req, current) && r !in req && Idle(q)
    ensures Queued(pending + [r], req[r := q], current)
  {
    NoDupAppend(pending, r);
    hide NoDup, Idle;
    if current.Some? {
      assert (pending + [r])[0] == pending[0];
    }
  }

  lemma AddRequestOk(s: State, q: Request)
    requires Ok(s) && Idle(q)
    requires q.flow.Some? ==> q.flow.value in s.flows
    requires q.target.Some? ==> q.target.value in s.ctx
    requires q.kind == Open ==> q.target.None?
    ensures Ok(AddRequest(s, q))
    ensures Settled(s) ==> Settled(AddRequest(s, q))
    ensures !Adds(q.kind) ==> FiltersKept(s, AddRequest(s, q))
  {
    hide Linked, Mirrored, ExactlyOnce, DistinctIds, Queued;
    var t := AddRequest(s, q);
    assert t.req.Keys == s.req.Keys + {s.nextRequest};
    OnceAdd(s.log, s.req.Keys, s.nextRequest, s.upcalls);
    QueuedAdd(s.pending, s.req, s.current, s.nextRequest, q);
  }

  /** CRequestBase::CompleteAndDestruct with CNif::CloseRequest: off the queue first, then the upcall. */
  function Destruct(s: State, r: RequestRef, code: Code): State
    requires r in s.req
  {
    var mine := s.current == Some(r);
    s.(pending := Without(s.pending, r),
       req := s.req - {r},
       current := if mine then None else s.current,
       issued := s.issued || mine,
       upcalls := s.upcalls + if Notifies(s.req[r].kind) then [RequestComplete(r, code)] else [],
       log := s.log + [Done(r, s.req[r].kind, code, s.req[r].sblp, s.req[r].said)])
  }

  lemma DestructKept(s: State, r: RequestRef, code: Code)
    requires r in s.req
    ensures FiltersKept(s, Destruct(s, r, code))
  {
    hide Without, Notifies;
  }

  lemma DestructQueued(pending: seq<RequestRef>, req: map<RequestRef, Request>, current: Option<RequestRef>,
                       r: RequestRef)
    requires Queued(pending, req, current) && r in req
    ensures Queued(Without(pending, r), req - {r}, if current == Some(r) then None else current)
    ensures |Without(pending, r)| == |pending| - 1
  {
    WithoutLength(pending, r);
    hide NoDup, Idle;
  }

  lemma MirroredSame(ctx: map<ContextRef, Context>, flows: map<FlowRef, Flow>, before: seq<Upcall>, after: seq<Upcall>)
    requires Mirrored(ctx, flows, before) && forall f :: LastTold(after, f) == LastTold(before, f)
    ensures Mirrored(ctx, flows, after)
  {
    hide LastTold;
  }

  lemma DestructOk(s: State, r: RequestRef, code: Code)
    requires Ok(s) && r in s.req
    ensures Ok(Destruct(s, r, code))
    ensures Settled(s) ==> Settled(Destruct(s, r, code))
    ensures FiltersKept(s, Destruct(s, r, code))
    ensures |Destruct(s, r, code).pending| == |s.pending| - 1
  {
    hide FiltersKept, Linked, ExactlyOnce, Queued, DistinctIds, Without, Mirrored, LastTold, Deliveries;
    var t := Destruct(s, r, code);
    DestructKept(s, r, code);
    DestructQueued(s.pending, s.req, s.current, r);
    assert t.req.Keys == s.req.Keys - {r};
    DestructOnce(s, r, code);
    TraceStep(s.upcalls, RequestComplete(r, code));
    if !Notifies(s.req[r].kind) {
      assert t.upcalls == s.upcalls;
    }
    if s.notifier {
      MirroredSame(s.ctx, s.flows, s.upcalls, t.upcalls);
    }
  }

  lemma DestructOnce(s: State, r: RequestRef, code: Code)
    requires ExactlyOnce(s.log, s.req.Keys, s.nextRequest, s.upcalls) && r in s.req
    ensures var t := Destruct(s, r, code); ExactlyOnce(t.log, s.req.Keys - {r}, t.nextRequest, t.upcalls)
  {
    var t := Destruct(s, r, code);
    var n := |s.log|;
    assert !Logged(s.log, r);
    assert t.log[n].request == r;
    forall x: nat ensures Logged(t.log, x) <==> x == r || Logged(s.log, x) {
      if Logged(s.log, x) {
        var i :| 0 <= i < n && s.log[i].request == x;
        assert t.log[i].request == x;
      }
    }
    forall x: nat ensures LoggedLoud(t.log, x) <==> (x == r && Notifies(s.req[r].kind)) || LoggedLoud(s.log, x) {
      if LoggedLoud(s.log, x) {
        var i :| 0 <= i < n && s.log[i].request == x && Notifies(s.log[i].kind);
        assert t.log[i].request == x && Notifies(t.log[i].kind);
      }
      if x == r && Notifies(s.req[r].kind) {
        assert t.log[n].request == x && Notifies(t.log[n].kind);
      }
    }
    assert !LoggedLoud(s.log, r);
    TraceStep(s.upcalls, RequestComplete(r, code));
    if !Notifies(s.req[r].kind) {
      assert t.upcalls == s.upcalls;
    }
  }

  // ---------- cancelling the requests of a context ----------

  /** The first of `pending` that targets `c`. */
  function FirstTarget(pending: seq<RequestRef>, req: map<RequestRef, Request>, c: ContextRef): (r: Option<RequestRef>)
    requires forall x :: x in pending ==> x in req
    ensures r.Some? ==> r.value in pending && Targets(req[r.value], c)
    ensures r.None? ==> forall x :: x in pending ==> !Targets(req[x], c)
  {
    if pending == [] then None
    else if Targets(req[pending[0]], c) then Some(pending[0])
    else FirstTarget(pending[1..], req, c)
  }

  /** CNif::CancelPendingRequest(context): fail every request that targets `c`, in queue order. */
  function CancelPending(s: State, c: ContextRef): (t: State)
    requires forall x :: x in s.pending ==> x in s.req
    decreases |s.pending|
  {
    var first := FirstTarget(s.pending, s.req, c);
    if first.None? then s
    else
      var r := first.value;
      var next := Destruct(s, r, FailureCode(s.req[r].kind, KErrDied));
      CancelPending(next, c)
  }

  /** Those of `pending` that do not target `c`, in the same order. */
  function Survivors(pending: seq<RequestRef>, req: map<RequestRef, Request>, c: ContextRef): (r: seq<RequestRef>)
    requires forall x :: x in pending ==> x in req
    ensures forall x :: x in r <==> x in pending && !Targets(req[x], c)
  {
    if pending == [] then []
    else (if Targets(req[pending[0]], c) then [] else [pending[0]]) + Survivors(pending[1..], req, c)
  }

  lemma {:induction false} SurvivorsWithout(pending: seq<RequestRef>, req: map<RequestRef, Request>, c: ContextRef,
                                            r: RequestRef)
    requires forall x :: x in pending ==> x in req
    requires r in pending && Targets(req[r], c)
    ensures Survivors(Without(pending, r), req - {r}, c) == Survivors(pending, req, c)
  {
    if r in pending[1..] {
      SurvivorsWithout(pending[1..], req, c, r);
    } else {
      SurvivorsFrame(pending[1..], req, req - {r}, c);
    }
  }

  lemma {:induction false} SurvivorsFrame(pending: seq<RequestRef>, a: map<RequestRef, Request>,
                                          b: map<RequestRef, Request>, c: ContextRef)
    requires forall x :: x in pending ==> x in a && x in b && a[x] == b[x]
    ensures Survivors(pending, a, c) == Survivors(pending, b, c)
  {
    if pending != [] {
      SurvivorsFrame(pending[1..], a, b, c);
    }
  }

  lemma {:induction false} SurvivorsAll(pending: seq<RequestRef>, req: map<RequestRef, Request>, c: ContextRef)
    requires forall x :: x in pending ==> x in req && !Targets(req[x], c)
    ensures Survivors(pending, req, c) == pending
  {
    if pending != [] {
      SurvivorsAll(pending[1..], req, c);
    }
  }

  /**
   After a cancellation no queued request targets `c`; the others keep their
   order and their state, and nothing else but the completions has changed.
  */
  lemma {:induction false} CancelPendingOk(s: State, c: ContextRef)
    requires Ok(s)
    ensures var t := CancelPending(s, c);
            && Ok(t)
            && (Settled(s) ==> Settled(t))
            && FiltersKept(s, t)
            && t.pending == Survivors(s.pending, s.req, c)
            && (forall x :: x in t.req <==> x in s.req && !Targets(s.req[x], c))
            && (forall x :: x in t.req ==> t.req[x] == s.req[x])
            && t.current == (if CurrentTargets(s, c) then None else s.current)
            && t == s.(pending := t.pending, req := t.req, current := t.current, issued := t.issued,
                       upcalls := t.upcalls, log := t.log)
    ensures |CancelPending(s, c).pending| <= |s.pending|
    decreases |s.pending|
  {
    hide Ok, FiltersKept, Settled, Survivors, Targets, Without, Destruct, NoDup;
    QueueParts(s);
    var first := FirstTarget(s.pending, s.req, c);
    if first.None? {
      SurvivorsAll(s.pending, s.req, c);
      FiltersKeptReflexive(s);
    } else {
      var r := first.value;
      var code := FailureCode(s.req[r].kind, KErrDied);
      var m := Destruct(s, r, code);
      DestructOk(s, r, code);
      DestructShape(s, r, code);
      SurvivorsWithout(s.pending, s.req, c, r);
      CancelPendingOk(m, c);
      FiltersKeptTransitive(s, m, CancelPending(m, c));
    }
  }

  lemma QueueParts(s: State)
    requires Ok(s)
    ensures forall x :: x in s.pending <==> x in s.req
    ensures s.current.Some? ==> s.current.value in s.req && s.pending != [] && s.pending[0] == s.current.value
  {
    hide Linked, Mirrored, ExactlyOnce, DistinctIds, NoDup, NoDangling, Idle;
    if s.current.Some? {
      assert s.pending[0] in s.pending;
    }
  }

  /** CompleteAndDestruct, field by field. */
  lemma DestructShape(s: State, r: RequestRef, code: Code)
    requires r in s.req
    ensures var t := Destruct(s, r, code);
            && t == s.(pending := t.pending, req := t.req, current := t.current, issued := t.issued,
               upcalls := t.upcalls, log := t.log)
            && t.pending == Without(s.pending, r) && t.req == s.req - {r}
            && t.current == (if s.current == Some(r) then None else s.current)
            && t.issued == (s.issued || s.current == Some(r))
            && t.upcalls == (if Notifies(s.req[r].kind) then s.upcalls + [RequestComplete(r, code)] else s.upcalls)
            && t.log == s.log + [Done(r, s.req[r].kind, code, s.req[r].sblp, s.req[r].said)]
  {
    hide Without, Notifies;
    assert s.upcalls + [] == s.upcalls;
  }

  // ---------- deleting a context ----------

  /**
   The order of the ranking: signalling first, then conversational and streaming contexts, then
   interactive ones by priority, and then all others alike; what is not named makes no difference.
  */
  lemma RankingOrder(a: int, b: int, c: int, d: int, e: int)
    requires c != 1 && c != 2
    ensures Ranking(Negotiated(Interactive, 1)) < Ranking(Negotiated(Conversational, a))
    ensures Ranking(Negotiated(Conversational, a)) < Ranking(Negotiated(Streaming, b))
    ensures Ranking(Negotiated(Streaming, b)) < Ranking(Negotiated(Interactive, 2))
    ensures Ranking(Negotiated(Interactive, 2)) < Ranking(Negotiated(Interactive, c))
    ensures Ranking(Negotiated(Interactive, c)) < Ranking(Negotiated(Background, d))
    ensures Ranking(Negotiated(Background, d)) == Ranking(Negotiated(Unspecified, e))
  {
  }

  /** The first context of the list with the best ranking, the current default excluded. */
  function BestContext(contexts: seq<ContextRef>, ctx: map<ContextRef, Context>,
                       primary: ContextRef): (r: Option<ContextRef>)
    requires forall c :: c in contexts ==> c in ctx
    ensures r.None? <==> forall c :: c in contexts ==> c == primary
    ensures r.Some? ==> r.value in contexts && r.value != primary
  {
    if contexts == [] then None
    else
      var n := |contexts| - 1;
      var before := BestContext(contexts[..n], ctx, primary);
      assert forall c :: c in contexts <==> c in contexts[..n] || c == contexts[n];
      if contexts[n] == primary then before
      else if before.None? || Ranking(ctx[contexts[n]].negotiated) < Ranking(ctx[before.value].negotiated) then
           Some(contexts[n])
      else before
  }

  /** Context `best` stands at `k`; it ranks no worse than any other candidate, and better than every earlier one. */
  ghost predicate BestAt(contexts: seq<ContextRef>, ctx: map<ContextRef, Context>, primary: ContextRef,
                         best: ContextRef, k: nat)
    requires best in ctx && forall c :: c in contexts ==> c in ctx
  {
    && k < |contexts| && contexts[k] == best && best != primary
    && (forall i :: 0 <= i < |contexts| && contexts[i] != primary ==>
          Ranking(ctx[best].negotiated) <= Ranking(ctx[contexts[i]].negotiated))
    && (forall i :: 0 <= i < k && contexts[i] != primary ==>
          Ranking(ctx[best].negotiated) < Ranking(ctx[contexts[i]].negotiated))
  }

  /** The chosen context beats every other candidate, and every earlier one strictly. */
  lemma {:induction false} BestContextIsBest(contexts: seq<ContextRef>, ctx: map<ContextRef, Context>,
                                             primary: ContextRef, best: ContextRef)
    requires forall c :: c in contexts ==> c in ctx
    requires BestContext(contexts, ctx, primary) == Some(best)
    ensures exists k: nat :: BestAt(contexts, ctx, primary, best, k)
  {
    hide Ranking;
    var n := |contexts| - 1;
    var front := contexts[..n];
    assert contexts == front + [contexts[n]];
    var before := BestContext(front, ctx, primary);
    if before.Some? {
      BestContextIsBest(front, ctx, primary, before.value);
      var k: nat :| BestAt(front, ctx, primary, before.value, k);
      BestNext(contexts, ctx, primary, before.value, k);
    } else {
      forall i | 0 <= i < n ensures contexts[i] == primary {
        assert front[i] in front;
      }
      assert BestAt(contexts, ctx, primary, contexts[n], n);
    }
  }

  lemma BestNext(contexts: seq<ContextRef>, ctx: map<ContextRef, Context>, primary: ContextRef, best: ContextRef,
                 k: nat)
    requires contexts != [] && (forall c :: c in contexts ==> c in ctx) && best in ctx
    requires BestAt(contexts[..|contexts| - 1], ctx, primary, best, k)
    ensures var c := contexts[|contexts| - 1];
            if c == primary || Ranking(ctx[best].negotiated) <= Ranking(ctx[c].negotiated)
            then BestAt(contexts, ctx, primary, best, k) else BestAt(contexts, ctx, primary, c, |contexts| - 1)
  {
    hide Ranking;
    var front := contexts[..|contexts| - 1];
    assert forall i :: 0 <= i < |front| ==> front[i] == contexts[i];
  }

  /** CNif::SelectNewDefaultContext: the new default also gets a Close request to clear its filters. */
  function SelectNewDefault(s: State): State
    requires forall c :: c in s.contexts ==> c in s.ctx
  {
    var best := BestContext(s.contexts, s.ctx, s.primary);
    if best.None? then s
    else AddRequest(s.(primary := best.value), FreshRequest(Close, None, best, 0, false))
  }

  /** All flows of `c` moved to `d`, behind those already there and in the same order. */
  function MoveFlows(s: State, c: ContextRef, d: ContextRef): State
    requires c in s.ctx && d in s.ctx && c != d
  {
    var moving := s.ctx[c].flows;
    s.(flows := map f | f in s.flows :: if f in moving then s.flows[f].(context := Some(d)) else s.flows[f],
       ctx := s.ctx[c := s.ctx[c].(flows := [], refs := s.ctx[c].refs - |moving|,
                                   expiring := s.ctx[c].expiring || (c != s.primary && moving != []))]
                   [d := s.ctx[d].(flows := s.ctx[d].flows + moving, refs := s.ctx[d].refs + |moving|)],
       upcalls := s.upcalls + if s.notifier then Announce(moving, FlowBlocked(s.ctx[d])) else [])
  }

  lemma LinkedMove(contexts: seq<ContextRef>, ctx: map<ContextRef, Context>, flows: map<FlowRef, Flow>,
                   after: map<FlowRef, Flow>, c: ContextRef, d: ContextRef, x: Context, y: Context)
    requires Linked(contexts, ctx, flows) && c in ctx && d in ctx && c != d
    requires x.flows == [] && x.refs == 0
    requires y.flows == ctx[d].flows + ctx[c].flows && y.refs == |y.flows|
    requires after.Keys == flows.Keys
    requires forall f :: f in flows ==> after[f].context == if f in ctx[c].flows then Some(d) else flows[f].context
    ensures Linked(contexts, ctx[c := x][d := y], after)
  {
    hide NoDup, Linked;
    LinkedLists(contexts, ctx, flows);
    var moved := ctx[c := x][d := y];
    assert moved.Keys == ctx.Keys;
    forall f | f in ctx[d].flows ensures f !in ctx[c].flows {
      LinkedListed(contexts, ctx, flows, c, d, f);
    }
    NoDupConcat(ctx[d].flows, ctx[c].flows);
    NoDupEmpty();
    forall e, f | e in moved && f in moved[e].flows ensures f in after && after[f].context == Some(e) {
      LinkedListed(contexts, ctx, flows, c, e, f);
    }
    forall f | f in after
      ensures after[f].context.Some? && after[f].context.value in moved && f in moved[after[f].context.value].flows
    {
      LinkedAt(contexts, ctx, flows, f);
      LinkedListed(contexts, ctx, flows, c, flows[f].context.value, f);
    }
    LinkedBy(contexts, moved, after);
  }

  lemma NoDupEmpty()
    ensures NoDup<FlowRef>([])
  {
  }

  /** The parts of `Linked` that concern lists and counts. */
  lemma LinkedLists(contexts: seq<ContextRef>, ctx: map<ContextRef, Context>, flows: map<FlowRef, Flow>)
    requires Linked(contexts, ctx, flows)
    ensures NoDup(contexts) && (forall c :: c in contexts <==> c in ctx)
    ensures forall c :: c in ctx ==> NoDup(ctx[c].flows) && ctx[c].refs == |ctx[c].flows|
  {
    hide NoDup;
  }

  /** A listed flow belongs to its list's context, and to no other one's list. */
  lemma LinkedListed(contexts: seq<ContextRef>, ctx: map<ContextRef, Context>, flows: map<FlowRef, Flow>, c: ContextRef,
                     e: ContextRef, f: FlowRef)
    requires Linked(contexts, ctx, flows) && c in ctx && e in ctx
    ensures f in ctx[e].flows ==> f in flows && flows[f].context == Some(e)
    ensures f in ctx[c].flows ==> f in flows && flows[f].context == Some(c)
  {
    hide NoDup;
  }

  lemma LinkedBy(contexts: seq<ContextRef>, ctx: map<ContextRef, Context>, flows: map<FlowRef, Flow>)
    requires NoDup(contexts) && (forall c :: c in contexts <==> c in ctx)
    requires forall c :: c in ctx ==> NoDup(ctx[c].flows) && ctx[c].refs == |ctx[c].flows|
    requires forall c, f :: c in ctx && f in ctx[c].flows ==> f in flows && flows[f].context == Some(c)
    requires forall f :: f in flows ==>
            flows[f].context.Some? && flows[f].context.value in ctx && f in ctx[flows[f].context.value].flows
    ensures Linked(contexts, ctx, flows)
  {
    hide NoDup;
  }

  lemma MirroredMove(s: State, t: State, moving: seq<FlowRef>, d: ContextRef)
    requires Mirrored(s.ctx, s.flows, s.upcalls) && d in s.ctx
    requires t.flows.Keys == s.flows.Keys && t.ctx.Keys == s.ctx.Keys
    requires forall x :: x in s.ctx ==> FlowBlocked(t.ctx[x]) == FlowBlocked(s.ctx[x])
    requires forall f :: f in s.flows ==> t.flows[f].context == if f in moving then Some(d) else s.flows[f].context
    requires t.upcalls == s.upcalls + Announce(moving, FlowBlocked(s.ctx[d]))
    ensures Mirrored(t.ctx, t.flows, t.upcalls)
  {
    TraceAnnounce(s.upcalls, moving, FlowBlocked(s.ctx[d]));
    hide LastTold, Announce;
  }

  lemma RefsCount(contexts: seq<ContextRef>, ctx: map<ContextRef, Context>, flows: map<FlowRef, Flow>, c: ContextRef)
    requires Linked(contexts, ctx, flows) && c in ctx
    ensures ctx[c].refs == |ctx[c].flows| && c in contexts
  {
    hide NoDup;
  }

  lemma MoveFlowsOk(s: State, c: ContextRef, d: ContextRef)
    requires Ok(s) && c in s.ctx && d in s.ctx && c != d
    ensures Ok(MoveFlows(s, c, d))
    ensures Settled(s) ==> Settled(MoveFlows(s, c, d))
    ensures FiltersKept(s, MoveFlows(s, c, d))
    ensures MoveFlows(s, c, d).flows.Keys == s.flows.Keys
    ensures MoveFlows(s, c, d).ctx.Keys == s.ctx.Keys
  {
    hide Linked, Mirrored, ExactlyOnce, DistinctIds, Queued, Announce;
    var t := MoveFlows(s, c, d);
    var moving := s.ctx[c].flows;
    RefsCount(s.contexts, s.ctx, s.flows, c);
    RefsCount(s.contexts, s.ctx, s.flows, d);
    LinkedMove(s.contexts, s.ctx, s.flows, t.flows, c, d, t.ctx[c], t.ctx[d]);
    assert t.ctx == s.ctx[c := t.ctx[c]][d := t.ctx[d]];
    assert t.ctx.Keys == s.ctx.Keys;
    assert s.upcalls + [] == s.upcalls;
    TraceAnnounce(s.upcalls, moving, FlowBlocked(s.ctx[d]));
    OnceFrame(s.log, s.req.Keys, s.nextRequest, s.upcalls, t.upcalls);
    if s.notifier {
      MirroredMove(s, t, moving, d);
    }
  }

  /** The context object is gone: off the list, its queued requests cancelled (CPdpContext destructor). */
  function DropContext(s: State, c: ContextRef): State
    requires forall x :: x in s.pending ==> x in s.req
  {
    var m := CancelPending(s.(contexts := Without(s.contexts, c)), c);
    m.(ctx := m.ctx - {c})
  }

  /** CNif::DeletePdpContext */
  function DeletePdpContext(s: State, c: ContextRef): State
    requires forall x :: x in s.contexts ==> x in s.ctx
    requires forall x :: x in s.pending ==> x in s.req
    requires c in s.ctx && s.primary in s.ctx
  {
    var chosen := Reelect(s, c);
    if chosen.primary == c then Block(chosen, c) else DropContext(Evacuate(s, c), c)
  }

  /** The flows of `c` handed over to the default context, old or new. */
  function Evacuate(s: State, c: ContextRef): State
    requires forall x :: x in s.contexts ==> x in s.ctx
    requires c in s.ctx && s.primary in s.ctx && Reelect(s, c).primary != c
  {
    MoveFlows(Reelect(s, c), c, Reelect(s, c).primary)
  }

  /** The first step of a deletion: another default is selected when the default itself is to go. */
  function Reelect(s: State, c: ContextRef): State
    requires forall x :: x in s.contexts ==> x in s.ctx
  {
    if c == s.primary then SelectNewDefault(s) else s
  }

  lemma OnlyContext(s: State)
    requires Linked(s.contexts, s.ctx, s.flows) && s.primary in s.ctx
    ensures (forall c :: c in s.contexts ==> c == s.primary) <==> s.contexts == [s.primary]
    ensures forall c :: c in s.contexts <==> c in s.ctx
  {
    assert s.primary in s.contexts;
    if |s.contexts| > 1 {
      NoDupApart(s.contexts, 0, 1);
      assert s.contexts[if s.contexts[0] == s.primary then 1 else 0] in s.contexts;
    }
    hide NoDup;
  }

  lemma SelectNewDefaultOk(s: State)
    requires Ok(s) && forall c :: c in s.contexts ==> c in s.ctx
    ensures Ok(SelectNewDefault(s))
    ensures Settled(s) ==> Settled(SelectNewDefault(s))
    ensures FiltersKept(s, SelectNewDefault(s))
    ensures SelectNewDefault(s).primary in s.ctx
    ensures SelectNewDefault(s).primary == s.primary <==> s.contexts == [s.primary]
    ensures SelectNewDefault(s).primary == s.primary ==> SelectNewDefault(s) == s
  {
    hide Linked, Ok, Settled, Queued, NoDangling, ExactlyOnce;
    OkParts(s);
    OnlyContext(s);
    FiltersKeptReflexive(s);
    var best := BestContext(s.contexts, s.ctx, s.primary);
    if best.Some? {
      var q := FreshRequest(Close, None, best, 0, false);
      OkPrimary(s, best.value);
      AddRequestOk(s.(primary := best.value), q);
    }
  }

  lemma OkParts(s: State)
    requires Ok(s)
    ensures Linked(s.contexts, s.ctx, s.flows) && s.primary in s.ctx
    ensures Queued(s.pending, s.req, s.current)
    ensures NoDangling(s.req, s.ctx.Keys, s.flows.Keys)
    ensures ExactlyOnce(s.log, s.req.Keys, s.nextRequest, s.upcalls)
  {
  }

  lemma OkPrimary(s: State, c: ContextRef)
    requires Ok(s) && c in s.ctx
    ensures Ok(s.(primary := c))
    ensures Settled(s) ==> Settled(s.(primary := c))
  {
    hide Linked, Mirrored, ExactlyOnce, DistinctIds, Queued, NoDangling;
  }

  lemma LinkedDrop(contexts: seq<ContextRef>, ctx: map<ContextRef, Context>, flows: map<FlowRef, Flow>, c: ContextRef)
    requires Linked(contexts, ctx, flows) && c in ctx && ctx[c].flows == []
    ensures Linked(Without(contexts, c), ctx - {c}, flows)
    ensures |Without(contexts, c)| == |contexts| - 1
  {
    hide NoDup, Without;
    WithoutLength(contexts, c);
    var left, rest := Without(contexts, c), ctx - {c};
    assert forall x :: x in rest <==> x in ctx && x != c;
    forall f | f in flows ensures flows[f].context.Some? && flows[f].context.value in rest {
      assert flows[f].context.value != c;
    }
  }

  lemma NoDanglingDrop(before: map<RequestRef, Request>, after: map<RequestRef, Request>, contexts: set<ContextRef>,
                       flows: set<FlowRef>, c: ContextRef)
    requires NoDangling(before, contexts, flows)
    requires forall r :: r in after ==> r in before && after[r] == before[r] && !Targets(before[r], c)
    ensures NoDangling(after, contexts - {c}, flows)
  {
  }

  lemma DropContextOk(s: State, c: ContextRef)
    requires Ok(s) && c in s.ctx && c != s.primary && s.ctx[c].flows == []
    requires forall x :: x in s.pending ==> x in s.req
    ensures var t := DropContext(s, c);
            && Ok(t)
            && (Settled(s) ==> Settled(t))
            && FiltersKept(s, t)
            && t.ctx == s.ctx - {c} && t.contexts == Without(s.contexts, c)
            && |t.contexts| == |s.contexts| - 1
            && t.flows == s.flows && t.primary == s.primary
            && (forall x :: x in t.req <==> x in s.req && !Targets(s.req[x], c))
            && (forall x :: x in t.req ==> t.req[x] == s.req[x])
            && t.current == (if CurrentTargets(s, c) then None else s.current)
            && |t.pending| <= |s.pending|
            && t.controls == s.controls
  {
    hide Linked, Mirrored, ExactlyOnce, DistinctIds, Queued, NoDangling, CancelPending, Survivors, Targets, Without;
    CancelPendingOk(s, c);
    CancelPendingFrame(s, c, Without(s.contexts, c));
    var t := DropContext(s, c);
    var m := CancelPending(s, c);
    assert t == m.(contexts := Without(s.contexts, c), ctx := m.ctx - {c});
    assert t.ctx.Keys == s.ctx.Keys - {c};
    LinkedDrop(s.contexts, s.ctx, s.flows, c);
    NoDanglingDrop(s.req, t.req, s.ctx.Keys, s.flows.Keys, c);
    if s.notifier {
      MirroredDrop(m.ctx, m.flows, m.upcalls, c);
    }
  }

  lemma MirroredDrop(ctx: map<ContextRef, Context>, flows: map<FlowRef, Flow>, upcalls: seq<Upcall>, c: ContextRef)
    requires Mirrored(ctx, flows, upcalls)
    ensures Mirrored(ctx - {c}, flows, upcalls)
  {
    hide LastTold;
  }

  /** The request being served is one that a deletion of `c` cancels. */
  predicate CurrentTargets(s: State, c: ContextRef) {
    s.current.Some? && s.current.value in s.req && Targets(s.req[s.current.value], c)
  }

  /** Cancellation looks at the queue only. */
  lemma {:induction false} CancelPendingFrame(s: State, c: ContextRef, contexts: seq<ContextRef>)
    requires forall x :: x in s.pending ==> x in s.req
    ensures CancelPending(s.(contexts := contexts), c) == CancelPending(s, c).(contexts := contexts)
    decreases |s.pending|
  {
    var first := FirstTarget(s.pending, s.req, c);
    if first.Some? {
      var r := first.value;
      CancelPendingFrame(Destruct(s, r, FailureCode(s.req[r].kind, KErrDied)), c, contexts);
    }
  }

  lemma ReelectOk(s: State, c: ContextRef)
    requires Ok(s) && c in s.ctx && forall x :: x in s.contexts ==> x in s.ctx
    ensures var m := Reelect(s, c);
            && Ok(m)
            && (Settled(s) ==> Settled(m))
            && FiltersKept(s, m)
            && m.ctx == s.ctx && m.contexts == s.contexts && m.flows == s.flows && m.controls == s.controls
            && m.primary in s.ctx && (m.primary == c <==> s.contexts == [c])
            && (m.primary == c ==> m == s)
            && m.primary == (if c == s.primary && s.contexts != [c] then BestContext(s.contexts, s.ctx, c).value
               else s.primary)
            && m.current == s.current
            && (forall x :: x in s.req ==> x in m.req && m.req[x] == s.req[x])
            && (forall x :: x in m.req && x !in s.req ==> !Targets(m.req[x], c))
            && |m.pending| <= |s.pending| + 1
  {
    hide Ok, FiltersKept, Settled, SelectNewDefault, BestContext, Linked;
    OkParts(s);
    OkAt(s, c);
    OnlyContext(s);
    FiltersKeptReflexive(s);
    if c == s.primary {
      SelectNewDefaultOk(s);
      SelectNewDefaultShape(s);
    }
  }

  lemma SelectNewDefaultShape(s: State)
    requires (forall x :: x in s.contexts ==> x in s.ctx) && (forall r :: r in s.req ==> r < s.nextRequest)
    ensures var t := SelectNewDefault(s);
            && t.ctx == s.ctx && t.contexts == s.contexts && t.flows == s.flows && t.controls == s.controls
               && t.current == s.current
            && t.primary == (var best := BestContext(s.contexts, s.ctx, s.primary); if best.Some? then best.value
               else s.primary)
            && (forall x :: x in s.req ==> x in t.req && t.req[x] == s.req[x])
            && (forall x :: x in t.req && x !in s.req ==> t.req[x].kind == Close && t.req[x].target == Some(t.primary))
            && |t.pending| <= |s.pending| + 1
            && (t.primary != s.primary <==> BestContext(s.contexts, s.ctx, s.primary).Some?)
  {
  }

  lemma EvacuateOk(s: State, c: ContextRef)
    requires Ok(s) && c in s.ctx && s.primary in s.ctx && s.contexts != [c]
    requires forall x :: x in s.contexts ==> x in s.ctx
    requires Reelect(s, c).primary != c
    ensures var m := Evacuate(s, c);
            && Ok(m) && (Settled(s) ==> Settled(m)) && FiltersKept(s, m)
            && m.flows.Keys == s.flows.Keys && m.controls == s.controls
            && m.contexts == s.contexts && m.ctx.Keys == s.ctx.Keys
            && m.primary == Reelect(s, c).primary && m.primary != c && m.primary in s.ctx
            && m.ctx[c].flows == [] && m.ctx[m.primary].flows == s.ctx[m.primary].flows + s.ctx[c].flows
            && (forall x :: x in s.ctx && x != m.primary && x != c ==> m.ctx[x] == s.ctx[x])
            && (forall x :: x in s.req ==> x in m.req && m.req[x] == s.req[x])
            && (forall x :: x in m.req && x !in s.req ==> !Targets(m.req[x], c))
            && m.current == s.current
            && |m.pending| <= |s.pending| + 1
  {
    hide Linked, Mirrored, ExactlyOnce, DistinctIds, Queued, NoDangling, Ok, Targets, Announce, BestContext, Reelect;
    ReelectOk(s, c);
    var chosen := Reelect(s, c);
    OkParts(chosen);
    RefsCount(chosen.contexts, chosen.ctx, chosen.flows, c);
    MoveFlowsOk(chosen, c, chosen.primary);
  }

  /** The deletion of a context that is not the only one. */
  lemma DeleteDropped(s: State, c: ContextRef)
    requires Ok(s) && c in s.ctx && s.primary in s.ctx && s.contexts != [c]
    requires forall x :: x in s.contexts ==> x in s.ctx
    requires forall x :: x in s.pending ==> x in s.req
    ensures var t := DeletePdpContext(s, c);
            && Ok(t) && (Settled(s) ==> Settled(t)) && FiltersKept(s, t)
            && t.flows.Keys == s.flows.Keys && t.controls == s.controls
            && t.contexts == Without(s.contexts, c) && |t.contexts| == |s.contexts| - 1
            && t.ctx.Keys == s.ctx.Keys - {c}
            && t.primary == Reelect(s, c).primary && t.primary in t.ctx
            && t.ctx[t.primary].flows == s.ctx[t.primary].flows + s.ctx[c].flows
            && (forall x :: x in t.ctx && x != t.primary ==> t.ctx[x] == s.ctx[x])
            && (forall x :: x in s.req ==> (x in t.req <==> !Targets(s.req[x], c)))
            && (forall x :: x in s.req && x in t.req ==> t.req[x] == s.req[x])
            && t.current == (if CurrentTargets(s, c) then None else s.current)
  {
    hide Ok, FiltersKept, Targets, Without, Reelect, Evacuate, DropContext, Settled;
    OkParts(s);
    OkAt(s, c);
    ReelectOk(s, c);
    EvacuateOk(s, c);
    var m := Evacuate(s, c);
    OkAt(m, c);
    DropContextOk(m, c);
    FiltersKeptTransitive(s, m, DropContext(m, c));
  }

  /** The only context cannot be deleted: its flows are blocked instead. */
  lemma DeleteKept(s: State, c: ContextRef)
    requires Ok(s) && c in s.ctx && s.primary in s.ctx && s.contexts == [c]
    requires forall x :: x in s.contexts ==> x in s.ctx
    requires forall x :: x in s.pending ==> x in s.req
    ensures DeletePdpContext(s, c) == Block(s, c)
    ensures Ok(Block(s, c)) && (Settled(s) ==> Settled(Block(s, c)))
    ensures FiltersKept(s, Block(s, c)) && Block(s, c).ctx.Keys == s.ctx.Keys
  {
    hide Linked, Mirrored, ExactlyOnce, DistinctIds, Queued, NoDangling, Ok, Targets, Announce, BestContext,
      DropContext, Reelect;
    OkAt(s, c);
    ReelectOk(s, c);
    TouchOk(s, c, s.ctx[c].(blocked := true));
    assert Block(s, c).ctx.Keys == s.ctx.Keys;
  }

  /** Both cases together: what every caller of DeletePdpContext can rely on. */
  lemma DeletePdpContextOk(s: State, c: ContextRef)
    requires Ok(s) && c in s.ctx && s.primary in s.ctx
    requires forall x :: x in s.contexts ==> x in s.ctx
    requires forall x :: x in s.pending ==> x in s.req
    ensures var t := DeletePdpContext(s, c);
            && Ok(t) && (Settled(s) ==> Settled(t)) && FiltersKept(s, t)
            && t.flows.Keys == s.flows.Keys && t.controls == s.controls
            && (forall x :: x in s.req && !Targets(s.req[x], c) ==> x in t.req && t.req[x] == s.req[x])
            && (!CurrentTargets(s, c) ==> t.current == s.current)
            && (s.contexts == [c] ==> t.contexts == s.contexts && t.pending == s.pending)
            && (s.contexts != [c] ==> |t.contexts| == |s.contexts| - 1 && c !in t.ctx)
  {
    hide Ok, FiltersKept, Targets, Without, Reelect, CurrentTargets, Announce, Settled, DropContext, Evacuate;
    if s.contexts == [c] {
      DeleteKept(s, c);
    } else {
      DeleteDropped(s, c);
    }
  }

  lemma OkAt(s: State, c: ContextRef)
    requires Ok(s) && c in s.ctx
    ensures |s.ctx[c].filters| <= KMaxPacketFilters && DistinctIds(s.ctx[c].filters)
    ensures s.current.Some? ==> s.current.value in s.req
    ensures forall r :: r in s.req ==> r < s.nextRequest
    ensures forall x :: x in s.pending <==> x in s.req
  {
    hide Linked, Mirrored, NoDangling, NoDup, Deliveries, LoggedLoud, Logged, DistinctIds;
    if s.current.Some? {
      assert s.pending[0] in s.pending;
    }
  }
}
