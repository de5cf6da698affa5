/**
 CNif and the objects it owns, in the form of the source: fields updated step by
 step and queues walked by loops. The stores `ctx`, `flows` and `req` are the
 heap of CPdpContext, CFlowData and CRequestBase objects. Every method is proved
 to compute its function on the whole state; the properties of those functions
 are in the modules that define them.
*/
module GuqosNif {
  import opened Wrappers
  import opened Sequences
  import opened PacketFilters
  import opened Tft
  import opened GuqosState
  import Heap = GuqosHeap
  import Requests = GuqosRequests
  import Steps = GuqosSteps
  import Loops = GuqosLoops
  import Events = GuqosEvents
  import Runs = GuqosRuns
  import Theorems = GuqosTheorems

  const TWO_TO_THE_32 := 0x1_0000_0000

  // ---------- moving flows one by one ----------

  /** The state when the first `k` flows of `c` have been moved to `d`. */
  ghost function PartMoved(s: State, c: ContextRef, d: ContextRef, k: nat): State
    requires c in s.ctx && d in s.ctx && c != d && k <= |s.ctx[c].flows|
  {
    var moving := s.ctx[c].flows[..k];
    s.(flows := map f | f in s.flows :: if f in moving then s.flows[f].(context := Some(d)) else s.flows[f],
       ctx := s.ctx[c := s.ctx[c].(flows := s.ctx[c].flows[k..], refs := s.ctx[c].refs - k,
                                   expiring := s.ctx[c].expiring || (c != s.primary && k > 0 && k == |s.ctx[c].flows|))]
                   [d := s.ctx[d].(flows := s.ctx[d].flows + moving, refs := s.ctx[d].refs + k)],
       upcalls := s.upcalls + if s.notifier then Announce(moving, FlowBlocked(s.ctx[d])) else [])
  }

  lemma PartMovedNone(s: State, c: ContextRef, d: ContextRef)
    requires c in s.ctx && d in s.ctx && c != d
    ensures PartMoved(s, c, d, 0) == s
  {
    var t := PartMoved(s, c, d, 0);
    assert t.flows == s.flows;
    assert s.ctx[d].flows + [] == s.ctx[d].flows;
    assert t.ctx == s.ctx;
    assert s.upcalls + [] == s.upcalls;
  }

  lemma PartMovedAll(s: State, c: ContextRef, d: ContextRef)
    requires c in s.ctx && d in s.ctx && c != d
    ensures PartMoved(s, c, d, |s.ctx[c].flows|) == Heap.MoveFlows(s, c, d)
  {
    hide Announce;
    assert s.ctx[c].flows[..|s.ctx[c].flows|] == s.ctx[c].flows;
    assert PartMoved(s, c, d, |s.ctx[c].flows|).ctx[c] == Heap.MoveFlows(s, c, d).ctx[c];
    assert PartMoved(s, c, d, |s.ctx[c].flows|).ctx == Heap.MoveFlows(s, c, d).ctx;
    assert PartMoved(s, c, d, |s.ctx[c].flows|).flows == Heap.MoveFlows(s, c, d).flows;
  }

  /** SetContext, field by field. */
  lemma SetFlowContextFields(s: State, f: FlowRef, was: ContextRef, c: ContextRef)
    requires f in s.flows && s.flows[f].context == Some(was) && was in s.ctx && c in s.ctx && was != c
    ensures var left := Without(s.ctx[was].flows, f);
            var t := Heap.SetFlowContext(s, f, c);
            && t == s.(flows := t.flows, ctx := t.ctx, upcalls := t.upcalls)
            && t.flows == s.flows[f := s.flows[f].(context := Some(c))]
            && t.ctx == s.ctx[was := s.ctx[was].(flows := left, refs := s.ctx[was].refs - 1,
                                                 expiring := s.ctx[was].expiring || (was != s.primary && left == []))]
                             [c := s.ctx[c].(flows := s.ctx[c].flows + [f], refs := s.ctx[c].refs + 1)]
            && t.upcalls == s.upcalls + if s.notifier then [Tell(f, FlowBlocked(s.ctx[c]))] else []
  {
    hide Without;
    FlowsRelinked(s.flows, f, c);
  }

  lemma FlowsRelinked(flows: map<FlowRef, Flow>, f: FlowRef, c: ContextRef)
    requires f in flows
    ensures (flows - {f})[f := Flow(flows[f].filter, Some(c))] == flows[f := flows[f].(context := Some(c))]
  {
  }

  lemma AlreadyThere(s: State, f: FlowRef, c: ContextRef)
    requires f in s.flows && s.flows[f].context == Some(c) && c in s.ctx
    ensures Heap.SetFlowContext(s, f, c) == s
  {
  }

  /** Moving the next flow with SetContext. */
  lemma PartMovedNext(s: State, c: ContextRef, d: ContextRef, k: nat)
    requires Linked(s.contexts, s.ctx, s.flows)
    requires c in s.ctx && d in s.ctx && c != d && k < |s.ctx[c].flows|
    ensures var f := s.ctx[c].flows[k];
            var t := PartMoved(s, c, d, k);
            && f in t.flows && t.flows[f].context == Some(c) && c in t.ctx && d in t.ctx
            && t.ctx[c].flows != [] && t.ctx[c].flows[0] == f
            && Heap.SetFlowContext(t, f, d) == PartMoved(s, c, d, k + 1)
  {
    hide NoDup, Without, Linked, Announce, Heap.SetFlowContext;
    var f := s.ctx[c].flows[k];
    var t := PartMoved(s, c, d, k);
    var u := PartMoved(s, c, d, k + 1);
    ListedOnce(s, c, k);
    assert s.ctx[c].flows[..k + 1] == s.ctx[c].flows[..k] + [f];
    SetFlowContextFields(t, f, c, d);
    assert (s.ctx[d].flows + s.ctx[c].flows[..k]) + [f] == s.ctx[d].flows + s.ctx[c].flows[..k + 1];
    MovedContexts(s, c, d, k, f);
    assert t.flows[f := t.flows[f].(context := Some(d))] == u.flows;
    AnnounceNext(s.upcalls, s.ctx[c].flows, k, FlowBlocked(s.ctx[d]));
  }

  lemma MovedContexts(s: State, c: ContextRef, d: ContextRef, k: nat, f: FlowRef)
    requires c in s.ctx && d in s.ctx && c != d && k < |s.ctx[c].flows| && f == s.ctx[c].flows[k]
    requires Without(s.ctx[c].flows[k..], f) == s.ctx[c].flows[k + 1..]
    requires s.ctx[c].flows[..k + 1] == s.ctx[c].flows[..k] + [f]
    requires (s.ctx[d].flows + s.ctx[c].flows[..k]) + [f] == s.ctx[d].flows + s.ctx[c].flows[..k + 1]
    ensures var t := PartMoved(s, c, d, k);
            var left := Without(t.ctx[c].flows, f);
            && t.ctx[c := t.ctx[c].(flows := left, refs := t.ctx[c].refs - 1,
                                    expiring := t.ctx[c].expiring || (c != t.primary && left == []))]
                    [d := t.ctx[d].(flows := t.ctx[d].flows + [f], refs := t.ctx[d].refs + 1)]
               == PartMoved(s, c, d, k + 1).ctx
            && FlowBlocked(t.ctx[d]) == FlowBlocked(s.ctx[d])
  {
    hide Without, Announce;
    assert s.ctx[c].flows[k + 1..] == [] <==> k + 1 == |s.ctx[c].flows|;
  }

  lemma AnnounceNext(upcalls: seq<Upcall>, flows: seq<FlowRef>, k: nat, blocked: bool)
    requires k < |flows|
    ensures upcalls + Announce(flows[..k + 1], blocked)
            == (upcalls + Announce(flows[..k], blocked)) + [Tell(flows[k], blocked)]
  {
    assert flows[..k + 1][..k] == flows[..k];
  }

  lemma ListedOnce(s: State, c: ContextRef, k: nat)
    requires Linked(s.contexts, s.ctx, s.flows) && c in s.ctx && k < |s.ctx[c].flows|
    ensures s.ctx[c].flows[k] in s.flows && s.flows[s.ctx[c].flows[k]].context == Some(c)
    ensures s.ctx[c].flows[k] !in s.ctx[c].flows[..k]
    ensures Without(s.ctx[c].flows[k..], s.ctx[c].flows[k]) == s.ctx[c].flows[k + 1..]
  {
    var list := s.ctx[c].flows;
    forall i | 0 <= i < k ensures list[i] != list[k] {
      NoDupApart(list, i, k);
    }
    NoDupTail(list, k);
    WithoutLength(list[k..], list[k]);
    assert list[k..][1..] == list[k + 1..];
    hide NoDup, Without;
  }

  lemma {:induction false} NoDupTail(s: seq<FlowRef>, k: nat)
    requires NoDup(s) && k <= |s|
    ensures NoDup(s[k..])
  {
    if k > 0 {
      NoDupTail(s[1..], k - 1);
      assert s[k..] == s[1..][k - 1..];
    }
  }

  class Nif {
    const network: Network
    const notifier: bool
    const marked: array<bool>             // iEvaluationPrecedenceMap
    var contexts: seq<ContextRef>         // iContexts
    var ctx: map<ContextRef, Context>
    var primary: ContextRef               // iPrimary
    var flows: map<FlowRef, Flow>
    var pending: seq<RequestRef>          // iPending
    var req: map<RequestRef, Request>
    var current: Option<RequestRef>       // iCurrentRequest
    var pendingSequence: nat              // iPendingSequence
    var ready: bool                       // iStatus == EReady
    var issued: bool                      // iTimeout is set
    var nextContext: ContextRef
    var nextRequest: RequestRef
    var controls: seq<Control>
    ghost var marks: seq<bool>            // the contents of `marked`
    ghost var upcalls: seq<Upcall>
    ghost var log: seq<Done>

    /** The whole state as a value. */
    ghost function S(): State
      reads this
    {
      State(contexts, ctx, primary, flows, pending, req, current, ready, issued, marks, notifier,
            nextContext, nextRequest, controls, upcalls, log)
    }

    /** What `S` does not show. */
    ghost predicate Sane()
      reads this, marked
    {
      marked.Length == KMaxEvaluationPrecedences && marks == marked[..] && pendingSequence < TWO_TO_THE_32
    }

    /** The invariant between events. */
    ghost predicate Valid()
      reads this, marked
    {
      Sane() && Ok(S()) && Settled(S())
    }

    constructor (network: Network, notifier: bool)
      ensures Valid() && fresh(marked)
      ensures this.network == network && S() == Initial(notifier)
    {
      this.network := network;
      this.notifier := notifier;
      marked := new bool[KMaxEvaluationPrecedences](_ => false);
      contexts, ctx, primary := [0], map[0 := PrimaryContext], 0;
      flows, pending, req, current, pendingSequence := map[], [], map[], None, 0;
      ready, issued, nextContext, nextRequest, controls := false, false, 1, 0, [];
      marks, upcalls, log := seq(KMaxEvaluationPrecedences, _ => false), [], [];
      new;
      InitialOk(notifier);
    }

    // ---------- contexts ----------

    /** CPdpContext::NotifyBlockingState: `was` is the blocking state before. */
    method NotifyBlockingState(c: ContextRef, was: bool)
      requires c in ctx
      modifies this`upcalls
      ensures upcalls == old(upcalls) + if notifier && FlowBlocked(ctx[c]) != was
                                        then Announce(ctx[c].flows, FlowBlocked(ctx[c])) else []
    {
      var blocked := FlowBlocked(ctx[c]);
      assert upcalls + [] == upcalls;
      if blocked == was || !notifier {
        return;
      }
      var i := 0;
      while i < |ctx[c].flows|
        invariant 0 <= i <= |ctx[c].flows|
        invariant upcalls == old(upcalls) + Announce(ctx[c].flows[..i], blocked)
      {
        AnnounceNext(old(upcalls), ctx[c].flows, i, blocked);
        upcalls := upcalls + [Tell(ctx[c].flows[i], blocked)];
        i := i + 1;
      }
      assert ctx[c].flows[..i] == ctx[c].flows;
    }

    method Block(c: ContextRef)
      requires Sane() && c in ctx
      modifies this`ctx, this`upcalls
      ensures Sane() && S() == Heap.Block(old(S()), c)
    {
      var was := FlowBlocked(ctx[c]);
      ctx := ctx[c := ctx[c].(blocked := true)];
      NotifyBlockingState(c, was);
    }

    method UnBlock(c: ContextRef)
      requires Sane() && c in ctx
      modifies this`ctx, this`upcalls
      ensures Sane() && S() == Heap.UnBlock(old(S()), c)
    {
      var was := FlowBlocked(ctx[c]);
      ctx := ctx[c := ctx[c].(blocked := false)];
      NotifyBlockingState(c, was);
    }

    method SetContextStatus(c: ContextRef, status: ContextStatus)
      requires Sane() && c in ctx
      modifies this`ctx, this`upcalls
      ensures Sane() && S() == Heap.SetStatus(old(S()), c, status)
    {
      var was := FlowBlocked(ctx[c]);
      ctx := ctx[c := ctx[c].(status := status)];
      NotifyBlockingState(c, was);
    }

    /** CPdpContext::FlowDetached: the count drops, and an empty secondary context starts its deletion timer. */
    method FlowDetached(c: ContextRef)
      requires c in ctx
      modifies this`ctx
      ensures ctx == old(ctx)[c := old(ctx)[c].(refs := old(ctx)[c].refs - 1,
                                                expiring := old(ctx)[c].expiring
                                                  || (c != primary && old(ctx)[c].flows == []))]
    {
      ctx := ctx[c := ctx[c].(refs := ctx[c].refs - 1)];
      if c != primary && ctx[c].flows == [] {
        ctx := ctx[c := ctx[c].(expiring := true)];
      }
    }

    /** CFlowData::SetContext */
    method SetContext(f: FlowRef, c: ContextRef)
      requires Sane() && f in flows && flows[f].context.Some? && flows[f].context.value in ctx
      requires c in ctx
      modifies this`ctx, this`flows, this`upcalls
      ensures Sane() && S() == Heap.SetFlowContext(old(S()), f, c)
    {
      hide Without, Heap.SetFlowContext, FlowBlocked;
      if flows[f].context == Some(c) {
        AlreadyThere(S(), f, c);
        return;
      }
      var was := flows[f].context.value;
      SetFlowContextFields(S(), f, was, c);
      ctx := ctx[was := ctx[was].(flows := Without(ctx[was].flows, f))];
      FlowDetached(was);
      flows := flows[f := flows[f].(context := Some(c))];
      FlowAttached(f, c);
    }

    /** The flow is last in the list of its new context, and is told whether that is blocked. */
    method FlowAttached(f: FlowRef, c: ContextRef)
      requires c in ctx
      modifies this`ctx, this`upcalls
      ensures ctx == old(ctx)[c := old(ctx)[c].(flows := old(ctx)[c].flows + [f], refs := old(ctx)[c].refs + 1)]
      ensures upcalls == old(upcalls) + if notifier then [Tell(f, FlowBlocked(old(ctx)[c]))] else []
    {
      ctx := ctx[c := ctx[c].(flows := ctx[c].flows + [f], refs := ctx[c].refs + 1)];
      assert upcalls + [] == upcalls;
      if notifier {
        upcalls := upcalls + [Tell(f, FlowBlocked(ctx[c]))];
      }
    }

    // ---------- the request queue ----------

    method AddRequest(q: Request)
      requires Sane()
      modifies this`pending, this`req, this`nextRequest, this`pendingSequence, this`issued
      ensures Sane() && S() == Heap.AddRequest(old(S()), q)
    {
      pending := pending + [nextRequest];
      req := req[nextRequest := q];
      nextRequest := nextRequest + 1;
      pendingSequence := (pendingSequence + 1) % TWO_TO_THE_32;
      issued := true;
    }

    method CloseRequest(r: RequestRef)
      requires pendingSequence < TWO_TO_THE_32
      modifies this`pending, this`current, this`pendingSequence, this`issued
      ensures pending == Without(old(pending), r)
      ensures current == if old(current) == Some(r) then None else old(current)
      ensures issued == (old(issued) || old(current) == Some(r))
      ensures pendingSequence < TWO_TO_THE_32 && pendingSequence != old(pendingSequence)
    {
      pending := Without(pending, r);
      pendingSequence := (pendingSequence + 1) % TWO_TO_THE_32;
      if current != Some(r) {
        return;
      }
      current := None;
      issued := true;
    }

    method CompleteAndDestruct(r: RequestRef, code: Code)
      requires Sane() && r in req
      modifies this`pending, this`req, this`current, this`pendingSequence, this`issued, this`upcalls, this`log
      ensures Sane() && S() == Heap.Destruct(old(S()), r, code)
      ensures pendingSequence != old(pendingSequence)
    {
      hide Without, Notifies, Heap.Destruct;
      Heap.DestructShape(S(), r, code);
      CloseRequest(r);
      Deliver(r, code);
      req := req - {r};
    }

    /** The upcall, if anybody listens, and the end of the object. */
    method Deliver(r: RequestRef, code: Code)
      requires r in req
      modifies this`upcalls, this`log
      ensures upcalls == if Notifies(req[r].kind) then old(upcalls) + [RequestComplete(r, code)] else old(upcalls)
      ensures log == old(log) + [Done(r, req[r].kind, code, req[r].sblp, req[r].said)]
    {
      if Notifies(req[r].kind) {
        upcalls := upcalls + [RequestComplete(r, code)];
      }
      log := log + [Done(r, req[r].kind, code, req[r].sblp, req[r].said)];
    }

    /** The Cancel methods for a context. */
    method Cancel(r: RequestRef, c: ContextRef)
      requires Sane() && r in req
      modifies this`pending, this`req, this`current, this`pendingSequence, this`issued, this`upcalls, this`log
      ensures Sane()
      ensures Targets(old(req)[r], c) ==> S() == Heap.Destruct(old(S()), r, FailureCode(old(req)[r].kind, KErrDied))
                                          && pendingSequence != old(pendingSequence)
      ensures !Targets(old(req)[r], c) ==> S() == old(S()) && pendingSequence == old(pendingSequence)
    {
      hide Heap.Destruct;
      match req[r].kind {
        case Open =>
          if req[r].newContext == Some(c) {
            CompleteAndDestruct(r, Err(KErrDied));
          }
        case Join =>
          if req[r].target == Some(c) {
            CompleteAndDestruct(r, JoinFailure(KErrDied));
          }
        case Leave =>
          if req[r].target == Some(c) {
            CompleteAndDestruct(r, LeaveFailure(KErrDied));
          }
        case _ =>
          if req[r].target == Some(c) {
            CompleteAndDestruct(r, Err(KErrDied));
          }
      }
    }

    /** CNif::CancelPendingRequest for a context: the walk restarts whenever the queue has changed. */
    method CancelPendingRequest(c: ContextRef)
      requires Sane() && forall x :: x in pending <==> x in req
      modifies this`pending, this`req, this`current, this`pendingSequence, this`issued, this`upcalls, this`log
      ensures Sane() && S() == Heap.CancelPending(old(S()), c)
    {
      hide Heap.CancelPending, Heap.Destruct, Heap.FirstTarget, Targets;
      var changed := true;
      while changed
        invariant Sane() && forall x :: x in pending <==> x in req
        invariant Heap.CancelPending(S(), c) == Heap.CancelPending(old(S()), c)
        invariant !changed ==> S() == Heap.CancelPending(old(S()), c)
        decreases |pending|, changed
      {
        var mark := pendingSequence;
        ghost var s := S();
        var i := 0;
        while pendingSequence == mark && i < |pending|
          invariant Sane()
          invariant pendingSequence == mark ==> S() == s && 0 <= i <= |pending|
          invariant pendingSequence == mark ==> forall k :: 0 <= k < i ==> !Targets(s.req[s.pending[k]], c)
          invariant pendingSequence != mark ==>
              && Heap.FirstTarget(s.pending, s.req, c).Some?
              && var r := Heap.FirstTarget(s.pending, s.req, c).value;
                 S() == Heap.Destruct(s, r, FailureCode(s.req[r].kind, KErrDied))
          decreases pendingSequence == mark, |s.pending| - i
        {
          assert pending[i] in pending;
          FirstTargetAt(s.pending, s.req, c, i);
          Cancel(pending[i], c);
          i := i + 1;
        }
        changed := mark != pendingSequence;
        if changed {
          CancelOne(s, c);
        } else {
          NoTargets(s.pending, s.req, c);
          CancelNone(s, c);
        }
      }
    }

    /** CNif::CancelPendingRequest for a flow: every request lets go of it. */
    method CancelPendingFlow(f: FlowRef)
      requires Sane() && forall x :: x in pending <==> x in req
      modifies this`req
      ensures Sane() && S() == Events.CancelFlow(old(S()), f)
    {
      ghost var before := req;
      var i := 0;
      while i < |pending|
        invariant 0 <= i <= |pending|
        invariant req.Keys == before.Keys
        invariant forall x :: x in before ==> req[x] == if x in pending[..i] then LetGo(before[x], f) else before[x]
      {
        assert pending[i] in pending;
        var r := pending[i];
        if req[r].flow == Some(f) {
          req := req[r := req[r].(flow := None)];
        }
        assert pending[..i + 1] == pending[..i] + [r];
        i := i + 1;
      }
      assert pending[..i] == pending;
      LetGoAll(S(), req, f);
    }

    // ---------- deleting contexts ----------

    /** CNif::SelectNewDefaultContext */
    method SelectNewDefaultContext()
      requires Sane() && forall c :: c in contexts ==> c in ctx
      modifies this`primary, this`pending, this`req, this`nextRequest, this`pendingSequence, this`issued
      ensures Sane() && S() == Heap.SelectNewDefault(old(S()))
    {
      var highest: Option<ContextRef> := None;
      var i := 0;
      while i < |contexts|
        invariant 0 <= i <= |contexts|
        invariant highest.Some? ==> highest.value in ctx
        invariant highest == Heap.BestContext(contexts[..i], ctx, primary)
      {
        var c := contexts[i];
        assert contexts[..i + 1][..i] == contexts[..i];
        if c != primary {
          if highest.None? {
            highest := Some(c);
          } else if Ranking(ctx[c].negotiated) < Ranking(ctx[highest.value].negotiated) {
            highest := Some(c);
          }
        }
        i := i + 1;
      }
      assert contexts[..i] == contexts;
      if highest.None? {
        return;
      }
      primary := highest.value;
      AddRequest(FreshRequest(Close, None, highest, 0, false));
    }

    /** CNif::DeletePdpContext with the destructor of the context. */
    method DeletePdpContext(c: ContextRef)
      requires Sane() && Ok(S()) && c in ctx && primary in ctx
      requires forall x :: x in contexts <==> x in ctx
      requires forall x :: x in pending <==> x in req
      modifies this
      ensures Sane() && S() == Heap.DeletePdpContext(old(S()), c)
    {
      hide Ok, Heap.SelectNewDefault, Heap.Block, Heap.DropContext, Heap.MoveFlows;
      Heap.ReelectOk(S(), c);
      if primary == c {
        SelectNewDefaultContext();
      }
      ghost var s := S();
      assert s == Heap.Reelect(old(S()), c);
      Requests.DeleteReady(s);
      if primary != c {
        MovedQueue(s, c, primary);
        HandOver(c, primary);
        assert S() == Heap.Evacuate(old(S()), c);
        DestroyContext(c);
      } else {
        Block(c);
      }
    }

    /** The context leaves the list, and its destructor cancels the requests that target it. */
    method DestroyContext(c: ContextRef)
      requires Sane() && forall x :: x in pending <==> x in req
      modifies this`contexts, this`ctx, this`pending, this`req, this`current, this`pendingSequence, this`issued,
               this`upcalls, this`log
      ensures Sane() && S() == Heap.DropContext(old(S()), c)
    {
      hide Heap.CancelPending, Without;
      contexts := Without(contexts, c);
      assert S() == old(S()).(contexts := Without(old(S()).contexts, c));
      CancelPendingRequest(c);
      ctx := ctx - {c};
    }

    /** The loop of DeletePdpContext that moves the flows, first to last. */
    method HandOver(c: ContextRef, d: ContextRef)
      requires Sane() && Ok(S()) && c in ctx && d in ctx && c != d
      modifies this`ctx, this`flows, this`upcalls
      ensures Sane() && S() == Heap.MoveFlows(old(S()), c, d)
    {
      hide Ok, PartMoved, Heap.SetFlowContext, Heap.MoveFlows, Linked;
      ghost var s := S();
      Heap.OkParts(s);
      PartMovedNone(s, c, d);
      ghost var k := 0;
      while ctx[c].flows != []
        invariant Sane() && c in ctx && d in ctx
        invariant 0 <= k <= |s.ctx[c].flows|
        invariant S() == PartMoved(s, c, d, k)
        invariant ctx[c].flows == s.ctx[c].flows[k..]
        decreases |s.ctx[c].flows| - k
      {
        PartMovedNext(s, c, d, k);
        PartMovedShape(s, c, d, k + 1);
        SetContext(ctx[c].flows[0], d);
        k := k + 1;
      }
      PartMovedAll(s, c, d);
    }

    // ---------- packet filters ----------

    /** CNif::RecomputeEvaluationPrecedences */
    method RecomputeEvaluationPrecedences()
      requires Sane() && forall c :: c in contexts ==> c in ctx
      modifies marked, this`marks
      ensures Sane() && S() == old(S()).(marked := Marks(Events.FilterLists(contexts, ctx)))
    {
      ghost var lists := Events.FilterLists(contexts, ctx);
      var p := 0;
      while p < marked.Length
        invariant 0 <= p <= marked.Length
        invariant forall k :: 0 <= k < p ==> !marked[k]
      {
        marked[p] := false;
        p := p + 1;
      }
      var i := 0;
      while i < |contexts|
        invariant 0 <= i <= |contexts|
        invariant forall k :: 0 <= k < marked.Length ==> (marked[k] <==> UsesWithin(lists, i, 0, k))
      {
        var filters := ctx[contexts[i]].filters;
        var j := 0;
        while j < |filters|
          invariant 0 <= j <= |filters|
          invariant forall k :: 0 <= k < marked.Length ==> (marked[k] <==> UsesWithin(lists, i, j, k))
        {
          var q := filters[j].precedence;
          if 0 <= q < KMaxEvaluationPrecedences {
            marked[q] := true;
          }
          assert lists[i][j].precedence == q;
          j := j + 1;
        }
        forall k | 0 <= k < marked.Length ensures UsesWithin(lists, i, j, k) <==> UsesWithin(lists, i + 1, 0, k) {
          assert j == |lists[i]|;
        }
        i := i + 1;
      }
      forall k | 0 <= k < marked.Length ensures marked[k] == UsesPrecedence(lists, k) {
        assert UsesWithin(lists, i, 0, k) <==> UsesPrecedence(lists, k);
      }
      marks := Marks(lists);
    }

    /** CNif::FindEvaluationPrecedence */
    method FindEvaluationPrecedence() returns (p: int)
      requires Sane()
      modifies marked, this`marks
      ensures p == FreePrecedence(old(marks))
      ensures Sane() && S() == old(S()).(marked := Reserve(old(marks), p))
    {
      var i := 0;
      while i < marked.Length
        invariant 0 <= i <= marked.Length
        invariant Sane() && S() == old(S())
        invariant FreePrecedence(marks) == FreePrecedenceFrom(marks, i)
      {
        assert marks[i] == marked[i];
        if !marked[i] {
          marked[i] := true;
          marks := marks[i := true];
          return i;
        }
        i := i + 1;
      }
      return KErrNotFound;
    }

    /** CPdpContext::FindPacketFilterId; the bit mask is the set of its bits. */
    method FindPacketFilterId(filters: seq<PacketFilter>) returns (id: int)
      ensures id == FreeId(filters)
    {
      var mask: set<int> := {};
      var i := |filters|;
      while i > 0
        invariant 0 <= i <= |filters|
        invariant forall b :: b in mask <==> 1 <= b <= 8 && UsesId(filters[i..], b)
      {
        i := i - 1;
        assert filters[i..][0] == filters[i] && filters[i..][1..] == filters[i + 1..];
        forall b ensures UsesId(filters[i..], b) <==> filters[i].id == b || UsesId(filters[i + 1..], b) {
          UsesIdStep(filters[i..], b);
        }
        if filters[i].id > 0 && filters[i].id < 9 {
          mask := mask + {filters[i].id};
        }
      }
      assert filters[0..] == filters;
      var j := 1;
      while j < 9
        invariant 1 <= j <= 9
        invariant FreeId(filters) == FreeIdFrom(filters, j)
      {
        if j !in mask {
          return j;
        }
        j := j + 1;
      }
      return KErrOverflow;
    }

    /** The loop of AddPacketFilter: is the flow covered by a filter already? */
    method Covered(f: PacketFilter, filters: seq<PacketFilter>) returns (covered: bool)
      ensures covered <==> LastMatch(f, filters) >= 0
    {
      var i := |filters|;
      while i > 0
        invariant 0 <= i <= |filters|
        invariant LastMatch(f, filters) == LastMatchUpTo(f, filters, i)
      {
        i := i - 1;
        if Matches(f, filters[i]) {
          return true;
        }
      }
      return false;
    }

    /** CPdpContext::AddPacketFilter: an error, 0 if the flow is covered already, or 1 with the template to send. */
    method AddPacketFilter(f: FlowRef, c: ContextRef) returns (ret: int, tft: TftInfo)
      requires Sane() && f in flows && c in ctx
      modifies this`flows, this`marks, marked
      ensures Sane() && fresh(tft) && fresh(tft.used) && fresh(tft.filters) && tft.Valid()
      ensures var s := old(S());
              var filters := s.ctx[c].filters;
              if LastMatch(s.flows[f].filter, filters) >= 0 then ret == 0 && S() == s
              else if FreeId(filters) < 0 then ret == FreeId(filters) && S() == s
              else ret == 1 && S() == Identified(s, c, f) && Occupied(tft.contents) == [S().flows[f].filter]
    {
      hide LastMatch, FreeId, FreePrecedence, Reserve, Add;
      tft := new TftInfo();
      var covered := Covered(flows[f].filter, ctx[c].filters);
      if covered {
        return 0, tft;
      }
      ret := FindPacketFilterId(ctx[c].filters);
      if ret < 0 {
        return;
      }
      flows := flows[f := flows[f].(filter := flows[f].filter.(id := ret))];
      var p := FindEvaluationPrecedence();
      flows := flows[f := flows[f].(filter := flows[f].filter.(precedence := p))];
      assert flows == Identified(old(S()), c, f).flows;
      PackedEmpty();
      PackedAdd(EmptySlots, [], flows[f].filter);
      var err := tft.AddPacketFilter(flows[f].filter);
      assert [] + [flows[f].filter] == [flows[f].filter];
      PackedOccupied(tft.contents, [flows[f].filter]);
      ret := if err < 0 then err else 1;
    }

    /** The first half of RemovePacketFilter: which filters do the attached flows rely on? */
    method MarkNeeded(filters: seq<PacketFilter>, list: seq<FlowRef>, except: Option<FlowRef>) returns (mask: seq<bool>)
      requires forall f :: f in list ==> f in flows
      ensures |mask| == |filters|
      ensures forall j :: 0 <= j < |filters| ==>
              (mask[j] <==> Needed(filters, Requests.OwnFilters(list, flows, except), j))
    {
      hide Requests.OwnFilters, Needed;
      mask := seq(|filters|, _ => false);
      var k := 0;
      NoneNeeded(list, flows, except, filters);
      while k < |list|
        invariant 0 <= k <= |list| && |mask| == |filters|
        invariant forall j :: 0 <= j < |filters| ==>
                (mask[j] <==> Needed(filters, Requests.OwnFilters(list[..k], flows, except), j))
      {
        var f := list[k];
        OwnFiltersNext(list, flows, except, k);
        assert Requests.OwnFilters(list[..k], flows, except) + [] == Requests.OwnFilters(list[..k], flows, except);
        if except != Some(f) {
          NeededNext(filters, Requests.OwnFilters(list[..k], flows, except), flows[f].filter);
          var i := |filters|;
          while i > 0 && !Matches(flows[f].filter, filters[i - 1])
            invariant 0 <= i <= |filters|
            invariant LastMatch(flows[f].filter, filters) == LastMatchUpTo(flows[f].filter, filters, i)
          {
            i := i - 1;
          }
          if i > 0 {
            mask := mask[i - 1 := true];
          }
        }
        k := k + 1;
      }
      assert list[..k] == list;
    }

    /** CPdpContext::RemovePacketFilter: the filters no attached flow needs, flow `except` not counted. */
    method RemovePacketFilter(c: ContextRef, except: Option<FlowRef>) returns (ret: int, tft: TftInfo)
      requires Sane() && Ok(S()) && c in ctx
      ensures fresh(tft) && fresh(tft.used) && fresh(tft.filters) && tft.Valid()
      ensures Occupied(tft.contents) == Requests.UnneededFilters(S(), c, except)
      ensures ret == |Requests.UnneededFilters(S(), c, except)|
    {
      hide Ok, Requests.OwnFilters, Needed, Occupied, AsMap, Unneeded, DistinctIds;
      Requests.ListedFlows(S(), c);
      Heap.OkAt(S(), c);
      var filters := ctx[c].filters;
      ghost var attached := Requests.OwnFilters(ctx[c].flows, flows, except);
      var mask := seq(|filters|, _ => false);
      if c != primary {
        mask := MarkNeeded(filters, ctx[c].flows, except);
      }
      ret, tft := Unmarked(filters, mask, attached, c == primary);
      assert Requests.UnneededFilters(S(), c, except) == Unneeded(filters, attached, c == primary);
    }

    /** The second half of RemovePacketFilter: the filters that are not marked, in a template of their own. */
    static method Unmarked(filters: seq<PacketFilter>, mask: seq<bool>, ghost attached: seq<PacketFilter>,
                           ghost isPrimary: bool)
      returns (ret: int, tft: TftInfo)
      requires |mask| == |filters| <= KMaxPacketFilters && DistinctIds(filters)
      requires forall j :: 0 <= j < |filters| ==> (mask[j] <==> !isPrimary && Needed(filters, attached, j))
      ensures fresh(tft) && fresh(tft.used) && fresh(tft.filters) && tft.Valid()
      ensures Occupied(tft.contents) == Unneeded(filters, attached, isPrimary)
      ensures ret == |Unneeded(filters, attached, isPrimary)|
    {
      hide Needed, Occupied, AsMap, Add, DistinctIds;
      tft := new TftInfo();
      ret := 0;
      var j := 0;
      PackedEmpty();
      while j < |filters|
        invariant 0 <= j <= |filters|
        invariant fresh(tft) && fresh(tft.used) && fresh(tft.filters) && tft.Valid()
        invariant Packed(tft.contents, UnneededUpTo(filters, attached, isPrimary, j))
        invariant ret == |UnneededUpTo(filters, attached, isPrimary, j)|
      {
        if !mask[j] {
          ghost var before := UnneededUpTo(filters, attached, isPrimary, j);
          NewId(filters, attached, isPrimary, j);
          PackedAdd(tft.contents, before, filters[j]);
          var err := tft.AddPacketFilter(filters[j]);
          if err != KErrNone {
            return err, tft;
          }
          ret := ret + 1;
        }
        j := j + 1;
      }
      PackedOccupied(tft.contents, UnneededUpTo(filters, attached, isPrimary, j));
    }

    // ---------- talking to the network ----------

    /** One Control call; the network answers as it likes. */
    method Call(op: Control) returns (result: int)
      modifies this`controls
      ensures S() == Requests.SendControl(old(S()), op)
      ensures result == network(controls)
    {
      controls := controls + [op];
      result := network(controls);
    }

    /** CPdpContext::Delete */
    method DeleteOnNetwork(c: ContextRef)
      requires c in ctx
      modifies this`controls
      ensures S() == Requests.DeleteOnNetwork(old(S()), c)
    {
      if c != primary {
        var _ := Call(DeleteContext(ctx[c].contextId));
      }
    }

    /** The Failure methods. */
    method Failure(r: RequestRef, c: Option<ContextRef>, reason: int)
      requires Sane() && Ok(S()) && current == Some(r) && r in req
      requires c.Some? ==> c.value in ctx
      modifies this
      ensures Sane() && S() == Requests.Fail(old(S()), r, c, reason)
    {
      hide Ok, Heap.Destruct, Requests.AbandonContext;
      match req[r].kind {
        case Join => CompleteAndDestruct(r, JoinFailure(reason));
        case Leave => CompleteAndDestruct(r, LeaveFailure(reason));
        case Open =>
          if c.Some? && c == req[r].newContext {
            AbandonContext(r, c.value);
          }
          CompleteAndDestruct(r, Err(reason));
        case _ => CompleteAndDestruct(r, Err(reason));
      }
    }

    /** The part of COpenChannel::Failure that deletes the new context. */
    method AbandonContext(r: RequestRef, c: ContextRef)
      requires Sane() && Ok(S()) && current == Some(r) && r in req && c in ctx && req[r].kind == Open
      modifies this
      ensures Sane() && S() == Requests.AbandonContext(old(S()), r, c) && r in req
    {
      hide Ok, Heap.DeletePdpContext, Requests.DeleteOnNetwork, Heap.FiltersKept;
      Requests.AbandonReady(S(), r, c);
      Requests.AbandonedOk(S(), r, c);
      req := req[r := req[r].(newContext := None)];
      DeleteOnNetwork(c);
      DeletePdpContext(c);
    }

    /** SetExpected, one Control call, and IsOk on its result. */
    method Ask(r: RequestRef, op: Control, expected: Expected, onFailure: Option<ContextRef>)
      requires Sane() && Ok(S()) && current == Some(r) && r in req
      requires onFailure.Some? ==> onFailure.value in ctx
      modifies this
      ensures Sane() && S() == Requests.Ask(old(S()), network, r, op, expected, onFailure)
    {
      hide Ok, Requests.Fail;
      Requests.AskedOk(S(), r, op, expected);
      req := req[r := req[r].(expected := expected, modified := true, said := req[r].said + [Called(op)])];
      var result := Call(op);
      assert S() == Requests.Asked(old(S()), r, op, expected);
      if result < 0 {
        Requests.HeardOk(S(), r, Denied(op, result));
        Hear(r, Denied(op, result));
        Failure(r, onFailure, result);
      }
    }

    /** Only the history changes. */
    method Hear(r: RequestRef, x: Exchange)
      requires Sane() && r in req
      modifies this`req
      ensures Sane() && S() == Requests.Heard(old(S()), r, x)
    {
      req := req[r := req[r].(said := req[r].said + [x])];
    }

    // ---------- actions ----------

    /** SetContext on the request's flow, if it has one. */
    method MoveFlow(r: RequestRef, c: ContextRef)
      requires Sane() && Ok(S()) && r in req && c in ctx
      modifies this`ctx, this`flows, this`upcalls
      ensures Sane() && S() == Requests.Rehome(old(S()), r, c)
    {
      hide Ok, Heap.SetFlowContext;
      if req[r].flow.Some? {
        Requests.RequestParts(S(), r);
        Requests.AttachedFlow(S(), req[r].flow.value);
        SetContext(req[r].flow.value, c);
      }
    }

    method ActionRemovePacketFilter(r: RequestRef) returns (done: bool)
      requires Sane() && Ok(S()) && Requests.Acting(S(), r)
      modifies this
      ensures Sane() && (S(), done) == Requests.ActRemovePacketFilter(old(S()), network, r)
    {
      hide Ok, Requests.Rehome, Requests.Ask, Requests.UnneededFilters;
      if req[r].context.None? {
        return false;
      }
      var c := req[r].context.value;
      Requests.DeleteReady(S());
      Requests.RehomeOk(S(), r, primary);
      MoveFlow(r, primary);
      if ctx[c].refs > 0 || c == primary {
        var ret, tft := RemovePacketFilter(c, req[r].flow);
        assert ret >= 0;  // a template of at most eight distinct filters is never refused
        if ret > 0 {
          var filters := CopyFilters(tft);
          Ask(r, ModifyTft(ctx[c].contextId, RemoveFilters, filters), PendingPacketFilterRemove, Some(c));
          return true;
        }
      }
      return false;
    }

    method ActionAddPacketFilter(r: RequestRef) returns (done: bool)
      requires Sane() && Ok(S()) && Requests.Acting(S(), r)
      modifies this, marked
      ensures Sane() && (S(), done) == Requests.ActAddPacketFilter(old(S()), network, r)
    {
      hide Ok, Requests.Fail, Requests.Ask, LastMatch, FreeId, Requests.Reserved;
      if req[r].context.None? || req[r].flow.None? {
        return false;
      }
      var c := req[r].context.value;
      var f := req[r].flow.value;
      Requests.RequestParts(S(), r);
      Requests.ReservedOk(S(), r, c, f);
      var err, tft := AddPacketFilter(f, c);
      if err < 0 {
        Failure(r, Some(c), err);
        return true;
      } else if err > 0 {
        req := req[r := req[r].(added := Some((c, flows[f].filter)))];
        IdentifiedReserved(old(S()), r, c, f);
        var filters := CopyFilters(tft);
        Ask(r, ModifyTft(ctx[c].contextId, AddFilters, filters), PendingPacketFilterAdd, Some(c));
        return true;
      }
      return false;
    }

    method ActionCommit(r: RequestRef) returns (done: bool)
      requires Sane() && Ok(S()) && Requests.Acting(S(), r)
      modifies this
      ensures Sane() && (S(), done) == Requests.ActCommit(old(S()), network, r)
    {
      hide Ok, Requests.Ask;
      if req[r].context.None? {
        return false;
      }
      var c := req[r].context.value;
      if ctx[c].status != StatusActive {
        Ask(r, Activate(ctx[c].contextId), PendingActivate, Some(c));
      } else if req[r].modified {
        Ask(r, ModifyActive(ctx[c].contextId), PendingModifyActive, Some(c));
      } else {
        return false;
      }
      return true;
    }

    method DoRememberCreatedContext(r: RequestRef)
      requires Sane() && Ok(S()) && Requests.Acting(S(), r)
      modifies this`req, this`ctx
      ensures Sane() && (S(), false) == Requests.ActRememberCreatedContext(old(S()), r)
    {
      hide Ok;
      req := req[r := req[r].(newContext := req[r].context)];
      if req[r].context.Some? {
        var c := req[r].context.value;
        ctx := ctx[c := ctx[c].(channelId := req[r].channelId)];
      }
    }

    method ActionAddSblpParameter(r: RequestRef) returns (done: bool)
      requires Sane() && Ok(S()) && Requests.Acting(S(), r)
      modifies this
      ensures Sane() && (S(), done) == Requests.ActAddSblpParameter(old(S()), network, r)
    {
      hide Ok, Requests.Ask;
      if req[r].context.Some? && req[r].sblp {
        var c := req[r].context.value;
        Ask(r, ModifyTft(ctx[c].contextId, AddSblp, []), PendingSblpParameterAdd, Some(c));
        return true;
      }
      return false;
    }

    method ActionSetQoS(r: RequestRef) returns (done: bool)
      requires Sane() && Ok(S()) && Requests.Acting(S(), r)
      modifies this
      ensures Sane() && (S(), done) == Requests.ActSetQoS(old(S()), network, r)
    {
      hide Ok, Requests.Ask;
      if req[r].context.Some? {
        var c := req[r].context.value;
        Ask(r, RequestQoS(ctx[c].contextId), PendingSetQoS, Some(c));
        return true;
      }
      return false;
    }

    method DoAddFlowToContext(r: RequestRef)
      requires Sane() && Ok(S()) && Requests.Acting(S(), r)
      modifies this`ctx, this`flows, this`upcalls, this`req
      ensures Sane() && (S(), false) == Requests.ActAddFlowToContext(old(S()), r)
    {
      hide Ok, Requests.Rehome;
      if req[r].context.Some? {
        Requests.RehomeOk(S(), r, req[r].context.value);
        MoveFlow(r, req[r].context.value);
      }
      req := req[r := req[r].(flow := None)];
    }

    method ActionNegotiationComplete(r: RequestRef)
      requires Sane() && Ok(S()) && Requests.Acting(S(), r)
      modifies this
      ensures Sane() && (S(), true) == Requests.ActNegotiationComplete(old(S()), r)
    {
      hide Ok, Requests.Rehome, Heap.Destruct;
      if req[r].context.Some? {
        Requests.RehomeOk(S(), r, req[r].context.value);
        MoveFlow(r, req[r].context.value);
      }
      CompleteAndDestruct(r, Err(KErrNone));
    }

    /** The action of the request's current state. */
    method Action(r: RequestRef) returns (done: bool)
      requires Sane() && Ok(S()) && Requests.Acting(S(), r)
      modifies this, marked
      ensures Sane() && (S(), done) == Requests.Act(old(S()), network, r)
    {
      hide Ok, Table, Requests.ActRemovePacketFilter, Requests.ActAddPacketFilter, Requests.ActCommit,
        Requests.ActRememberCreatedContext,
        Requests.ActAddSblpParameter, Requests.ActSetQoS, Requests.ActAddFlowToContext, Requests.ActNegotiationComplete,
          Requests.Ask, Heap.Destruct;
      match Table(req[r].kind)[req[r].state] {
        case RemovePacketFilter => done := ActionRemovePacketFilter(r);
        case Commit => done := ActionCommit(r);
        case NewContext =>
          Ask(r, CreateSecondary, PendingCreate, None);
          done := true;
        case RememberCreatedContext =>
          DoRememberCreatedContext(r);
          done := false;
        case AddPacketFilter => done := ActionAddPacketFilter(r);
        case AddSblpParameter => done := ActionAddSblpParameter(r);
        case SetQoS => done := ActionSetQoS(r);
        case AddFlowToContext =>
          DoAddFlowToContext(r);
          done := false;
        case NegotiationComplete =>
          ActionNegotiationComplete(r);
          done := true;
        case StartWithTargetContext =>
          req := req[r := Requests.WithContext(req[r], req[r].target)];
          done := false;
        case CompleteRequest =>
          CompleteAndDestruct(r, Err(KErrNone));
          done := true;
      }
    }

    /** The loop of CRequestBase::Start, and of CRequestBase::Run after its first step. */
    method RunActions(r: RequestRef)
      requires Sane() && Ok(S()) && Requests.Acting(S(), r)
      modifies this, marked
      ensures Sane() && S() == Loops.RunActions(old(S()), network, r)
    {
      hide Ok, Table, Requests.Act;
      ghost var s := S();
      Loops.ActContinues(s, network, r);
      var done := Action(r);
      while !done
        invariant Sane() && Ok(s) && Requests.Acting(s, r)
        invariant (S(), done) == Requests.Act(s, network, r)
        invariant Loops.RunActions(s, network, r) == Loops.RunActions(old(S()), network, r)
        decreases |Table(s.req[r].kind)| - s.req[r].state, !done
      {
        Loops.ActContinues(s, network, r);
        req := req[r := req[r].(state := req[r].state + 1)];
        assert S() == Loops.Advance(Requests.Act(s, network, r).0, r);
        s := S();
        done := Action(r);
      }
    }

    /** CRequestBase::Run */
    method Run(r: RequestRef, reply: Expected, c: ContextRef, reason: int)
      requires Sane() && Ok(S()) && current == Some(r) && r in req && Waiting(req[r]) && c in ctx
      modifies this, marked
      ensures Sane() && S() == Loops.Run(old(S()), network, r, reply, c, reason)
    {
      hide Ok, Waiting, Loops.Run, Loops.RunActions, Requests.Fail, Heap.Destruct, Table, Loops.Resumed,
        Heap.FiltersKept, WaitsFor;
      Loops.RunReady(S(), r, c, reply);
      RunCases(S(), network, r, reply, c, reason);
      ghost var m := Requests.SetRequest(S(), r, req[r].(context := Some(c)));
      req := req[r := req[r].(context := Some(c))];
      assert S() == m;
      if req[r].expected != reply && req[r].expected != PendingAny {
        Mistaken(r, reply);
      } else if reason == KErrNone {
        ResumedAgain(old(S()), r, c, reply);
        Hear(r, Answered(reply));
        Resume(r, Loops.Resumed(old(S()), r, c, reply));
      } else {
        Disappointed(r, reply, c, reason);
      }
    }

    /** A reply to something else ends the request. */
    method Mistaken(r: RequestRef, reply: Expected)
      requires Sane() && r in req
      modifies this
      ensures Sane() && S() == Heap.Destruct(Requests.Heard(old(S()), r, Strange(reply)), r, Err(KErrCancel))
    {
      hide Heap.Destruct;
      Hear(r, Strange(reply));
      CompleteAndDestruct(r, Err(KErrCancel));
    }

    /** So does a reply with an error. */
    method Disappointed(r: RequestRef, reply: Expected, c: ContextRef, reason: int)
      requires Sane() && Ok(S()) && current == Some(r) && r in req && c in ctx
      modifies this
      ensures Ok(Requests.Heard(old(S()), r, Failed(reply, reason)))
      ensures Sane() && S() == Requests.Fail(Requests.Heard(old(S()), r, Failed(reply, reason)), r, Some(c), reason)
    {
      hide Ok, Requests.Fail;
      Requests.HeardOk(S(), r, Failed(reply, reason));
      Hear(r, Failed(reply, reason));
      Failure(r, Some(c), reason);
    }

    /** The expectation is cleared and the actions run from the next state on, that is from `m`. */
    method Resume(r: RequestRef, ghost m: State)
      requires Sane() && r in req
      requires m == Requests.SetRequest(S(), r, req[r].(expected := PendingAny, state := req[r].state + 1))
      requires Ok(m) && Requests.Acting(m, r)
      modifies this, marked
      ensures Sane() && S() == Loops.RunActions(m, network, r)
    {
      hide Ok, Loops.RunActions, Table;
      req := req[r := req[r].(expected := PendingAny)];
      req := req[r := req[r].(state := req[r].state + 1)];
      assert req == m.req;
      RunActions(r);
    }

    /** CDeleteRequest::Start before it completes. */
    method StartDelete(r: RequestRef)
      requires Sane() && Ok(S()) && current == Some(r) && r in req && req[r].kind == Delete
      modifies this
      ensures Sane() && S() == Loops.StartDelete(old(S()), r)
    {
      hide Ok, Heap.DeletePdpContext, Requests.DeleteOnNetwork;
      if req[r].target.Some? {
        var c := req[r].target.value;
        Loops.StartDeleteReady(S(), r, c);
        req := req[r := req[r].(target := None)];
        DeleteOnNetwork(c);
        DeletePdpContext(c);
      }
    }

    /** The Start methods. */
    method Start(r: RequestRef)
      requires Sane() && Ok(S()) && current == Some(r) && r in req && Idle(req[r])
      modifies this, marked
      ensures Sane() && S() == Loops.Start(old(S()), network, r)
    {
      hide Ok, Loops.RunActions, Heap.Destruct, Loops.StartDelete;
      var q := req[r];
      Requests.RequestParts(S(), r);
      if q.kind == Delete {
        Loops.StartDeleteOk(S(), r);
        StartDelete(r);
        CompleteAndDestruct(r, Err(KErrNone));
        return;
      }
      var c := q.target;
      if q.kind == Open || q.kind == Join {
        if q.flow.None? {
          CompleteAndDestruct(r, Err(KErrNone));
          return;
        }
        c := flows[q.flow.value].context;
        if q.kind == Join && c == q.target {
          CompleteAndDestruct(r, Err(KErrNone));
          return;
        }
      }
      req := req[r := Requests.WithContext(q, c)];
      if q.kind == Open && c.Some? && c != Some(primary) && c.value in ctx && ctx[c.value].refs == 1 {
        req := req[r := req[r].(state := KStateReuseOldContext)];
      }
      assert S() == Requests.SetRequest(old(S()), r, Loops.Begun(old(S()), r));
      Loops.BegunOk(old(S()), r);
      RunActions(r);
    }

    /** CNif::RunPendingRequests */
    method RunPendingRequests()
      requires Sane() && Loops.OkAsleep(S())
      modifies this, marked
      ensures Sane() && S() == Loops.RunPending(old(S()), network)
    {
      hide Ok, Loops.OkAsleep, Loops.Start, Idle;
      if !ready {
        return;
      }
      while pending != [] && current.None?
        invariant Sane() && Loops.OkAsleep(S()) && ready
        invariant Loops.RunPending(S(), network) == Loops.RunPending(old(S()), network)
        decreases if current.Some? then 0 else 1, |contexts|, |pending|
      {
        ghost var s := S();
        Loops.PickHead(s);
        Loops.ServedRound(s, network);
        StaysReady(s.(current := Some(s.pending[0])), network, s.pending[0]);
        current := Some(pending[0]);
        Start(current.value);
      }
    }

    // ---------- looking up contexts ----------

    method FindContext(id: int) returns (c: Option<ContextRef>)
      requires forall x :: x in contexts ==> x in ctx
      ensures c == Events.FindContext(contexts, ctx, id)
    {
      var i := 0;
      while i < |contexts|
        invariant 0 <= i <= |contexts|
        invariant Events.FindContext(contexts, ctx, id) == Events.FindContext(contexts[i..], ctx, id)
      {
        assert contexts[i..][0] == contexts[i] && contexts[i..][1..] == contexts[i + 1..];
        if ctx[contexts[i]].contextId == id {
          return Some(contexts[i]);
        }
        i := i + 1;
      }
      return None;
    }

    method FindChannel(channelId: int) returns (c: Option<ContextRef>)
      requires forall x :: x in contexts ==> x in ctx
      ensures c == Events.FindChannel(contexts, ctx, channelId)
    {
      var i := 0;
      while i < |contexts|
        invariant 0 <= i <= |contexts|
        invariant Events.FindChannel(contexts, ctx, channelId) == Events.FindChannel(contexts[i..], ctx, channelId)
      {
        assert contexts[i..][0] == contexts[i] && contexts[i..][1..] == contexts[i + 1..];
        if ctx[contexts[i]].channelId == channelId {
          return Some(contexts[i]);
        }
        i := i + 1;
      }
      return None;
    }

    // ---------- calls of the QoS framework ----------

    method OpenFlow(f: FlowRef, filter: PacketFilter)
      requires Sane() && Ok(S())
      modifies this`flows, this`ctx, this`upcalls
      ensures Sane() && S() == Events.DoOpenFlow(old(S()), f, filter)
    {
      hide Ok;
      Requests.DeleteReady(S());
      if f in flows {
        return;
      }
      flows := flows[f := Flow(filter, Some(primary))];
      ctx := ctx[primary := ctx[primary].(flows := ctx[primary].flows + [f], refs := ctx[primary].refs + 1)];
      if notifier {
        upcalls := upcalls + [Tell(f, FlowBlocked(ctx[primary]))];
      }
      assert old(upcalls) + [] == old(upcalls);
    }

    /** A Close request for the flow's context, unless that is the default one. */
    method ScheduleCleanup(f: FlowRef)
      requires Sane() && f in flows
      modifies this`pending, this`req, this`nextRequest, this`pendingSequence, this`issued
      ensures Sane() && S() == Events.ScheduleCleanup(old(S()), f)
    {
      var c := flows[f].context;
      if c.Some? && c != Some(primary) {
        AddRequest(FreshRequest(Close, None, c, 0, false));
      }
    }

    method CloseFlow(f: FlowRef)
      requires Sane() && Ok(S())
      modifies this
      ensures Sane() && S() == Events.DoCloseFlow(old(S()), f)
    {
      hide Ok, Events.CancelFlow, Heap.Detach;
      if f !in flows {
        return;
      }
      Requests.AttachedFlow(S(), f);
      Requests.DeleteReady(S());
      ScheduleCleanup(f);
      CancelPendingFlow(f);
      DeleteFlow(f);
    }

    /** CFlowData::~CFlowData */
    method DeleteFlow(f: FlowRef)
      requires f in flows && flows[f].context.Some? && flows[f].context.value in ctx
      modifies this`flows, this`ctx
      ensures S() == Heap.Detach(old(S()), f)
    {
      hide Without;
      var c := flows[f].context.value;
      ctx := ctx[c := ctx[c].(flows := Without(ctx[c].flows, f))];
      FlowDetached(c);
      flows := flows - {f};
    }

    method ReleaseFlow(f: FlowRef)
      requires Sane() && Ok(S()) && Settled(S())
      modifies this
      ensures Sane() && S() == Events.DoReleaseFlow(old(S()), f)
    {
      hide Ok, Settled, Events.CancelFlow, Heap.SetFlowContext;
      if f !in flows {
        return;
      }
      Requests.AttachedFlow(S(), f);
      Requests.DeleteReady(S());
      Runs.CancelFlowOk(S(), f);
      CancelPendingFlow(f);
      ScheduleCleanup(f);
      SetContext(f, primary);
    }

    /** A request that is refused at once. */
    method Refuse(reason: int)
      modifies this`upcalls
      ensures S() == Events.Refuse(old(S()), reason)
    {
      upcalls := upcalls + [Refused(reason)];
    }

    method OpenChannel(channelId: int, f: FlowRef, sblp: bool)
      requires Sane() && Ok(S())
      modifies this
      ensures Sane() && S() == Events.DoOpenChannel(old(S()), channelId, f, sblp)
    {
      hide Ok, Events.FindChannel, Events.Refuse, Heap.AddRequest;
      Requests.DeleteReady(S());
      if channelId <= 0 {
        Refuse(KErrArgument);
        return;
      }
      if f !in flows {
        Refuse(KErrNotFound);
        return;
      }
      var c := FindChannel(channelId);
      if c.Some? {
        Refuse(KErrAlreadyExists);
      } else {
        AddRequest(FreshRequest(Open, Some(f), None, channelId, sblp));
      }
    }

    /** Delete on the network, then here. */
    method RemoveContext(c: ContextRef)
      requires Sane() && Ok(S()) && c in ctx
      modifies this
      ensures Sane() && S() == Events.RemoveContext(old(S()), c)
    {
      hide Ok, Heap.DeletePdpContext, Requests.DeleteOnNetwork;
      Requests.DeleteReady(S());
      Events.RemoveReady(S(), c);
      DeleteOnNetwork(c);
      DeletePdpContext(c);
    }

    method CloseChannel(channelId: int)
      requires Sane() && Ok(S())
      modifies this
      ensures Sane() && S() == Events.DoCloseChannel(old(S()), channelId)
    {
      hide Ok, Events.FindChannel, Events.RemoveContext, Announce;
      Requests.DeleteReady(S());
      if channelId <= 0 {
        return;
      }
      var c := FindChannel(channelId);
      if c.None? {
        return;
      }
      if c.value == primary {
        ctx := ctx[primary := ctx[primary].(channelId := 0)];
        assert upcalls + [] == upcalls;
      } else {
        RemoveContext(c.value);
      }
    }

    method NegotiateChannel(channelId: int, sblp: bool)
      requires Sane() && Ok(S())
      modifies this
      ensures Sane() && S() == Events.DoNegotiateChannel(old(S()), channelId, sblp)
    {
      hide Ok, Events.FindChannel, Events.Refuse, Heap.AddRequest;
      Requests.DeleteReady(S());
      if channelId <= 0 {
        Refuse(KErrArgument);
        return;
      }
      var c := FindChannel(channelId);
      if c.None? {
        Refuse(KErrNotFound);
      } else {
        AddRequest(FreshRequest(Negotiate, None, c, 0, sblp));
      }
    }

    method JoinOrLeave(kind: Kind, channelId: int, f: FlowRef)
      requires Sane() && Ok(S())
      modifies this
      ensures Sane() && S() == Events.DoJoinOrLeave(old(S()), kind, channelId, f)
    {
      hide Ok, Events.FindChannel, Events.Refuse, Heap.AddRequest, FreshRequest;
      Requests.DeleteReady(S());
      var c := FindChannel(channelId);
      assert c == Events.Channel(S(), channelId);
      hide Events.Channel;
      if c.None? || f !in flows {
        Refuse(KErrNotFound);
      } else {
        AddRequest(FreshRequest(kind, Some(f), c, 0, false));
      }
    }

    method NegotiateFlow(f: FlowRef, policy: bool, sblp: bool)
      requires Sane()
      modifies this
      ensures Sane() && S() == Events.DoNegotiateFlow(old(S()), f, policy, sblp)
    {
      hide Events.Refuse, Heap.AddRequest;
      if f !in flows || !policy {
        Refuse(KErrNotFound);
      } else {
        AddRequest(FreshRequest(Open, Some(f), None, 0, sblp));
      }
    }

    method ScheduleDeletion(id: int)
      requires Sane() && Ok(S())
      modifies this
      ensures Sane() && S() == Events.DoScheduleDeletion(old(S()), id)
    {
      hide Ok, Events.FindContext, Heap.AddRequest;
      Requests.DeleteReady(S());
      var c := FindContext(id);
      if c.Some? {
        AddRequest(FreshRequest(Delete, None, c, 0, false));
      }
    }

    /** CFlowData::Send, once the network interface has said whether it takes more. */
    method SendPacket(f: FlowRef, accepted: int)
      requires Sane() && Ok(S())
      modifies this
      ensures Sane() && S() == Events.DoSendPacket(old(S()), f, accepted)
    {
      hide Ok, Heap.Block;
      if f in flows && accepted <= 0 {
        Requests.AttachedFlow(S(), f);
        Block(flows[f].context.value);
      }
    }

    // ---------- events of the network ----------

    method PrimaryContextCreated(status: ContextStatus)
      requires Sane() && Ok(S())
      modifies this
      ensures Sane() && S() == Events.DoPrimaryCreated(old(S()), status)
    {
      hide Ok, Announce;
      Requests.DeleteReady(S());
      SetContextStatus(primary, status);
      ready := true;
      issued := true;
    }

    /** A new context object, its status set, at the end of the list. */
    method NewContext(id: int, status: ContextStatus) returns (c: ContextRef)
      modifies this`contexts, this`ctx, this`nextContext
      ensures S() == Events.NewContextAdded(old(S()), id, status) && c == old(nextContext)
    {
      c := nextContext;
      nextContext := nextContext + 1;
      ctx := ctx[c := PrimaryContext.(contextId := id, status := status)];
      contexts := contexts + [c];
    }

    method SecondaryContextCreated(id: int, status: ContextStatus, reason: int, err: int)
      requires Sane() && Ok(S()) && Settled(S())
      modifies this, marked
      ensures Sane() && S() == Events.DoSecondaryCreated(old(S()), network, id, status, reason, err)
    {
      hide Ok, Waiting, Loops.Run, Heap.Destruct, Events.NewContextAdded, Table;
      if current.Some? {
        var r := current.value;
        ready := true;
        if err == KErrNone {
          FirstReply(r, id, status, reason, old(S()));
          return;
        }
        Events.ReadyOk(old(S()));
        Requests.HeardOk(S(), r, Failed(PendingCreate, err));
        Hear(r, Failed(PendingCreate, err));
        CompleteAndDestruct(r, Err(err));
      }
      var _ := Call(DeleteContext(id));
    }

    /** The context object of an Open is made, and the request resumes on it. */
    method FirstReply(r: RequestRef, id: int, status: ContextStatus, reason: int, ghost before: State)
      requires Ok(before) && Settled(before) && Sane() && S() == before.(ready := true) && current == Some(r)
      modifies this, marked
      ensures Sane() && S() == Events.DoSecondaryCreated(before, network, id, status, reason, KErrNone)
    {
      hide Ok, Waiting, Loops.Run, Table;
      Runs.NotReadyOk(before);
      Events.NewContextOk(S(), id, status);
      var c := NewContext(id, status);
      Run(r, PendingCreate, c, reason);
    }

    method ContextBlockedEvent(id: int, status: ContextStatus)
      requires Sane() && Ok(S())
      modifies this
      ensures Sane() && S() == Events.DoContextBlocked(old(S()), id, status)
    {
      hide Ok, Events.FindContext, Announce;
      Requests.DeleteReady(S());
      var c := FindContext(id);
      if c.Some? {
        SetContextStatus(c.value, status);
        Block(c.value);
      }
    }

    method ContextUnblockedEvent(id: int, status: ContextStatus)
      requires Sane() && Ok(S())
      modifies this
      ensures Sane() && S() == Events.DoContextUnblocked(old(S()), id, status)
    {
      hide Ok, Events.FindContext, Announce;
      Requests.DeleteReady(S());
      var c := FindContext(id);
      if c.Some? {
        SetContextStatus(c.value, status);
        UnBlock(c.value);
      }
    }

    /** CPdpContext::GenerateEvent */
    method GenerateEvent(c: ContextRef, failure: bool, reason: int)
      requires c in ctx
      modifies this`upcalls
      ensures upcalls == old(upcalls) + Events.Notices(notifier, ctx[c], failure, reason)
    {
      if !notifier {
        assert upcalls + [] == upcalls;
        return;
      }
      if ctx[c].channelId != 0 {
        upcalls := upcalls + [NotifyChannel(ctx[c].channelId, failure, reason)];
        return;
      }
      ghost var notices := Events.Notices(notifier, ctx[c], failure, reason);
      var i := 0;
      while i < |ctx[c].flows|
        invariant 0 <= i <= |ctx[c].flows|
        invariant upcalls == old(upcalls) + notices[..i]
      {
        assert notices[..i + 1] == notices[..i] + [notices[i]];
        upcalls := upcalls + [NotifyFlow(ctx[c].flows[i], failure, reason)];
        i := i + 1;
      }
      assert notices[..i] == notices;
    }

    /** The new status and the events, before a deletion. */
    method AnnounceDeletion(c: ContextRef, status: ContextStatus, reason: int)
      requires Sane() && c in ctx
      modifies this`ctx, this`upcalls
      ensures Sane() && S() == Events.Announced(old(S()), c, status, reason)
    {
      hide Announce, Events.Notices;
      SameNotices(notifier, ctx[c], status, true, reason);
      SetContextStatus(c, status);
      GenerateEvent(c, true, reason);
    }

    method ContextDeleteEvent(id: int, status: ContextStatus, reason: int)
      requires Sane() && Ok(S())
      modifies this
      ensures Sane() && S() == Events.DoContextDeleted(old(S()), id, status, reason)
    {
      hide Ok, Events.FindContext, Events.Announced, Heap.DeletePdpContext;
      Requests.DeleteReady(S());
      DeletedIs(S(), id, status, reason);
      var c := FindContext(id);
      if c.Some? {
        AnnounceDeletion(c.value, status, reason);
        DeletePdpContext(c.value);
      }
    }

    /** CPdpContext::Update: the filters and the QoS the network reports, then the status. */
    method Update(c: ContextRef, status: ContextStatus, tft: TftInfo, negotiated: Negotiated)
      requires Sane() && Ok(S()) && c in ctx && tft.Valid()
      modifies this, marked, tft`last
      ensures Sane() && tft.Valid()
      ensures S() == Events.Update(old(S()), c, Events.Report(status, tft.contents, negotiated))
    {
      hide Ok, Marks, Occupied, AsMap, Heap.SetStatus, Events.Reported, Events.FilterLists;
      Requests.DeleteReady(S());
      ghost var report := Events.Report(status, tft.contents, negotiated);
      ReportedIs(S(), c, report);
      var filters := CopyFilters(tft);
      ctx := ctx[c := ctx[c].(filters := filters, negotiated := negotiated)];
      assert ctx.Keys == old(ctx).Keys;
      RecomputeEvaluationPrecedences();
      assert S() == Events.Reported(old(S()), c, report);
      SetContextStatus(c, status);
    }

    method ParametersChangedEvent(id: int, status: ContextStatus, tft: TftInfo, negotiated: Negotiated, reason: int)
      requires Sane() && Ok(S()) && tft.Valid()
      modifies this, marked, tft`last
      ensures Sane()
      ensures S() == Events.DoParametersChanged(old(S()), id, Events.Report(status, tft.contents, negotiated), reason)
    {
      hide Ok, Events.FindContext, Events.Notices, Announce, Marks, Occupied, AsMap;
      Requests.DeleteReady(S());
      var c := FindContext(id);
      if c.Some? {
        UpdateNotices(S(), c.value, Events.Report(status, tft.contents, negotiated), reason);
        Update(c.value, status, tft, negotiated);
        GenerateEvent(c.value, false, reason);
      }
    }

    /** A reply goes to the request being served, if there is one. */
    method Reply(reply: Expected, c: ContextRef, reason: int)
      requires Sane() && Ok(S()) && Settled(S()) && c in ctx
      modifies this, marked
      ensures Sane() && S() == Events.Reply(old(S()), network, reply, c, reason)
    {
      hide Ok, Waiting, Loops.Run;
      if current.Some? {
        Run(current.value, reply, c, reason);
      }
    }

    method QoSSetEvent(id: int, reason: int)
      requires Sane() && Ok(S()) && Settled(S())
      modifies this, marked
      ensures Sane() && S() == Events.DoQoSSet(old(S()), network, id, reason)
    {
      hide Ok, Waiting, Events.FindContext, Events.Reply;
      Requests.DeleteReady(S());
      var c := FindContext(id);
      if c.Some? {
        Reply(PendingSetQoS, c.value, reason);
      }
    }

    method TftModifiedEvent(id: int, operation: TftOperation, reason: int)
      requires Sane() && Ok(S()) && Settled(S())
      modifies this, marked
      ensures Sane() && S() == Events.DoTftModified(old(S()), network, id, operation, reason)
    {
      hide Ok, Waiting, Events.FindContext, Events.Reply;
      Requests.DeleteReady(S());
      var c := FindContext(id);
      if c.Some? {
        var code := PendingAny;
        match operation {
          case AddFilters => code := PendingPacketFilterAdd;
          case RemoveFilters => code := PendingPacketFilterRemove;
          case DeleteTft => code := PendingTFTRemove;
          case AddSblp => code := PendingSblpParameterAdd;
          case RemoveSblp => code := PendingSblpParameterRemove;
          case OtherOperation =>
        }
        Reply(code, c.value, reason);
      }
    }

    /** ActivateReply and ModifyActiveReply */
    method ConfirmedEvent(reply: Expected, id: int, status: ContextStatus, tft: TftInfo, negotiated: Negotiated,
                          reason: int)
      requires Sane() && Ok(S()) && Settled(S()) && tft.Valid()
      modifies this, marked, tft`last
      ensures Sane()
      ensures S() == Events.DoConfirmed(old(S()), network, reply, id, Events.Report(status, tft.contents, negotiated),
              reason)
    {
      hide Ok, Settled, Events.FindContext, Events.Reply, Events.Confirmed;
      Requests.DeleteReady(S());
      ConfirmedIs(S(), network, reply, id, Events.Report(status, tft.contents, negotiated), reason);
      var c := FindContext(id);
      if c.Some? {
        ConfirmAndReply(reply, c.value, status, tft, negotiated, reason);
      }
    }

    method ConfirmAndReply(reply: Expected, c: ContextRef, status: ContextStatus, tft: TftInfo, negotiated: Negotiated,
                           reason: int)
      requires Sane() && Ok(S()) && Settled(S()) && c in ctx && tft.Valid()
      requires Confirmable(S(), c, Events.Report(status, tft.contents, negotiated))
      modifies this, marked, tft`last
      ensures Sane()
      ensures var report := Events.Report(status, tft.contents, negotiated);
              S() == Events.Reply(Events.Confirmed(old(S()), c, report), network, reply, c, reason)
    {
      hide Ok, Settled, Events.Reply, Events.Confirmed;
      Confirm(c, status, tft, negotiated);
      Reply(reply, c, reason);
    }

    /** The report taken over, and an active context unblocked. */
    method Confirm(c: ContextRef, status: ContextStatus, tft: TftInfo, negotiated: Negotiated)
      requires Sane() && Ok(S()) && c in ctx && tft.Valid()
      modifies this, marked, tft`last
      ensures Sane() && S() == Events.Confirmed(old(S()), c, Events.Report(status, tft.contents, negotiated))
    {
      hide Ok, Events.Update, Heap.UnBlock, AsMap, Settled;
      ghost var report := Events.Report(status, tft.contents, negotiated);
      Events.UpdateOk(S(), c, report);
      UpdateStatus(S(), c, report);
      Update(c, status, tft, negotiated);
      if ctx[c].status == StatusActive {
        UnBlock(c);
      }
    }

    // ---------- timers ----------

    method QueueTimer()
      requires Sane() && Ok(S())
      modifies this, marked
      ensures Sane() && S() == Events.DoQueueTimer(old(S()), network)
    {
      hide Ok, Loops.OkAsleep, Loops.RunPending;
      if issued {
        Events.FireOk(S());
        issued := false;
        assert S() == old(S()).(issued := false);
        RunPendingRequests();
      }
    }

    /** CPdpContext::Timeout */
    method ContextTimer(c: ContextRef)
      requires Sane() && Ok(S())
      modifies this
      ensures Sane() && S() == Events.DoContextTimer(old(S()), c)
    {
      hide Ok, Events.RemoveContext, Heap.AddRequest, Announce;
      if c in ctx && ctx[c].expiring {
        Events.ExpiredOk(S(), c);
        assert upcalls + [] == upcalls;
        ctx := ctx[c := ctx[c].(expiring := false)];
        assert S() == Events.Expired(old(S()), c);
        if ctx[c].flows == [] {
          RemoveContext(c);
        } else {
          AddRequest(FreshRequest(Close, None, Some(c), 0, false));
        }
      }
    }

    // ---------- any event ----------

    /** One event of any kind: the object does what the specification says, and stays valid. */
    method Handle(e: Events.Event, tft: TftInfo)
      requires Valid() && tft.Valid()
      requires e.ParametersChanged? || e.Activated? || e.ModifiedActive? ==> e.report.tft == tft.contents
      modifies this, marked, tft`last
      ensures Events.WellFormed(e)
      ensures Valid() && S() == Events.Step(old(S()), network, e)
    {
      hide Ok, Settled, Runs.Sound, Events.Step;
      Runs.StepSound(S(), network, e);
      Theorems.SettledAfterReplies(S(), Events.Step(S(), network, e), Runs.Replies(S(), e));
      if IsCall(e) {
        HandleCall(e);
      } else {
        HandleEvent(e, tft);
      }
    }

    method HandleCall(e: Events.Event)
      requires Sane() && Ok(S()) && Settled(S()) && IsCall(e) && Events.WellFormed(e)
      modifies this
      ensures Sane() && S() == Events.Step(old(S()), network, e)
    {
      hide Ok, Settled,
        Events.DoOpenFlow, Events.DoCloseFlow, Events.DoReleaseFlow, Events.DoOpenChannel, Events.DoCloseChannel,
        Events.DoNegotiateChannel, Events.DoJoinOrLeave, Events.DoNegotiateFlow, Events.DoScheduleDeletion,
          Events.DoSendPacket;
      match e {
        case OpenFlow(f, filter) => OpenFlow(f, filter);
        case CloseFlow(f) => CloseFlow(f);
        case ReleaseFlow(f) => ReleaseFlow(f);
        case OpenChannel(channelId, f, sblp) => OpenChannel(channelId, f, sblp);
        case CloseChannel(channelId) => CloseChannel(channelId);
        case NegotiateChannel(channelId, sblp) => NegotiateChannel(channelId, sblp);
        case JoinChannel(channelId, f) => JoinOrLeave(Join, channelId, f);
        case LeaveChannel(channelId, f) => JoinOrLeave(Leave, channelId, f);
        case NegotiateFlow(f, policy, sblp) => NegotiateFlow(f, policy, sblp);
        case ScheduleDeletion(id) => ScheduleDeletion(id);
        case SendPacket(f, accepted) => SendPacket(f, accepted);
      }
    }

    /** Events of the network and timers. */
    method HandleEvent(e: Events.Event, tft: TftInfo)
      requires Sane() && Ok(S()) && Settled(S()) && !IsCall(e) && Events.WellFormed(e) && tft.Valid()
      requires e.ParametersChanged? || e.Activated? || e.ModifiedActive? ==> e.report.tft == tft.contents
      modifies this, marked, tft`last
      ensures Sane() && S() == Events.Step(old(S()), network, e)
    {
      hide Ok, Settled,
        Events.DoPrimaryCreated, Events.DoSecondaryCreated, Events.DoQueueTimer, Events.DoContextTimer,
          Events.DoContextBlocked,
        Events.DoContextUnblocked, Events.DoContextDeleted, Events.DoParametersChanged, Events.DoQoSSet,
          Events.DoTftModified,
        Events.DoConfirmed;
      match e {
        case PrimaryCreated(status) => PrimaryContextCreated(status);
        case SecondaryCreated(id, status, reason, err) => SecondaryContextCreated(id, status, reason, err);
        case ContextBlocked(id, status) => ContextBlockedEvent(id, status);
        case ContextUnblocked(id, status) => ContextUnblockedEvent(id, status);
        case ContextDeleted(id, status, reason) => ContextDeleteEvent(id, status, reason);
        case ParametersChanged(id, report, reason) => ParametersChangedEvent(id, report.status, tft, report.negotiated,
          reason);
        case QoSSet(id, reason) => QoSSetEvent(id, reason);
        case TftModified(id, operation, reason) => TftModifiedEvent(id, operation, reason);
        case Activated(id, report, reason) => ConfirmedEvent(PendingActivate, id, report.status, tft, report.negotiated,
          reason);
        case ModifiedActive(id, report, reason) => ConfirmedEvent(PendingModifyActive, id, report.status, tft,
          report.negotiated, reason);
        case QueueTimer => QueueTimer();
        case ContextTimer(c) => ContextTimer(c);
      }
    }

    // ---------- destruction ----------

    /** The destructor empties the queue; no new request is started, because none is current. */
    method CompleteQueue()
      requires Sane() && forall r :: r in pending <==> r in req
      modifies this`pending, this`req, this`current, this`pendingSequence, this`issued, this`upcalls, this`log
      ensures Sane() && S() == Theorems.CompleteAll(old(S()))
    {
      hide Theorems.CompleteAll, Heap.Destruct;
      while pending != []
        invariant Sane() && forall r :: r in pending <==> r in req
        invariant Theorems.CompleteAll(S()) == Theorems.CompleteAll(old(S()))
        decreases |pending|
      {
        CompleteStep(S());
        CompleteAndDestruct(pending[0], Err(KErrDied));
      }
      CompleteDone(S());
    }

    /** The flows of a context are deleted with it, first to last. */
    method DeleteFlows(c: ContextRef)
      requires c in ctx
      modifies this`ctx, this`flows
      ensures ctx.Keys == old(ctx).Keys && forall x :: x in ctx && x != c ==> ctx[x] == old(ctx)[x]
      ensures flows == old(flows) - (set f | f in old(flows) && f in old(ctx)[c].flows)
    {
      ghost var list := ctx[c].flows;
      ghost var k := 0;
      while ctx[c].flows != []
        invariant 0 <= k <= |list|
        invariant ctx.Keys == old(ctx).Keys && forall x :: x in ctx && x != c ==> ctx[x] == old(ctx)[x]
        invariant ctx[c].flows == list[k..]
        invariant forall f :: f in flows <==> f in old(flows) && f !in list[..k]
        invariant forall f :: f in flows ==> flows[f] == old(flows)[f]
        decreases |list| - k
      {
        var f := ctx[c].flows[0];
        assert list[..k + 1] == list[..k] + [f];
        ctx := ctx[c := ctx[c].(flows := ctx[c].flows[1..])];
        FlowDetached(c);
        flows := flows - {f};
        k := k + 1;
      }
      assert list[..k] == list;
    }

    /** And then it deletes the contexts, first to last. */
    method DropContexts()
      requires NoDup(contexts) && forall c :: c in contexts <==> c in ctx
      modifies this`contexts, this`ctx, this`flows, this`controls
      ensures S() == Theorems.DropAll(old(S()))
    {
      hide NoDup, Theorems.DropAll, Theorems.DropFirst;
      while contexts != []
        invariant NoDup(contexts) && forall c :: c in contexts <==> c in ctx
        invariant Theorems.DropAll(S()) == Theorems.DropAll(old(S()))
        decreases |contexts|
      {
        DropStep(S());
        DropFirstContext();
      }
      DropDone(S());
    }

    method DropFirstContext()
      requires contexts != [] && contexts[0] in ctx
      modifies this`contexts, this`ctx, this`flows, this`controls
      ensures S() == Theorems.DropFirst(old(S()))
    {
      var c := contexts[0];
      contexts := contexts[1..];
      DeleteOnNetwork(c);
      DeleteFlows(c);
      ctx := ctx - {c};
      assert ctx == old(ctx) - {c};
    }

    /** CNif::~CNif */
    method Destroy()
      requires Sane() && Ok(S())
      modifies this
      ensures S() == Theorems.Teardown(old(S()))
    {
      hide Ok, ExactlyOnce, Theorems.CompleteAll, Theorems.DropAll, NoDup;
      Theorems.TeardownReady(S());
      current := None;
      assert S() == old(S()).(current := None);
      CompleteQueue();
      issued := false;
      DropContexts();
    }
  }

  lemma CompleteStep(s: State)
    requires s.pending != [] && forall r :: r in s.pending <==> r in s.req
    ensures var t := Heap.Destruct(s, s.pending[0], Err(KErrDied));
            && (forall r :: r in t.pending <==> r in t.req)
            && |t.pending| < |s.pending|
            && Theorems.CompleteAll(s) == Theorems.CompleteAll(t)
  {
  }

  lemma CompleteDone(s: State)
    requires s.pending == []
    ensures Theorems.CompleteAll(s) == s
  {
  }

  lemma DropDone(s: State)
    requires s.contexts == []
    ensures Theorems.DropAll(s) == s
  {
  }

  lemma DropStep(s: State)
    requires s.contexts != [] && NoDup(s.contexts) && forall c :: c in s.contexts <==> c in s.ctx
    ensures s.contexts[0] in s.ctx && |Theorems.DropFirst(s).contexts| < |s.contexts|
    ensures Theorems.DropAll(s) == Theorems.DropAll(Theorems.DropFirst(s))
    ensures NoDup(Theorems.DropFirst(s).contexts)
    ensures forall c :: c in Theorems.DropFirst(s).contexts <==> c in Theorems.DropFirst(s).ctx
  {
    Theorems.DropFirstShape(s);
  }

  /** Calls of the QoS framework, as opposed to events and timers. */
  predicate IsCall(e: Events.Event) {
    || e.OpenFlow? || e.CloseFlow? || e.ReleaseFlow? || e.OpenChannel? || e.CloseChannel? || e.NegotiateChannel?
    || e.JoinChannel? || e.LeaveChannel? || e.NegotiateFlow? || e.ScheduleDeletion? || e.SendPacket?
  }

  lemma SameNotices(installed: bool, x: Context, status: ContextStatus, failure: bool, reason: int)
    ensures Events.Notices(installed, x.(status := status), failure, reason)
            == Events.Notices(installed, x, failure, reason)
  {
  }

  lemma ReportedIs(s: State, c: ContextRef, report: Events.Report)
    requires Ok(s) && c in s.ctx && forall x :: x in s.contexts ==> x in s.ctx
    ensures var after := s.ctx[c := s.ctx[c].(filters := Occupied(report.tft), negotiated := report.negotiated)];
            && Events.Reported(s, c, report) == s.(ctx := after, marked := Marks(Events.FilterLists(s.contexts, after)))
            && c in Events.Reported(s, c, report).ctx
  {
    hide Ok, Occupied, Marks;
  }

  lemma UpdateNotices(s: State, c: ContextRef, report: Events.Report, reason: int)
    requires Ok(s) && c in s.ctx
    ensures c in Events.Update(s, c, report).ctx
    ensures Events.Update(s, c, report).notifier == s.notifier
    ensures Events.Notices(s.notifier, Events.Update(s, c, report).ctx[c], false, reason)
            == Events.Notices(s.notifier, s.ctx[c], false, reason)
  {
    hide Ok;
  }

  lemma DeletedIs(s: State, id: int, status: ContextStatus, reason: int)
    requires Ok(s)
    ensures var c := Events.ContextOf(s, id);
            var t := Events.DoContextDeleted(s, id, status, reason);
            && (c.None? ==> t == s)
            && (c.Some? ==>
                  var m := Events.Announced(s, c.value, status, reason);
                  && Ok(m) && c.value in m.ctx && m.primary in m.ctx
                  && (forall x :: x in m.contexts <==> x in m.ctx) && (forall x :: x in m.pending <==> x in m.req)
                  && t == Heap.DeletePdpContext(m, c.value))
  {
    hide Ok, Settled, Events.Announced, Events.FindContext, Heap.FiltersKept, Heap.DeletePdpContext;
    var c := Events.ContextOf(s, id);
    if c.Some? {
      Events.DeletedReady(s, c.value, status, reason);
    }
  }

  /** The report may be taken over, and a reply delivered after it. */
  ghost predicate Confirmable(s: State, c: ContextRef, report: Events.Report)
    requires Ok(s) && c in s.ctx
  {
    var t := Events.Confirmed(s, c, report);
    Ok(t) && Settled(t) && c in t.ctx
  }

  lemma ConfirmedIs(s: State, nif: Network, reply: Expected, id: int, report: Events.Report, reason: int)
    requires Ok(s) && Settled(s) && ValidSlots(report.tft)
    ensures var c := Events.ContextOf(s, id);
            var t := Events.DoConfirmed(s, nif, reply, id, report, reason);
            && (c.None? ==> t == s)
            && (c.Some? ==>
                  && Confirmable(s, c.value, report)
                  && t == Events.Reply(Events.Confirmed(s, c.value, report), nif, reply, c.value, reason))
  {
    hide Ok, Settled, Events.Reply, Events.Confirmed, Events.FindContext, Heap.FiltersKept, Events.Reported;
    var c := Events.ContextOf(s, id);
    if c.Some? {
      Events.ConfirmedOk(s, c.value, report);
    }
  }

  lemma UpdateStatus(s: State, c: ContextRef, report: Events.Report)
    requires Ok(s) && c in s.ctx
    ensures c in Events.Update(s, c, report).ctx && Events.Update(s, c, report).ctx[c].status == report.status
  {
    hide Ok;
  }

  lemma RunCases(s: State, nif: Network, r: RequestRef, reply: Expected, c: ContextRef, reason: int)
    requires Ok(s) && s.current == Some(r) && r in s.req && Waiting(s.req[r]) && c in s.ctx
    requires var m := Requests.SetRequest(s, r, s.req[r].(context := Some(c))); Ok(m) && r in m.req && c in m.ctx
    requires Ok(Loops.Resumed(s, r, c, reply)) && Requests.Acting(Loops.Resumed(s, r, c, reply), r)
    ensures var m := Requests.SetRequest(s, r, s.req[r].(context := Some(c)));
            var t := Loops.Run(s, nif, r, reply, c, reason);
            if s.req[r].expected != reply && s.req[r].expected != PendingAny then
              t == Heap.Destruct(Requests.Heard(m, r, Strange(reply)), r, Err(KErrCancel))
            else if reason == KErrNone then t == Loops.RunActions(Loops.Resumed(s, r, c, reply), nif, r)
            else
              var h := Requests.Heard(m, r, Failed(reply, reason));
              Ok(h) && c in h.ctx && t == Requests.Fail(h, r, Some(c), reason)
  {
    hide Ok, Waiting, Loops.RunActions, Requests.Fail, Heap.Destruct, Table, Loops.Resumed;
    Requests.HeardOk(Requests.SetRequest(s, r, s.req[r].(context := Some(c))), r, Failed(reply, reason));
  }

  lemma ResumedAgain(s: State, r: RequestRef, c: ContextRef, reply: Expected)
    requires r in s.req
    ensures var m := Requests.SetRequest(s, r, s.req[r].(context := Some(c)));
            var h := Requests.Heard(m, r, Answered(reply));
            Requests.SetRequest(h, r, h.req[r].(expected := PendingAny, state := h.req[r].state + 1))
              == Loops.Resumed(s, r, c, reply)
  {
  }

  lemma StaysReady(s: State, nif: Network, r: RequestRef)
    requires Ok(s) && s.current == Some(r) && r in s.req && Idle(s.req[r])
    ensures Loops.Start(s, nif, r).ready == s.ready
  {
    hide Ok, Loops.Start, Idle, Waiting;
    Loops.StartOk(s, nif, r);
  }

  lemma IdentifiedReserved(s: State, r: RequestRef, c: ContextRef, f: FlowRef)
    requires r in s.req && c in s.ctx && f in s.flows
    ensures var t := Identified(s, c, f);
            t.(req := s.req[r := s.req[r].(added := Some((c, t.flows[f].filter)))]) == Requests.Reserved(s, r, c, f)
  {
  }

  /** The filter of flow `f` with the identity that AddPacketFilter gives it. */
  function Identified(s: State, c: ContextRef, f: FlowRef): State
    requires c in s.ctx && f in s.flows
  {
    var p := FreePrecedence(s.marked);
    s.(marked := Reserve(s.marked, p),
       flows := s.flows[f := s.flows[f].(filter := s.flows[f].filter.(id := FreeId(s.ctx[c].filters),
         precedence := p))])
  }

  lemma NewId(filters: seq<PacketFilter>, attached: seq<PacketFilter>, isPrimary: bool, j: nat)
    requires DistinctIds(filters) && j < |filters|
    ensures var before := UnneededUpTo(filters, attached, isPrimary, j);
            forall i :: 0 <= i < |before| ==> before[i].id != filters[j].id
  {
    var before := UnneededUpTo(filters, attached, isPrimary, j);
    forall i | 0 <= i < |before| ensures before[i].id != filters[j].id {
      assert before[i] in before;
    }
  }

  lemma NoneNeeded(list: seq<FlowRef>, flows: map<FlowRef, Flow>, except: Option<FlowRef>, filters: seq<PacketFilter>)
    requires forall f :: f in list ==> f in flows
    ensures forall j :: !Needed(filters, Requests.OwnFilters(list[..0], flows, except), j)
  {
  }

  lemma PackedEmpty()
    ensures Packed(EmptySlots, [])
  {
  }

  lemma {:induction false} OwnFiltersNext(list: seq<FlowRef>, flows: map<FlowRef, Flow>, except: Option<FlowRef>,
                                          k: nat)
    requires forall f :: f in list ==> f in flows
    requires k < |list|
    ensures Requests.OwnFilters(list[..k + 1], flows, except) ==
            Requests.OwnFilters(list[..k], flows, except) + (if except == Some(list[k]) then []
              else [flows[list[k]].filter])
  {
    if k > 0 {
      OwnFiltersNext(list[1..], flows, except, k - 1);
      assert list[..k + 1][1..] == list[1..][..k];
      assert list[..k][1..] == list[1..][..k - 1];
    } else {
      assert list[..1][1..] == [];
    }
  }

  lemma NeededNext(filters: seq<PacketFilter>, attached: seq<PacketFilter>, f: PacketFilter)
    ensures forall j ::
              Needed(filters, attached + [f], j) <==> Needed(filters, attached, j) || LastMatch(f, filters) == j
  {
    forall j
      ensures Needed(filters, attached + [f], j) <==> Needed(filters, attached, j) || LastMatch(f, filters) == j
    {
      if Needed(filters, attached, j) {
        var k :| 0 <= k < |attached| && LastMatch(attached[k], filters) == j;
        assert (attached + [f])[k] == attached[k];
      }
      if LastMatch(f, filters) == j {
        assert (attached + [f])[|attached|] == f;
      }
    }
  }

  lemma UsesIdStep(filters: seq<PacketFilter>, b: int)
    requires filters != []
    ensures UsesId(filters, b) <==> filters[0].id == b || UsesId(filters[1..], b)
  {
    if UsesId(filters, b) && filters[0].id != b {
      var i :| 0 <= i < |filters| && filters[i].id == b;
      assert filters[1..][i - 1].id == b;
    }
    if UsesId(filters[1..], b) {
      var i :| 0 <= i < |filters[1..]| && filters[1..][i].id == b;
      assert filters[i + 1].id == b;
    }
  }

  /** Precedence `p` occurs in the first `i` lists or in the first `j` entries of the next one. */
  ghost predicate UsesWithin(lists: seq<seq<PacketFilter>>, i: nat, j: nat, p: int) {
    exists x, y :: 0 <= x < |lists| && 0 <= y < |lists[x]| && (x < i || (x == i && y < j))
      && lists[x][y].precedence == p
  }

  lemma PartMovedShape(s: State, c: ContextRef, d: ContextRef, k: nat)
    requires c in s.ctx && d in s.ctx && c != d && k <= |s.ctx[c].flows|
    ensures var t := PartMoved(s, c, d, k);
            c in t.ctx && d in t.ctx && t.ctx[c].flows == s.ctx[c].flows[k..]
  {
  }

  lemma MovedQueue(s: State, c: ContextRef, d: ContextRef)
    requires c in s.ctx && d in s.ctx && c != d
    ensures var t := Heap.MoveFlows(s, c, d);
            t.pending == s.pending && t.req == s.req && t.contexts == s.contexts && t.primary == s.primary
  {
  }

  function LetGo(q: Request, f: FlowRef): Request {
    if q.flow == Some(f) then q.(flow := None) else q
  }

  lemma LetGoAll(s: State, after: map<RequestRef, Request>, f: FlowRef)
    requires after.Keys == s.req.Keys
    requires forall x :: x in s.req ==> after[x] == LetGo(s.req[x], f)
    ensures Events.CancelFlow(s, f) == s.(req := after)
  {
    assert Events.CancelFlow(s, f).req == after;
  }

  lemma {:induction false} FirstTargetAt(pending: seq<RequestRef>, req: map<RequestRef, Request>, c: ContextRef, i: nat)
    requires forall x :: x in pending ==> x in req
    requires i < |pending| && forall k :: 0 <= k < i ==> !Targets(req[pending[k]], c)
    ensures Targets(req[pending[i]], c) ==> Heap.FirstTarget(pending, req, c) == Some(pending[i])
  {
    if i > 0 {
      FirstTargetAt(pending[1..], req, c, i - 1);
    }
  }

  lemma CancelOne(s: State, c: ContextRef)
    requires forall x :: x in s.pending <==> x in s.req
    requires Heap.FirstTarget(s.pending, s.req, c).Some?
    ensures var r := Heap.FirstTarget(s.pending, s.req, c).value;
            var t := Heap.Destruct(s, r, FailureCode(s.req[r].kind, KErrDied));
            && (forall x :: x in t.pending <==> x in t.req)
            && |t.pending| < |s.pending|
            && Heap.CancelPending(t, c) == Heap.CancelPending(s, c)
  {
  }

  lemma CancelNone(s: State, c: ContextRef)
    requires forall x :: x in s.pending ==> x in s.req
    requires Heap.FirstTarget(s.pending, s.req, c).None?
    ensures Heap.CancelPending(s, c) == s
  {
  }

  lemma NoTargets(pending: seq<RequestRef>, req: map<RequestRef, Request>, c: ContextRef)
    requires forall x :: x in pending ==> x in req
    requires forall k :: 0 <= k < |pending| ==> !Targets(req[pending[k]], c)
    ensures Heap.FirstTarget(pending, req, c).None?
  {
  }
}
