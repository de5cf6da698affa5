/**
 What the flows are told when the network blocks, unblocks or confirms a context, or does
 not take a packet: stated by the upcalls and by what the network has said, not by the
 blocking state that the model keeps.
*/
module GuqosBlocking {
  import opened Wrappers
  import opened Sequences
  import opened PacketFilters
  import opened Tft
  import opened GuqosState
  import opened GuqosHeap
  import opened GuqosRequests
  import opened GuqosSteps
  import opened GuqosLoops
  import opened GuqosEvents
  import opened GuqosRuns
  import opened GuqosTheorems
  import opened GuqosStory
  import opened GuqosCodes

  /** Every flow in the list of `c` was last told to stop, or to go on. */
  ghost predicate AllTold(s: State, upcalls: seq<Upcall>, c: ContextRef, stop: bool)
    requires c in s.ctx
  {
    forall f :: f in s.ctx[c].flows ==> LastTold(upcalls, f) == Some(stop)
  }

  /** The upcalls added from `before` on are about flows of `c` and say the same thing. */
  ghost predicate OnlyTold(s: State, before: seq<Upcall>, after: seq<Upcall>, c: ContextRef)
    requires c in s.ctx
  {
    && before <= after
    && forall i :: |before| <= i < |after| ==>
         (after[i].BlockFlow? || after[i].UnBlockFlow?) && after[i].flow in s.ctx[c].flows
  }

  /** The link and the mirror, for the flows of one context. */
  lemma ListedTold(s: State, c: ContextRef)
    requires Ok(s) && s.notifier && c in s.ctx
    ensures forall f :: f in s.ctx[c].flows ==> LastTold(s.upcalls, f) == Some(FlowBlocked(s.ctx[c]))
  {
    hide LastTold, NoDup, ExactlyOnce, DistinctIds, Queued, NoDangling;
  }

  lemma {:induction false} AnnounceFlows(flows: seq<FlowRef>, blocked: bool)
    ensures forall i :: 0 <= i < |Announce(flows, blocked)| ==>
              Announce(flows, blocked)[i] == Tell(flows[i], blocked) && Announce(flows, blocked)[i].flow in flows
  {
    if flows != [] {
      AnnounceFlows(flows[..|flows| - 1], blocked);
    }
  }

  /** A new record for `c`: its flows know its state afterwards, and nobody else is told anything. */
  lemma TouchTold(s: State, c: ContextRef, x: Context)
    requires Ok(s) && s.notifier && c in s.ctx && x.flows == s.ctx[c].flows
    ensures var t := Touch(s, c, x); AllTold(s, t.upcalls, c, FlowBlocked(x)) && OnlyTold(s, s.upcalls, t.upcalls, c)
  {
    hide Ok, LastTold, Announce;
    ListedTold(s, c);
    TraceAnnounce(s.upcalls, x.flows, FlowBlocked(x));
    AnnounceFlows(x.flows, FlowBlocked(x));
    assert s.upcalls + [] == s.upcalls;
  }

  lemma TouchFields(s: State, c: ContextRef, x: Context)
    requires c in s.ctx
    ensures var t := Touch(s, c, x); t == s.(ctx := s.ctx[c := x], upcalls := t.upcalls) && s.upcalls <= t.upcalls
  {
    hide Announce;
  }

  /** Two changes in a row. */
  lemma OnlyToldThen(s: State, a: seq<Upcall>, b: seq<Upcall>, d: seq<Upcall>, c: ContextRef)
    requires c in s.ctx && OnlyTold(s, a, b, c) && OnlyTold(s, b, d, c)
    ensures OnlyTold(s, a, d, c)
  {
  }

  lemma StatusThenBlocked(s: State, c: ContextRef, status: ContextStatus, blocked: bool)
    requires Ok(s) && s.notifier && c in s.ctx
    ensures var m := SetStatus(s, c, status);
            && c in m.ctx
            && var t := if blocked then Block(m, c) else UnBlock(m, c);
               AllTold(s, t.upcalls, c, blocked || status != StatusActive) && OnlyTold(s, s.upcalls, t.upcalls, c)
  {
    hide Ok, Touch, AllTold, OnlyTold;
    OkAt(s, c);
    var x := s.ctx[c].(status := status);
    TouchOk(s, c, x);
    TouchTold(s, c, x);
    TouchFields(s, c, x);
    var m := Touch(s, c, x);
    TouchTold(m, c, x.(blocked := blocked));
    TouchFields(m, c, x.(blocked := blocked));
    SameList(s, m, c);
    OnlyToldThen(s, s.upcalls, m.upcalls, Touch(m, c, x.(blocked := blocked)).upcalls, c);
  }

  lemma SameList(s: State, m: State, c: ContextRef)
    requires c in s.ctx && c in m.ctx && m.ctx[c].flows == s.ctx[c].flows
    ensures forall a, stop :: AllTold(m, a, c, stop) ==> AllTold(s, a, c, stop)
    ensures forall a, b :: OnlyTold(m, a, b, c) ==> OnlyTold(s, a, b, c)
  {
  }

  // ---------- events ----------

  /**
   In every state that a run reaches. A blocking event stops every flow of the context it
   names. An unblocking event lets them go on exactly if the network reports the context
   as active. A packet that is not taken stops every flow of the context that it was
   sent on. Flows of other contexts are told nothing.
  */
  lemma BlockingIsTold(nif: Network, es: seq<Event>, e: Event)
    requires AllWellFormed(es) && WellFormed(e)
    requires e.ContextBlocked? || e.ContextUnblocked? || e.SendPacket?
    ensures var s := Reached(true, nif, es); Ok(s) && Settled(s) && Tells(s, Step(s, nif, e), e)
  {
    hide Ok, Settled, ContextOf, Touch, AllTold, OnlyTold;
    ReachedOk(true, nif, es);
    var s := Reached(true, nif, es);
    match e
    case ContextBlocked(id, status) =>
      if ContextOf(s, id).Some? {
        StatusThenBlocked(s, ContextOf(s, id).value, status, true);
      }
    case ContextUnblocked(id, status) =>
      if ContextOf(s, id).Some? {
        StatusThenBlocked(s, ContextOf(s, id).value, status, false);
      }
    case SendPacket(f, accepted) =>
      if f in s.flows {
        AttachedFlow(s, f);
        var c := s.flows[f].context.value;
        TouchTold(s, c, s.ctx[c].(blocked := true));
      }
  }

  ghost predicate Tells(s: State, t: State, e: Event)
    requires Ok(s)
  {
    match e
    case ContextBlocked(id, status) =>
      if ContextOf(s, id).None? then t.upcalls == s.upcalls
      else
        var c := ContextOf(s, id).value; AllTold(s, t.upcalls, c, true) && OnlyTold(s, s.upcalls, t.upcalls, c)
    case ContextUnblocked(id, status) =>
      if ContextOf(s, id).None? then t.upcalls == s.upcalls
      else
        var c := ContextOf(s, id).value;
        AllTold(s, t.upcalls, c, status != StatusActive) && OnlyTold(s, s.upcalls, t.upcalls, c)
    case SendPacket(f, accepted) =>
      if f !in s.flows || accepted > 0 then t.upcalls == s.upcalls
      else
        s.flows[f].context.Some? && s.flows[f].context.value in s.ctx
        && var c := s.flows[f].context.value; AllTold(s, t.upcalls, c, true) && OnlyTold(s, s.upcalls, t.upcalls, c)
    case _ => true
  }

  /**
   In the course of a confirmed activation or modification, before the request being served
   hears of it, every flow of the context is told to go on exactly if the network reports
   the context as active.
  */
  lemma ConfirmationIsTold(nif: Network, es: seq<Event>, e: Event)
    requires AllWellFormed(es) && WellFormed(e) && (e.Activated? || e.ModifiedActive?)
    ensures var s := Reached(true, nif, es);
            && Ok(s) && Settled(s)
            && (ContextOf(s, e.contextId).Some? ==>
                  ToldSoon(s, Step(s, nif, e), ContextOf(s, e.contextId).value, e.report.status != StatusActive))
  {
    hide Ok, Settled, ContextOf, Confirmed, Reply, Informed, ToldBy;
    ReachedOk(true, nif, es);
    InitialOk(true);
    InitiallyInformed(true);
    AfterInformed(Initial(true), nif, es);
    var s := Reached(true, nif, es);
    if ContextOf(s, e.contextId).Some? {
      var c := ContextOf(s, e.contextId).value;
      ConfirmedOk(s, c, e.report);
      ConfirmedTold(s, c, e.report);
      ReportedQuietly(s, c, e.report);
      var m := Confirmed(s, c, e.report);
      QuietInformed(s, m) by {
        OkAtQueue(s);
      }
      ReplyInformed(m, nif, if e.Activated? then PendingActivate else PendingModifyActive, c, e.reason);
      ToldAlready(s, m.upcalls, Step(s, nif, e).upcalls, c, e.report.status != StatusActive);
    }
  }

  /** By the `k`-th upcall every flow of `c` has been told, and nothing else has been said since `s`. */
  ghost predicate ToldBy(s: State, upcalls: seq<Upcall>, k: nat, c: ContextRef, stop: bool)
    requires c in s.ctx
  {
    k <= |upcalls| && AllTold(s, upcalls[..k], c, stop) && OnlyTold(s, s.upcalls, upcalls[..k], c)
  }

  ghost predicate ToldSoon(s: State, t: State, c: ContextRef, stop: bool)
    requires c in s.ctx
  {
    exists k: nat :: ToldBy(s, t.upcalls, k, c, stop)
  }

  lemma ToldAlready(s: State, upcalls: seq<Upcall>, more: seq<Upcall>, c: ContextRef, stop: bool)
    requires c in s.ctx && upcalls <= more && AllTold(s, upcalls, c, stop) && OnlyTold(s, s.upcalls, upcalls, c)
    ensures ToldBy(s, more, |upcalls|, c, stop)
  {
    assert more[..|upcalls|] == upcalls;
  }

  lemma InitiallyInformed(notifier: bool)
    ensures Informed(Initial(notifier))
  {
  }

  lemma ConfirmedTold(s: State, c: ContextRef, report: Report)
    requires Ok(s) && s.notifier && c in s.ctx && ValidSlots(report.tft)
    ensures var t := Confirmed(s, c, report);
            AllTold(s, t.upcalls, c, report.status != StatusActive) && OnlyTold(s, s.upcalls, t.upcalls, c)
  {
    hide Ok, Touch, AllTold, OnlyTold, Occupied, Marks;
    ReportedOk(s, c, report);
    var m := Reported(s, c, report);
    SameList(s, m, c);
    if report.status == StatusActive {
      StatusThenBlocked(m, c, report.status, false);
    } else {
      OkAt(m, c);
      TouchTold(m, c, m.ctx[c].(status := report.status));
      NotActiveBlocks(m.ctx[c], report.status);
    }
  }

  lemma NotActiveBlocks(x: Context, status: ContextStatus)
    requires status != StatusActive
    ensures FlowBlocked(x.(status := status))
  {
  }
}
