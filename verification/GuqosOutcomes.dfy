/**
 Where flows and contexts are when requests are done with them: a Leave leaves its flow on
 the default context, a Join puts it on the channel, an Open on the context it has made, and
 a failed Open leaves no context behind.
*/
module GuqosOutcomes {
  import opened Wrappers
  import opened Sequences
  import opened PacketFilters
  import opened Tft
  import opened GuqosState
  import opened GuqosHeap
  import opened GuqosRequests
  import opened GuqosSteps
  import opened GuqosLoops
  import opened GuqosEvents
  import opened GuqosRuns
  import opened GuqosTheorems
  import opened GuqosStory
  import opened GuqosCodes
  import opened GuqosCalls
  import opened GuqosReplies

  // ---------- what the tables are about ----------

  /** What the actions of a kind of request are about, in order. */
  function Agenda(kind: Kind): (r: seq<Matter>)
    ensures |r| == |Table(kind)|
  {
    seq(|Table(kind)|, i requires 0 <= i < |Table(kind)| => Topic(Table(kind)[i]))
  }

  /**
   What each kind of request may ask for, and in which order: filters are taken away before a
   commitment, and a Join takes filters away from the channel it has joined, too.
  */
  lemma Agendas()
    ensures Agenda(Leave) == [Removal, Commitment, Nothing] && Agenda(Close) == [Removal, Commitment, Nothing]
    ensures Agenda(Negotiate) == [Token, Quality, Commitment, Nothing]
    ensures Agenda(Join) == [Removal, Commitment, Nothing, Addition, Nothing, Removal, Commitment, Nothing]
    ensures Agenda(Open) == [Removal, Commitment, Creation, Nothing, Addition, Token, Quality, Commitment, Nothing,
                             Nothing]
  {
  }

  // ---------- where the flow ends up ----------

  /** Flow `f` is on context `c`. */
  ghost predicate On(s: State, f: FlowRef, c: ContextRef) {
    f in s.flows && s.flows[f].context == Some(c)
  }

  /** Asking the network, failing and completing move no flow of a request that is no Open. */
  lemma AskKeepsFlows(s: State, nif: Network, r: RequestRef, op: Control, expected: Expected,
                      onFailure: Option<ContextRef>)
    requires Ok(s) && s.current == Some(r) && r in s.req && (onFailure.Some? ==> onFailure.value in s.ctx)
    requires s.req[r].kind != Open
    ensures Ask(s, nif, r, op, expected, onFailure).flows == s.flows
  {
    hide Ok, Without;
    AskedOk(s, r, op, expected);
    HeardOk(Asked(s, r, op, expected), r, Denied(op, nif(Asked(s, r, op, expected).controls)));
  }

  lemma RehomeNone(s: State, r: RequestRef, c: ContextRef)
    requires Ok(s) && r in s.req && c in s.ctx
    ensures s.req[r].flow.None? ==> Rehome(s, r, c) == s
    ensures s.req[r].flow.Some? ==> On(Rehome(s, r, c), s.req[r].flow.value, c)
  {
    hide Ok;
    if s.req[r].flow.Some? {
      RequestParts(s, r);
      AttachedFlow(s, s.req[r].flow.value);
      MovesOne(s, s.req[r].flow.value, c);
    }
  }

  lemma RemovalKeepsFlows(s: State, nif: Network, r: RequestRef)
    requires Ok(s) && Acting(s, r) && s.req[r].kind != Open && s.req[r].flow.None?
    ensures ActRemovePacketFilter(s, nif, r).0.flows == s.flows
    ensures !ActRemovePacketFilter(s, nif, r).1 ==> ActRemovePacketFilter(s, nif, r).0 == s
  {
    hide Ok, Ask, Rehome, Table, UnneededFilters;
    DeleteReady(s);
    if s.req[r].context.Some? {
      var c := s.req[r].context.value;
      RehomeNone(s, r, s.primary);
      AskKeepsFlows(s, nif, r, ModifyTft(s.ctx[c].contextId, RemoveFilters, UnneededFilters(s, c, None)),
                    PendingPacketFilterRemove, Some(c));
    }
  }

  /** Commitments, tokens and quality of service move no flow. */
  lemma SmallKeepFlows(s: State, nif: Network, r: RequestRef)
    requires Ok(s) && Acting(s, r) && s.req[r].kind != Open
    ensures ActCommit(s, nif, r).0.flows == s.flows && (!ActCommit(s, nif, r).1 ==> ActCommit(s, nif, r).0 == s)
    ensures ActAddSblpParameter(s, nif, r).0.flows == s.flows
    ensures !ActAddSblpParameter(s, nif, r).1 ==> ActAddSblpParameter(s, nif, r).0 == s
    ensures ActSetQoS(s, nif, r).0.flows == s.flows && (!ActSetQoS(s, nif, r).1 ==> ActSetQoS(s, nif, r).0 == s)
  {
    hide Ok, Ask, Table;
    if s.req[r].context.Some? {
      var c := s.req[r].context.value;
      var id := s.ctx[c].contextId;
      AskKeepsFlows(s, nif, r, Activate(id), PendingActivate, Some(c));
      AskKeepsFlows(s, nif, r, ModifyActive(id), PendingModifyActive, Some(c));
      AskKeepsFlows(s, nif, r, ModifyTft(id, AddSblp, []), PendingSblpParameterAdd, Some(c));
      AskKeepsFlows(s, nif, r, RequestQoS(id), PendingSetQoS, Some(c));
    }
  }

  lemma EndsKeepFlows(s: State, r: RequestRef)
    requires Ok(s) && Acting(s, r) && s.req[r].flow.None?
    ensures ActAddFlowToContext(s, r).0.flows == s.flows && r in ActAddFlowToContext(s, r).0.req
    ensures ActAddFlowToContext(s, r).0.req[r].flow.None? && ActNegotiationComplete(s, r).0.flows == s.flows
    ensures ActNegotiationComplete(s, r).1
  {
    hide Ok, Rehome, Table, Without;
    if s.req[r].context.Some? {
      RehomeNone(s, r, s.req[r].context.value);
    }
  }

  predicate Calling(action: Action) {
    action == RemovePacketFilter || action == Commit || action == AddSblpParameter || action == SetQoS
  }

  /** A request that has let go of its flow, and is no Open, moves no flow any more. */
  lemma ActKeepsFlows(s: State, nif: Network, r: RequestRef)
    requires Ok(s) && Acting(s, r) && s.req[r].kind != Open && s.req[r].flow.None?
    ensures var (t, done) := Act(s, nif, r); t.flows == s.flows && (!done ==> r in t.req && t.req[r].flow.None?)
  {
    hide Ok, Table, Act, Acting;
    ActingHere(s, r);
    if Calling(Table(s.req[r].kind)[s.req[r].state]) {
      CallsKeepFlows(s, nif, r);
    } else {
      OthersKeepFlows(s, nif, r);
    }
  }

  lemma CallsKeepFlows(s: State, nif: Network, r: RequestRef)
    requires Ok(s) && Acting(s, r) && s.req[r].kind != Open && s.req[r].flow.None?
    requires Calling(Table(s.req[r].kind)[s.req[r].state])
    ensures var (t, done) := Act(s, nif, r); t.flows == s.flows && (!done ==> r in t.req && t.req[r].flow.None?)
  {
    hide Ok, Table, ActRemovePacketFilter, ActCommit, ActAddSblpParameter, ActSetQoS;
    RemovalKeepsFlows(s, nif, r);
    SmallKeepFlows(s, nif, r);
  }

  lemma OthersKeepFlows(s: State, nif: Network, r: RequestRef)
    requires Ok(s) && Acting(s, r) && s.req[r].kind != Open && s.req[r].flow.None?
    requires !Calling(Table(s.req[r].kind)[s.req[r].state])
    ensures var (t, done) := Act(s, nif, r); t.flows == s.flows && (!done ==> r in t.req && t.req[r].flow.None?)
  {
    hide Ok, Table, Ask, ActAddFlowToContext, ActNegotiationComplete, Destruct;
    NotLast(s.req[r].kind, s.req[r].state);
    EndsKeepFlows(s, r);
    DestructShape(s, r, Err(KErrNone));
  }

  lemma {:induction false} RunKeepsFlows(s: State, nif: Network, r: RequestRef)
    requires Ok(s) && Acting(s, r) && s.req[r].kind != Open && s.req[r].flow.None?
    ensures RunActions(s, nif, r).flows == s.flows
    decreases |Table(s.req[r].kind)| - s.req[r].state
  {
    hide Ok, Act, Table, Acting;
    ActingHere(s, r);
    ActContinues(s, nif, r);
    ActKeepsFlows(s, nif, r);
    var (t, done) := Act(s, nif, r);
    if !done {
      RunKeepsFlows(Advance(t, r), nif, r);
    }
  }

  lemma ActingHere(s: State, r: RequestRef)
    requires Acting(s, r)
    ensures r in s.req && s.current == Some(r) && s.req[r].state < |Table(s.req[r].kind)|
    ensures s.req[r].context.Some? ==> s.req[r].context.value in s.ctx
  {
  }

  // ---------- Leave ----------

  /** A Leave that starts puts its flow on the default context, whatever becomes of its calls. */
  lemma LeaveDetaches(s: State, nif: Network, r: RequestRef, f: FlowRef)
    requires Ok(s) && Acting(s, r) && s.req[r].kind == Leave && s.req[r].state == 0 && s.req[r].context.Some?
    requires s.req[r].flow == Some(f)
    ensures On(RunActions(s, nif, r), f, s.primary)
  {
    hide Ok, Act, RunActions, Acting, ActRemovePacketFilter, ActCommit;
    ActingHere(s, r);
    LeaveTable();
    LeaveFirst(s, nif, r, f);
    RunsOne(s, nif, r);
    var (t, done) := Act(s, nif, r);
    if !done {
      var m := Advance(t, r);
      LeaveLater(m, nif, r, f, s.primary);
      RunsOne(m, nif, r);
      if !Act(m, nif, r).1 {
        var n := Advance(Act(m, nif, r).0, r);
        LeaveLater(n, nif, r, f, s.primary);
        RunsOne(n, nif, r);
      }
    }
  }

  lemma LeaveTable()
    ensures Table(Leave) == [RemovePacketFilter, Commit, CompleteRequest]
  {
  }

  lemma RunsOne(s: State, nif: Network, r: RequestRef)
    requires Ok(s) && Acting(s, r)
    ensures var (t, done) := Act(s, nif, r);
            if done then RunActions(s, nif, r) == t
            else r in t.req && Ok(Advance(t, r)) && Acting(Advance(t, r), r)
                 && s.req[r].state + 1 < |Table(s.req[r].kind)|
                 && t.req[r].kind == s.req[r].kind && t.req[r].state == s.req[r].state
                 && RunActions(s, nif, r) == RunActions(Advance(t, r), nif, r)
  {
    hide Ok, Act, Table, Acting;
    ActingHere(s, r);
    ActContinues(s, nif, r);
  }

  lemma LeaveFirst(s: State, nif: Network, r: RequestRef, f: FlowRef)
    requires Ok(s) && Acting(s, r) && s.req[r].kind == Leave && s.req[r].state == 0 && s.req[r].context.Some?
    requires s.req[r].flow == Some(f) && Table(Leave) == [RemovePacketFilter, Commit, CompleteRequest]
    ensures On(Act(s, nif, r).0, f, s.primary)
  {
    hide Ok, Ask, Rehome, Table, UnneededFilters;
    var c := s.req[r].context.value;
    DeleteReady(s);
    RehomeOk(s, r, s.primary);
    RehomeNone(s, r, s.primary);
    var m := Rehome(s, r, s.primary);
    AskKeepsFlows(m, nif, r, ModifyTft(m.ctx[c].contextId, RemoveFilters, UnneededFilters(m, c, s.req[r].flow)),
                  PendingPacketFilterRemove, Some(c));
  }

  lemma LeaveLater(s: State, nif: Network, r: RequestRef, f: FlowRef, c: ContextRef)
    requires Ok(s) && Acting(s, r) && s.req[r].kind == Leave && 0 < s.req[r].state < 3 && On(s, f, c)
    requires Table(Leave) == [RemovePacketFilter, Commit, CompleteRequest]
    ensures On(Act(s, nif, r).0, f, c) && (s.req[r].state == 2 ==> Act(s, nif, r).1)
  {
    hide Ok, Table, ActCommit, Destruct;
    SmallKeepFlows(s, nif, r);
    DestructShape(s, r, Err(KErrNone));
  }

  // ---------- Join ----------

  /** The last upcall reports the success of request `r`. */
  ghost predicate Succeeds(t: State, r: RequestRef) {
    Ends(t.upcalls, RequestComplete(r, Err(0)))
  }

  /** A Join on its way: it has its flow, and from the third action on it is at its channel. */
  ghost predicate OnTheWay(q: Request, f: FlowRef, d: ContextRef) {
    q.kind == Join && q.flow == Some(f) && q.target == Some(d) && q.state <= 4
      && (q.state >= 3 ==> q.context == Some(d))
  }

  lemma AskFails(s: State, m: State, nif: Network, r: RequestRef, op: Control, expected: Expected,
                 c: ContextRef)
    requires Ok(m) && m.current == Some(r) && r in m.req && r in s.req && c in m.ctx
    requires m.req[r].kind == Join && m.req[r].flow == s.req[r].flow
    ensures var t := Ask(m, nif, r, op, expected, Some(c));
            (r in t.req ==> t.req[r].flow == s.req[r].flow) && (r !in t.req ==> !Succeeds(t, r))
  {
    hide Ok, Fail;
    AskedOk(m, r, op, expected);
    var asked := Asked(m, r, op, expected);
    if nif(asked.controls) < 0 {
      HeardOk(asked, r, Denied(op, nif(asked.controls)));
      FailEnds(Heard(asked, r, Denied(op, nif(asked.controls))), r, Some(c), nif(asked.controls));
    }
  }

  /** What an action before the flow is put on the channel comes to. */
  ghost predicate GoesOnItsWay(t: State, done: bool, r: RequestRef, f: FlowRef, d: ContextRef) {
    if done then (r in t.req ==> t.req[r].flow == Some(f)) && (r !in t.req ==> !Succeeds(t, r))
    else r in t.req && OnTheWay(t.req[r].(state := t.req[r].state + 1), f, d) && t.req[r].context.Some?
  }

  lemma JoinRemoves(s: State, nif: Network, r: RequestRef, f: FlowRef, d: ContextRef)
    requires Ok(s) && Acting(s, r) && OnTheWay(s.req[r], f, d) && s.req[r].state == 0 && s.req[r].context.Some?
    ensures var (t, done) := ActRemovePacketFilter(s, nif, r); GoesOnItsWay(t, done, r, f, d)
  {
    hide Ok, Ask, Rehome, Table, UnneededFilters, Succeeds, FiltersKept;
    DeleteReady(s);
    var c := s.req[r].context.value;
    RehomeOk(s, r, s.primary);
    var m := Rehome(s, r, s.primary);
    AskFails(s, m, nif, r, ModifyTft(m.ctx[c].contextId, RemoveFilters, UnneededFilters(m, c, s.req[r].flow)),
             PendingPacketFilterRemove, c);
  }

  lemma JoinCommits(s: State, nif: Network, r: RequestRef, f: FlowRef, d: ContextRef)
    requires Ok(s) && Acting(s, r) && OnTheWay(s.req[r], f, d) && s.req[r].state == 1 && s.req[r].context.Some?
    ensures var (t, done) := ActCommit(s, nif, r); GoesOnItsWay(t, done, r, f, d)
  {
    hide Ok, Ask, Table, Succeeds;
    var c := s.req[r].context.value;
    var id := s.ctx[c].contextId;
    AskFails(s, s, nif, r, Activate(id), PendingActivate, c);
    AskFails(s, s, nif, r, ModifyActive(id), PendingModifyActive, c);
  }

  lemma JoinAdds(s: State, nif: Network, r: RequestRef, f: FlowRef, d: ContextRef)
    requires Ok(s) && Acting(s, r) && OnTheWay(s.req[r], f, d) && s.req[r].state == 3 && s.req[r].context.Some?
    ensures var (t, done) := ActAddPacketFilter(s, nif, r); GoesOnItsWay(t, done, r, f, d)
  {
    hide Ok, Ask, Table, Succeeds, Reserved, LastMatch, FreeId, Fail;
    RequestParts(s, r);
    var c := s.req[r].context.value;
    var filters := s.ctx[c].filters;
    if LastMatch(s.flows[f].filter, filters) < 0 {
      if FreeId(filters) < 0 {
        FailEnds(s, r, Some(c), FreeId(filters));
        NoSuccess(s, r, c, FreeId(filters));
      } else {
        ReservedOk(s, r, c, f);
        ReservedStays(s, r, c, f);
        var n := Reserved(s, r, c, f);
        AskFails(s, n, nif, r, ModifyTft(s.ctx[c].contextId, AddFilters, [n.flows[f].filter]), PendingPacketFilterAdd,
          c);
      }
    }
  }

  lemma JoinGoesOn(s: State, nif: Network, r: RequestRef, f: FlowRef, d: ContextRef)
    requires Ok(s) && Acting(s, r) && OnTheWay(s.req[r], f, d) && s.req[r].state < 4 && s.req[r].context.Some?
    ensures var (t, done) := Act(s, nif, r); GoesOnItsWay(t, done, r, f, d)
  {
    hide Ok, Ask, Table, Succeeds, ActRemovePacketFilter, ActCommit, ActAddPacketFilter;
    JoinTable();
    match s.req[r].state
    case 0 => JoinRemoves(s, nif, r, f, d);
    case 1 => JoinCommits(s, nif, r, f, d);
    case 2 =>
    case _ => JoinAdds(s, nif, r, f, d);
  }

  lemma NoSuccess(s: State, r: RequestRef, c: ContextRef, reason: int)
    requires Ok(s) && s.current == Some(r) && r in s.req && c in s.ctx && s.req[r].kind == Join
    requires Ends(Fail(s, r, Some(c), reason).upcalls, RequestComplete(r, Blamed(Join, reason)))
    ensures !Succeeds(Fail(s, r, Some(c), reason), r)
  {
    hide Ok, Fail;
  }

  lemma ReservedStays(s: State, r: RequestRef, c: ContextRef, f: FlowRef)
    requires r in s.req && c in s.ctx && f in s.flows
    ensures var n := Reserved(s, r, c, f);
            r in n.req && n.req[r].kind == s.req[r].kind && n.req[r].flow == s.req[r].flow && f in n.flows
              && n.ctx == s.ctx
  {
    hide FreeId, FreePrecedence, Reserve;
  }

  lemma JoinTable()
    ensures Table(Join) == [RemovePacketFilter, Commit, StartWithTargetContext, AddPacketFilter, AddFlowToContext,
                            RemovePacketFilter, Commit, CompleteRequest]
  {
  }

  /**
   Whenever a Join runs actions: as long as it waits with its flow it has not put it anywhere for
   good; once it has let it go, or has succeeded, the flow is on the channel.
  */
  lemma {:induction false} JoinAttaches(s: State, nif: Network, r: RequestRef, f: FlowRef, d: ContextRef)
    requires Ok(s) && Acting(s, r) && OnTheWay(s.req[r], f, d) && s.req[r].context.Some? && d in s.ctx
    ensures var t := RunActions(s, nif, r);
            && (r in t.req ==> t.req[r].flow == Some(f) || On(t, f, d))
            && (r !in t.req && Succeeds(t, r) ==> On(t, f, d))
    decreases |Table(s.req[r].kind)| - s.req[r].state
  {
    hide Ok, Act, RunActions, Acting, Table, Succeeds;
    ActingHere(s, r);
    RunsOne(s, nif, r);
    if s.req[r].state < 4 {
      JoinGoesOn(s, nif, r, f, d);
      var (t, done) := Act(s, nif, r);
      if !done {
        ActContexts(s, nif, r);
        JoinAttaches(Advance(t, r), nif, r, f, d);
      }
    } else {
      JoinTable();
      FlowActions(s, r);
      JoinPlaces(s, nif, r, f, d);
      var m := Advance(Act(s, nif, r).0, r);
      RunKeepsFlows(m, nif, r);
    }
  }

  /** An action that lets the next one run keeps every context. */
  lemma ActContexts(s: State, nif: Network, r: RequestRef)
    requires Ok(s) && Acting(s, r) && !Act(s, nif, r).1
    ensures s.ctx.Keys <= Act(s, nif, r).0.ctx.Keys
  {
    hide Ok, Ask, Rehome, Table, UnneededFilters, FiltersKept, Destruct;
    DeleteReady(s);
    RehomeOk(s, r, s.primary);
    if s.req[r].context.Some? {
      RehomeOk(s, r, s.req[r].context.value);
    }
  }

  lemma JoinPlaces(s: State, nif: Network, r: RequestRef, f: FlowRef, d: ContextRef)
    requires Ok(s) && Acting(s, r) && OnTheWay(s.req[r], f, d) && s.req[r].state == 4
    requires Table(Join) == [RemovePacketFilter, Commit, StartWithTargetContext, AddPacketFilter, AddFlowToContext,
                             RemovePacketFilter, Commit, CompleteRequest]
    ensures var (t, done) := Act(s, nif, r);
            !done && r in t.req && t.req[r] == s.req[r].(flow := None) && On(t, f, d)
  {
    hide Ok, Table, ActAddFlowToContext;
    FlowActions(s, r);
  }

  // ---------- Open ----------

  /** An Open whose context has been committed puts its flow there and succeeds. */
  lemma OpenAttaches(s: State, nif: Network, r: RequestRef, f: FlowRef)
    requires Ok(s) && Acting(s, r) && s.req[r].kind == Open && s.req[r].state == 8 && s.req[r].context.Some?
    requires s.req[r].flow == Some(f)
    ensures var t := RunActions(s, nif, r); r !in t.req && Succeeds(t, r) && On(t, f, s.req[r].context.value)
  {
    hide Ok, Act, RunActions, Acting, Table;
    ActingHere(s, r);
    OpenEndTable();
    RunsOne(s, nif, r);
    OpenPlaces(s, nif, r, f);
    var m := Advance(Act(s, nif, r).0, r);
    RunsOne(m, nif, r);
    OpenCompletes(m, nif, r);
  }

  lemma OpenEndTable()
    ensures |Table(Open)| == 10 && Table(Open)[8] == AddFlowToContext && Table(Open)[9] == NegotiationComplete
  {
  }

  lemma OpenPlaces(s: State, nif: Network, r: RequestRef, f: FlowRef)
    requires Ok(s) && Acting(s, r) && s.req[r].kind == Open && s.req[r].state == 8 && s.req[r].context.Some?
    requires s.req[r].flow == Some(f) && |Table(Open)| == 10 && Table(Open)[8] == AddFlowToContext
    ensures var (t, done) := Act(s, nif, r);
            !done && r in t.req && t.req[r] == s.req[r].(flow := None) && On(t, f, s.req[r].context.value)
  {
    hide Ok, Table, ActAddFlowToContext;
    FlowActions(s, r);
  }

  lemma OpenCompletes(s: State, nif: Network, r: RequestRef)
    requires Ok(s) && Acting(s, r) && s.req[r].kind == Open && s.req[r].state == 9 && s.req[r].flow.None?
    requires |Table(Open)| == 10 && Table(Open)[9] == NegotiationComplete
    ensures var (t, done) := Act(s, nif, r); done && r !in t.req && Succeeds(t, r) && t.flows == s.flows
  {
    hide Ok, Table, Rehome, Without, Destruct;
    if s.req[r].context.Some? {
      RehomeOk(s, r, s.req[r].context.value);
      RehomeNone(s, r, s.req[r].context.value);
    }
    DestructEnds(s, r, Err(KErrNone));
    DestructShape(s, r, Err(KErrNone));
  }

  /**
   A failed Open leaves no context of its own behind: if the failure comes from the context it
   has made, the network is told to delete it and it goes, unless it is the only one.
  */
  lemma FailedOpenCleansUp(s: State, r: RequestRef, c: ContextRef, reason: int)
    requires Ok(s) && s.current == Some(r) && r in s.req && s.req[r].kind == Open && s.req[r].newContext == Some(c)
    requires c in s.ctx && c != s.primary
    ensures var t := Fail(s, r, Some(c), reason);
            && c !in t.ctx && r !in t.req && t.controls == s.controls + [DeleteContext(s.ctx[c].contextId)]
            && t.flows.Keys == s.flows.Keys
  {
    hide Ok, DeletePdpContext, FiltersKept, Targets, Settled, Destruct, Without;
    AbandonedOk(s, r, c);
    AbandonReady(s, r, c);
    var told := DeleteOnNetwork(SetRequest(s, r, s.req[r].(newContext := None)), c);
    ToldShape(s, r, c);
    NotAlone(told, c);
    DeletePdpContextOk(told, c);
    DestructShape(AbandonContext(s, r, c), r, Err(reason));
  }

  /** The reply with an error that comes from the new context is such a failure. */
  lemma FailedReplyCleansUp(s: State, nif: Network, r: RequestRef, c: ContextRef, reason: int)
    requires Ok(s) && Settled(s) && s.current == Some(r) && r in s.req && Waiting(s.req[r])
    requires s.req[r].kind == Open && s.req[r].newContext == Some(c) && c in s.ctx && c != s.primary
    requires reason != 0 && s.req[r].expected != PendingAny
    ensures c !in Run(s, nif, r, s.req[r].expected, c, reason).ctx
    ensures Run(s, nif, r, s.req[r].expected, c, reason).controls
            == s.controls + [DeleteContext(s.ctx[c].contextId)]
  {
    hide Ok, Waiting, Fail, RunActions;
    var reply := s.req[r].expected;
    RunReady(s, r, c, reply);
    var m := SetRequest(s, r, s.req[r].(context := Some(c)));
    HeardOk(m, r, Failed(reply, reason));
    FailedOpenCleansUp(Heard(m, r, Failed(reply, reason)), r, c, reason);
  }

  // ---------- the default context ----------

  /**
   When the default context is to go and there is another one, the best of the others takes its
   place and gets a request of its own at the end of the queue, which clears its filters.
  */
  lemma DefaultIsReplaced(s: State)
    requires Ok(s) && (forall c :: c in s.contexts ==> c in s.ctx) && s.contexts != [s.primary]
    ensures var t := SelectNewDefault(s);
            && t.primary != s.primary && t.primary in s.ctx
            && (exists k: nat :: BestAt(s.contexts, s.ctx, s.primary, t.primary, k))
            && ClosesLast(s, t, t.primary)
            && t == s.(primary := t.primary, pending := t.pending, req := t.req, nextRequest := s.nextRequest + 1,
                       issued := true)
  {
    hide Ok, BestContext, BestAt;
    OkParts(s);
    OnlyContext(s);
    var best := BestContext(s.contexts, s.ctx, s.primary);
    BestContextIsBest(s.contexts, s.ctx, s.primary, best.value);
  }

  // ---------- the callback ----------

  /** The callback serves the queue only when it is set, the interface is ready and no request is being served. */
  lemma CallbackWaits(s: State, nif: Network)
    requires Ok(s) && Settled(s)
    ensures var t := Step(s, nif, QueueTimer);
            && (!s.issued ==> t == s)
            && (s.issued && (!s.ready || s.pending == [] || s.current.Some?) ==> t == s.(issued := false))
  {
    hide Ok, Waiting, Start, OkAsleep;
    if s.issued {
      FireOk(s);
    }
  }

  // ---------- confirmations ----------

  /** A confirmation that no request waits for takes over what the network reports, and unblocks an active context. */
  lemma ConfirmationsAreTaken(s: State, nif: Network, e: Event)
    requires Ok(s) && Settled(s) && WellFormed(e) && (e.Activated? || e.ModifiedActive?)
    requires ContextOf(s, e.contextId).Some? && s.current.None?
    ensures var c := ContextOf(s, e.contextId).value;
            var t := Step(s, nif, e);
            && c in t.ctx
            && t.ctx[c] == s.ctx[c].(filters := Occupied(e.report.tft), negotiated := e.report.negotiated,
                                     status := e.report.status,
                                     blocked := s.ctx[c].blocked && e.report.status != StatusActive)
            && t.req == s.req && t.flows == s.flows && t.controls == s.controls
  {
    hide Ok, Settled, ContextOf, Confirmed, Occupied;
    ConfirmedOk(s, ContextOf(s, e.contextId).value, e.report);
    ConfirmedIs(s, ContextOf(s, e.contextId).value, e.report);
  }

  lemma ConfirmedIs(s: State, c: ContextRef, report: Report)
    requires Ok(s) && c in s.ctx
    ensures var t := Confirmed(s, c, report);
            && t.ctx == s.ctx[c := s.ctx[c].(filters := Occupied(report.tft), negotiated := report.negotiated,
                                             status := report.status,
                                             blocked := s.ctx[c].blocked && report.status != StatusActive)]
            && t.req == s.req && t.flows == s.flows && t.controls == s.controls && t.current == s.current
  {
    hide Ok, Occupied, Marks, Touch;
    var m := Reported(s, c, report);
    TouchFieldsOf(m, c, m.ctx[c].(status := report.status));
    var n := Update(s, c, report);
    TouchFieldsOf(n, c, n.ctx[c].(blocked := false));
  }

  lemma TouchFieldsOf(s: State, c: ContextRef, x: Context)
    requires c in s.ctx
    ensures var t := Touch(s, c, x); t == s.(ctx := s.ctx[c := x], upcalls := t.upcalls)
  {
    hide Announce;
  }
}
