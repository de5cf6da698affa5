/**
 A run from the construction of an interface to a channel that a second flow can join,
 and from there to a full map of precedences: how identities are lost in full.
*/
module GuqosSetup {
  import opened Wrappers
  import opened Sequences
  import opened PacketFilters
  import opened Tft
  import opened GuqosState
  import opened GuqosHeap
  import opened GuqosRequests
  import opened GuqosSteps
  import opened GuqosLoops
  import opened GuqosEvents
  import opened GuqosRuns
  import opened GuqosTheorems
  import opened GuqosExhaustion

  // ---------- the run ----------

  const FirstFilter: PacketFilter := PacketFilter(0, 0, 1, 0, 0, 0, 0, 0, 0, 0, 0)
  const SecondFilter: PacketFilter := PacketFilter(0, 0, 2, 0, 0, 0, 0, 0, 0, 0, 0)
  const KeptFilter: PacketFilter := FirstFilter.(id := 1, precedence := 0)

  /** The template that the network reports: the filter of the first flow. */
  const KeptSlots: Slots := [Some(KeptFilter), None, None, None, None, None, None, None]
  const KeptReport: Report := Report(StatusActive, KeptSlots, Negotiated(Unspecified, 0))

  /** The default context comes up, two flows are opened, and a channel is opened for the first one. */
  function Opening(): seq<Event> {
    [PrimaryCreated(StatusActive), OpenFlow(0, FirstFilter), OpenFlow(1, SecondFilter), OpenChannel(7, 0, false),
      QueueTimer]
  }

  /** The network creates a context for the channel and answers each call. */
  function Answers(): seq<Event> {
    [SecondaryCreated(1, StatusActive, KErrNone, KErrNone), TftModified(1, AddFilters, KErrNone), QoSSet(1, KErrNone),
     ModifiedActive(1, KeptReport, KErrNone)]
  }

  // ---------- its states ----------

  const UpContext: Context := PrimaryContext.(status := StatusActive)

  /** The two flows on the default context. */
  const Opened: State := Initial(false).(ready := true, issued := true,
      ctx := map[0 := UpContext.(flows := [0, 1], refs := 2)],
      flows := map[0 := Flow(FirstFilter, Some(0)), 1 := Flow(SecondFilter, Some(0))])

  const OpenRequest: Request := FreshRequest(Open, Some(0), None, 7, false)

  /** The Open in the queue. */
  const Queued1: State := Opened.(pending := [0], req := map[0 := OpenRequest], nextRequest := 1)

  /** What the Open and the network say to each other. */
  const Said: seq<Exchange> :=
    [Called(CreateSecondary), Answered(PendingCreate), Called(AddCall), Answered(PendingPacketFilterAdd),
     Called(RequestQoS(1)), Answered(PendingSetQoS), Called(ModifyActive(1)), Answered(PendingModifyActive)]

  lemma SaidGrows()
    ensures [] + [Called(CreateSecondary)] == Said[..1] && Said[..1] + [Answered(PendingCreate)] == Said[..2]
    ensures Said[..2] + [Called(AddCall)] == Said[..3] && Said[..3] + [Answered(PendingPacketFilterAdd)] == Said[..4]
    ensures Said[..4] + [Called(RequestQoS(1))] == Said[..5] && Said[..5] + [Answered(PendingSetQoS)] == Said[..6]
    ensures Said[..6] + [Called(ModifyActive(1))] == Said[..7] && Said[..7] + [Answered(PendingModifyActive)] == Said
  {
  }

  /** The Open waiting for its context. */
  const Creating: State := Queued1.(issued := false, current := Some(0), controls := [CreateSecondary],
      req := map[0 := OpenRequest.(state := 2, expected := PendingCreate, context := Some(0), modified := true,
                                   said := Said[..1])])

  const AddCall: Control := ModifyTft(1, AddFilters, [KeptFilter])

  /** The Open waiting for its filter to be added. */
  const Adding: State := Creating.(contexts := [0, 1], nextContext := 2,
      ctx := map[0 := UpContext.(flows := [0, 1], refs := 2), 1 := UpContext.(contextId := 1, channelId := 7)],
      flows := map[0 := Flow(KeptFilter, Some(0)), 1 := Flow(SecondFilter, Some(0))],
      marked := seq(KMaxEvaluationPrecedences, i => i == 0),
      controls := [CreateSecondary, AddCall],
      req := map[0 := OpenRequest.(state := 4, expected := PendingPacketFilterAdd, context := Some(1), modified := true,
                                   newContext := Some(1), added := Some((1, KeptFilter)), said := Said[..3])])

  lemma UpStep(nif: Network)
    requires Ok(Initial(false)) && Settled(Initial(false))
    ensures Step(Initial(false), nif, PrimaryCreated(StatusActive))
            == Initial(false).(ready := true, issued := true, ctx := map[0 := UpContext])
  {
    hide Ok;
    assert Initial(false).ctx[0 := UpContext] == map[0 := UpContext];
  }

  const Up: State := Initial(false).(ready := true, issued := true, ctx := map[0 := UpContext])

  lemma OpenFirst(nif: Network)
    requires Ok(Up) && Settled(Up)
    ensures Step(Up, nif, OpenFlow(0, FirstFilter))
            == Up.(ctx := map[0 := UpContext.(flows := [0], refs := 1)], flows := map[0 := Flow(FirstFilter, Some(0))])
  {
    hide Ok;
    assert [] + [0] == [0];
    assert Up.ctx[0 := UpContext.(flows := [0], refs := 1)] == map[0 := UpContext.(flows := [0], refs := 1)];
    assert Up.flows[0 := Flow(FirstFilter, Some(0))] == map[0 := Flow(FirstFilter, Some(0))];
  }

  const UpOne: State := Up.(ctx := map[0 := UpContext.(flows := [0], refs := 1)],
      flows := map[0 := Flow(FirstFilter, Some(0))])

  lemma OpenSecond(nif: Network)
    requires Ok(UpOne) && Settled(UpOne)
    ensures Step(UpOne, nif, OpenFlow(1, SecondFilter)) == Opened
  {
    hide Ok;
    assert [0] + [1] == [0, 1];
    assert UpOne.ctx[0 := UpContext.(flows := [0, 1], refs := 2)] == Opened.ctx;
    assert UpOne.flows[1 := Flow(SecondFilter, Some(0))] == Opened.flows;
  }

  lemma AskChannel(nif: Network)
    requires Ok(Opened) && Settled(Opened)
    ensures Step(Opened, nif, OpenChannel(7, 0, false)) == Queued1
  {
    hide Ok;
    assert FindChannel([0], Opened.ctx, 7).None? by {
      assert [0][1..] == [];
    }
    assert [] + [0] == [0] && map[][0 := OpenRequest] == map[0 := OpenRequest];
  }

  // ---------- the Open up to its first call ----------

  /** One action that has nothing to ask. */
  lemma ActsOn(s: State, nif: Network, r: RequestRef)
    requires Ok(s) && Acting(s, r) && Act(s, nif, r) == (s, false)
    ensures Ok(Advance(s, r)) && Acting(Advance(s, r), r) && RunActions(s, nif, r) == RunActions(Advance(s, r), nif, r)
  {
    hide Ok, Act;
    ActContinues(s, nif, r);
  }

  lemma OpenTable()
    ensures var table := Table(Open);
            && |table| == 10 && table[0] == RemovePacketFilter && table[1] == Commit && table[2] == NewContext
            && table[3] == RememberCreatedContext && table[4] == AddPacketFilter && table[5] == AddSblpParameter
            && table[6] == SetQoS && table[7] == Commit && table[8] == AddFlowToContext
               && table[9] == NegotiationComplete
  {
  }

  /** The Open is started on the default context. */
  const Starting: State := Queued1.(issued := false, current := Some(0),
      req := map[0 := OpenRequest.(context := Some(0))])

  lemma StartOpen(nif: Network)
    requires Ok(Queued1) && Settled(Queued1) && nif([CreateSecondary]) >= 0
    ensures Step(Queued1, nif, QueueTimer) == Creating
  {
    hide Ok, RunActions, Table, Idle;
    OpenTable();
    FireOk(Queued1);
    var fired := Queued1.(issued := false);
    PickHead(fired);
    var b := fired.(current := Some(0));
    BegunOk(b, 0);
    assert Begun(b, 0) == OpenRequest.(context := Some(0));
    assert b.req[0 := OpenRequest.(context := Some(0))] == Starting.req;
    assert Start(b, nif, 0) == RunActions(Starting, nif, 0);
    OpenAsks(nif);
    RunPendingOnce(fired, nif);
  }

  lemma OpenAsks(nif: Network)
    requires Ok(Starting) && Acting(Starting, 0) && nif([CreateSecondary]) >= 0
    ensures RunActions(Starting, nif, 0) == Creating
  {
    hide Ok, Table;
    OpenTable();
    NothingToRemove(Starting, nif, 0);
    ActsOn(Starting, nif, 0);
    var s1 := Advance(Starting, 0);
    NothingToCommit(s1, nif, 0);
    ActsOn(s1, nif, 0);
    var s2 := Advance(s1, 0);
    AskedOk(s2, 0, CreateSecondary, PendingCreate);
    assert Act(s2, nif, 0) == (Ask(s2, nif, 0, CreateSecondary, PendingCreate, None), true);
    assert [] + [CreateSecondary] == [CreateSecondary];
    SaidGrows();
    assert Asked(s2, 0, CreateSecondary, PendingCreate).req == Creating.req;
    assert Asked(s2, 0, CreateSecondary, PendingCreate) == Creating;
  }

  // ---------- the answers of the network ----------

  /** The new context has been added, and the Open goes on with it. */
  const Created: State := Creating.(contexts := [0, 1], nextContext := 2,
      ctx := map[0 := UpContext.(flows := [0, 1], refs := 2), 1 := UpContext.(contextId := 1)],
      req := map[0 := OpenRequest.(state := 3, context := Some(1), modified := true, said := Said[..2])])

  /** The Open knows its context, which carries the channel. */
  const Owning: State := Created.(
      ctx := map[0 := UpContext.(flows := [0, 1], refs := 2), 1 := UpContext.(contextId := 1, channelId := 7)],
      req := map[0 := OpenRequest.(state := 4, context := Some(1), modified := true, newContext := Some(1),
                                   said := Said[..2])])

  lemma ContextCreated(nif: Network)
    requires Ok(Creating) && Settled(Creating) && nif([CreateSecondary, AddCall]) >= 0
    ensures Step(Creating, nif, SecondaryCreated(1, StatusActive, KErrNone, KErrNone)) == Adding
  {
    hide Ok, RunActions, Table, Waiting, Resumed;
    OpenTable();
    NotReadyOk(Creating);
    NewContextOk(Creating, 1, StatusActive);
    RunReady(NewContextAdded(Creating, 1, StatusActive), 0, 1, PendingCreate);
    ContextResumes();
    OpenAdds(nif);
  }

  lemma ContextResumes()
    ensures Resumed(NewContextAdded(Creating, 1, StatusActive), 0, 1, PendingCreate) == Created
  {
    var n := NewContextAdded(Creating, 1, StatusActive);
    assert [0] + [1] == [0, 1];
    assert n.ctx == Created.ctx;
    SaidGrows();
    assert Resumed(n, 0, 1, PendingCreate).req == Created.req;
  }

  lemma OpenAdds(nif: Network)
    requires Ok(Created) && Acting(Created, 0) && nif([CreateSecondary, AddCall]) >= 0
    ensures RunActions(Created, nif, 0) == Adding
  {
    hide Ok, Table, Ask;
    OpenTable();
    ActContinues(Created, nif, 0);
    var m := Act(Created, nif, 0).0;
    assert m.ctx == Owning.ctx;
    assert Advance(m, 0).req == Owning.req;
    assert Advance(m, 0) == Owning;
    assert RunActions(Created, nif, 0) == RunActions(Owning, nif, 0);
    OwningAdds(nif);
  }

  lemma FirstIdentity()
    ensures FreeId([]) == 1 && FreePrecedence(Owning.marked) == 0 && LastMatch(FirstFilter, []) < 0
    ensures Reserve(Owning.marked, 0) == Adding.marked
  {
    assert !UsesId([], 1);
  }

  lemma OwningAdds(nif: Network)
    requires Ok(Owning) && Acting(Owning, 0) && nif([CreateSecondary, AddCall]) >= 0
    ensures RunActions(Owning, nif, 0) == Adding
  {
    hide Ok, Table, Fail, FreeId, FreePrecedence, LastMatch, Reserve;
    OpenTable();
    FirstIdentity();
    ReservedOk(Owning, 0, 1, 0);
    var m := Reserved(Owning, 0, 1, 0);
    assert m.flows == Adding.flows;
    AskedOk(m, 0, AddCall, PendingPacketFilterAdd);
    assert [CreateSecondary] + [AddCall] == [CreateSecondary, AddCall];
    SaidGrows();
    assert Asked(m, 0, AddCall, PendingPacketFilterAdd).req == Adding.req;
    assert Act(Owning, nif, 0) == ActAddPacketFilter(Owning, nif, 0);
  }

  /** The Open waiting for its quality of service. */
  const Setting: State := Adding.(controls := [CreateSecondary, AddCall, RequestQoS(1)],
      req := map[0 := Adding.req[0].(state := 6, expected := PendingSetQoS, said := Said[..5])])

  /** The expected reply lets the request go on. */
  lemma Replied(s: State, nif: Network, r: RequestRef, c: ContextRef)
    requires Ok(s) && Settled(s) && s.current == Some(r) && r in s.req && Waiting(s.req[r]) && c in s.ctx
    ensures Ok(Resumed(s, r, c, s.req[r].expected)) && Acting(Resumed(s, r, c, s.req[r].expected), r)
    ensures Reply(s, nif, s.req[r].expected, c, KErrNone) == RunActions(Resumed(s, r, c, s.req[r].expected), nif, r)
  {
    hide Ok, Settled, Resumed, Acting, Waiting, RunActions;
    RunReady(s, r, c, s.req[r].expected);
  }

  lemma FilterAdded(nif: Network)
    requires Ok(Adding) && Settled(Adding) && nif([CreateSecondary, AddCall, RequestQoS(1)]) >= 0
    ensures Step(Adding, nif, TftModified(1, AddFilters, KErrNone)) == Setting
  {
    hide Ok, RunActions, Table, Reply, Act;
    OpenTable();
    FindsSecond(Adding);
    Replied(Adding, nif, 0, 1);
    var s1 := Resumed(Adding, 0, 1, PendingPacketFilterAdd);
    ActIs(s1, nif, 0);
    assert Act(s1, nif, 0) == (s1, false);
    ActsOn(s1, nif, 0);
    var s2 := Advance(s1, 0);
    SaidGrows();
    assert s2.req == Quality.req;
    AsksQuality(nif);
  }

  /** The Open about to ask for its quality of service. */
  const Quality: State := Adding.(req := map[0 := Adding.req[0].(state := 6, expected := PendingAny,
    said := Said[..4])])

  lemma AsksQuality(nif: Network)
    requires Ok(Quality) && Acting(Quality, 0) && nif([CreateSecondary, AddCall, RequestQoS(1)]) >= 0
    ensures RunActions(Quality, nif, 0) == Setting
  {
    hide Ok, RunActions, Table, Act;
    OpenTable();
    ActIs(Quality, nif, 0);
    AskedOk(Quality, 0, RequestQoS(1), PendingSetQoS);
    assert [CreateSecondary, AddCall] + [RequestQoS(1)] == [CreateSecondary, AddCall, RequestQoS(1)];
    SaidGrows();
    assert Asked(Quality, 0, RequestQoS(1), PendingSetQoS).req == Setting.req;
    assert Act(Quality, nif, 0) == (Setting, true);
    RunsOnce(Quality, nif, 0);
  }

  lemma RunsOnce(s: State, nif: Network, r: RequestRef)
    requires Ok(s) && Acting(s, r) && Act(s, nif, r).1
    ensures RunActions(s, nif, r) == Act(s, nif, r).0
  {
    hide Ok, Act;
  }

  /** An action that is not the last one the request runs now. */
  lemma RunsOn(s: State, nif: Network, r: RequestRef)
    requires Ok(s) && Acting(s, r) && !Act(s, nif, r).1
    ensures r in Act(s, nif, r).0.req
    ensures var t := Advance(Act(s, nif, r).0, r);
            Ok(t) && Acting(t, r) && RunActions(s, nif, r) == RunActions(t, nif, r)
  {
    hide Ok, Act, Acting, Advance;
    ActContinues(s, nif, r);
  }

  lemma FindsSecond(s: State)
    requires Ok(s) && s.contexts == [0, 1] && 0 in s.ctx && 1 in s.ctx && s.ctx[0].contextId == 0
            && s.ctx[1].contextId == 1
    ensures ContextOf(s, 1) == Some(1)
  {
    hide Ok;
    assert [0, 1][1..] == [1];
  }

  /** The Open waiting for its context to be modified. */
  const Modifying: State := Setting.(controls := [CreateSecondary, AddCall, RequestQoS(1), ModifyActive(1)],
      req := map[0 := Setting.req[0].(state := 7, expected := PendingModifyActive, said := Said[..7])])

  lemma QoSIsSet(nif: Network)
    requires Ok(Setting) && Settled(Setting) && nif([CreateSecondary, AddCall, RequestQoS(1), ModifyActive(1)]) >= 0
    ensures Step(Setting, nif, QoSSet(1, KErrNone)) == Modifying
  {
    hide Ok, RunActions, Table, Reply, Act;
    OpenTable();
    FindsSecond(Setting);
    Replied(Setting, nif, 0, 1);
    var s1 := Resumed(Setting, 0, 1, PendingSetQoS);
    SaidGrows();
    assert s1.req == Committing.req;
    AsksCommit(nif);
  }

  /** The Open about to have its context modified. */
  const Committing: State := Setting.(req := map[0 := Setting.req[0].(state := 7, expected := PendingAny,
    said := Said[..6])])

  lemma AsksCommit(nif: Network)
    requires Ok(Committing) && Acting(Committing, 0)
    requires nif([CreateSecondary, AddCall, RequestQoS(1), ModifyActive(1)]) >= 0
    ensures RunActions(Committing, nif, 0) == Modifying
  {
    hide Ok, RunActions, Table, Act, Asked;
    OpenTable();
    ActIs(Committing, nif, 0);
    AskedOk(Committing, 0, ModifyActive(1), PendingModifyActive);
    CommitAsked();
    assert Act(Committing, nif, 0) == (Modifying, true);
    RunsOnce(Committing, nif, 0);
  }

  lemma CommitAsked()
    ensures Asked(Committing, 0, ModifyActive(1), PendingModifyActive) == Modifying
  {
    assert [CreateSecondary, AddCall, RequestQoS(1)] + [ModifyActive(1)] == Modifying.controls;
    SaidGrows();
    assert Asked(Committing, 0, ModifyActive(1), PendingModifyActive).req == Modifying.req;
  }

  const KeptContext: Context := UpContext.(contextId := 1, channelId := 7, filters := [KeptFilter])

  /** The report has been taken over: the map is that of the reported filter. */
  const Confirming: State := Modifying.(
      ctx := map[0 := UpContext.(flows := [0, 1], refs := 2), 1 := KeptContext],
      marked := Marks([[], [KeptFilter]]))

  lemma ReportTaken()
    requires Ok(Modifying) && ValidSlots(KeptSlots)
    ensures Confirmed(Modifying, 1, KeptReport) == Confirming
  {
    hide Ok, Marks;
    DeleteReady(Modifying);
    assert Occupied(KeptSlots) == [KeptFilter] by {
      KeptOccupied();
    }
    var after := Modifying.ctx[1 := KeptContext];
    assert after == Confirming.ctx;
    assert FilterLists([0, 1], after) == [[], [KeptFilter]];
    assert Reported(Modifying, 1, KeptReport) == Confirming;
    assert Confirming.ctx[1 := KeptContext] == Confirming.ctx;
  }

  lemma KeptOccupied()
    ensures Occupied(KeptSlots) == [KeptFilter] && ValidSlots(KeptSlots)
  {
    var seven: Slots := [None, None, None, None, None, None, None];
    assert KeptSlots[1..] == seven;
    NoneOccupied(seven);
  }

  lemma {:induction false} NoneOccupied(slots: Slots)
    requires forall i :: 0 <= i < |slots| ==> slots[i].None?
    ensures Occupied(slots) == []
  {
    if slots != [] {
      NoneOccupied(slots[1..]);
    }
  }

  /** The first flow has joined the channel's context. */
  const Joining: State := Confirming.(
      ctx := map[0 := UpContext.(flows := [1], refs := 1), 1 := KeptContext.(flows := [0], refs := 1)],
      flows := map[0 := Flow(KeptFilter, Some(1)), 1 := Flow(SecondFilter, Some(0))],
      req := map[0 := Modifying.req[0].(state := 9, expected := PendingAny, flow := None, said := Said)])

  /** The Open has completed, and the second flow can join. */
  const Joined: State := Joining.(pending := [], req := map[], current := None, issued := true,
      upcalls := [RequestComplete(0, Err(KErrNone))], log := [Done(0, Open, Err(KErrNone), false, Said)])

  /** An event that confirms a context is answered by the request being served. */
  lemma ConfirmationReplies(s: State, nif: Network, id: int, c: ContextRef, report: Report)
    requires Ok(s) && Settled(s) && ContextOf(s, id) == Some(c) && c in s.ctx && ValidSlots(report.tft)
    ensures Ok(Confirmed(s, c, report)) && Settled(Confirmed(s, c, report)) && c in Confirmed(s, c, report).ctx
    ensures Step(s, nif, ModifiedActive(id, report, KErrNone))
            == Reply(Confirmed(s, c, report), nif, PendingModifyActive, c, KErrNone)
  {
    hide Ok, Settled, Reply, Confirmed, ValidSlots, ContextOf;
    ConfirmedOk(s, c, report);
  }

  lemma ContextModified(nif: Network)
    requires Ok(Modifying) && Settled(Modifying)
    ensures ValidSlots(KeptSlots) && Step(Modifying, nif, ModifiedActive(1, KeptReport, KErrNone)) == Joined
  {
    hide Ok, Settled, RunActions, Reply, Step, Confirmed, ValidSlots, Marks, Resumed, Acting;
    KeptOccupied();
    FindsSecond(Modifying);
    ConfirmationReplies(Modifying, nif, 1, 1, KeptReport);
    ReportTaken();
    Replied(Confirming, nif, 0, 1);
    FlowMoves(nif);
  }

  lemma FlowMoves(nif: Network)
    requires Ok(Resumed(Confirming, 0, 1, PendingModifyActive))
            && Acting(Resumed(Confirming, 0, 1, PendingModifyActive), 0)
    ensures RunActions(Resumed(Confirming, 0, 1, PendingModifyActive), nif, 0) == Joined
  {
    hide Ok, Table, Marks, RunActions, Act, Acting, Advance;
    var s := Resumed(Confirming, 0, 1, PendingModifyActive);
    FlowJoins(nif);
    RunsOn(s, nif, 0);
    OpenEnds(nif);
    RunsOnce(Joining, nif, 0);
  }

  lemma ActIs(s: State, nif: Network, r: RequestRef)
    requires Ok(s) && Acting(s, r)
    ensures var action := Table(s.req[r].kind)[s.req[r].state];
            && (action == Commit ==> Act(s, nif, r) == ActCommit(s, nif, r))
            && (action == AddSblpParameter ==> Act(s, nif, r) == ActAddSblpParameter(s, nif, r))
            && (action == SetQoS ==> Act(s, nif, r) == ActSetQoS(s, nif, r))
            && (action == AddFlowToContext ==> Act(s, nif, r) == ActAddFlowToContext(s, r))
  {
    hide Ok, Table, ActCommit, ActSetQoS, ActAddSblpParameter, ActAddFlowToContext;
  }

  /** The request that has the flow join. */
  const Joiner: Request := Modifying.req[0].(state := 8, expected := PendingAny, said := Said)

  /** The flow has been linked, and the request still refers to it. */
  const Linking: State := Confirming.(ctx := Joining.ctx, flows := Joining.flows, req := map[0 := Joiner])

  lemma JoinerActs()
    ensures Resumed(Confirming, 0, 1, PendingModifyActive) == Confirming.(req := map[0 := Joiner])
    ensures Joiner.kind == Open && Joiner.state == 8 && Joiner.flow == Some(0) && Joiner.context == Some(1)
  {
    hide Marks;
    SaidGrows();
    assert Resumed(Confirming, 0, 1, PendingModifyActive).req == map[0 := Joiner];
  }

  lemma FlowLinks()
    ensures SetFlowContext(Confirming.(req := map[0 := Joiner]), 0, 1) == Linking
  {
    hide Marks, SetFlowContext;
    FlowMoved(Confirming.(req := map[0 := Joiner]));
  }

  /** The first flow moves from the default context to the second one. */
  lemma FlowMoved(s: State)
    requires s.ctx == map[0 := UpContext.(flows := [0, 1], refs := 2), 1 := KeptContext]
    requires s.flows == map[0 := Flow(KeptFilter, Some(0)), 1 := Flow(SecondFilter, Some(0))]
    requires !s.notifier && s.primary == 0
    ensures SetFlowContext(s, 0, 1)
            == s.(ctx := map[0 := UpContext.(flows := [1], refs := 1), 1 := KeptContext.(flows := [0], refs := 1)],
                  flows := map[0 := Flow(KeptFilter, Some(1)), 1 := Flow(SecondFilter, Some(0))])
  {
    hide SetFlowContext;
    FirstLeaves();
    ContextsLinked(s.ctx);
    FlowsLinked(s.flows);
    FlowLinked(s, s.ctx, s.flows);
  }

  lemma FlowLetGo()
    ensures Advance(SetRequest(Linking, 0, Joiner.(flow := None)), 0) == Joining
  {
    hide Marks;
    assert map[0 := Joiner][0 := Joiner.(flow := None)][0 := Joiner.(flow := None, state := 9)] == Joining.req;
  }

  /** The action that adds the flow to the context. */
  lemma FlowJoins(nif: Network)
    requires Ok(Resumed(Confirming, 0, 1, PendingModifyActive))
            && Acting(Resumed(Confirming, 0, 1, PendingModifyActive), 0)
    ensures var (t, done) := Act(Resumed(Confirming, 0, 1, PendingModifyActive), nif, 0);
            !done && 0 in t.req && Advance(t, 0) == Joining
  {
    hide Ok, Table, Marks, Act, SetFlowContext, Resumed, Advance;
    OpenTable();
    JoinerActs();
    ActIs(Resumed(Confirming, 0, 1, PendingModifyActive), nif, 0);
    FlowLinks();
    FlowLetGo();
  }

  lemma FirstLeaves()
    ensures Without([0, 1], 0) == [1] && [] + [0] == [0]
  {
    assert [0, 1][1..] == [1] && [1][1..] == [];
  }

  lemma ContextsLinked(ctx: map<ContextRef, Context>)
    requires ctx == map[0 := UpContext.(flows := [0, 1], refs := 2), 1 := KeptContext]
    ensures ctx[0 := ctx[0].(flows := [1], refs := 1)][1 := ctx[1].(flows := [0], refs := 1)]
            == map[0 := UpContext.(flows := [1], refs := 1), 1 := KeptContext.(flows := [0], refs := 1)]
  {
  }

  lemma FlowsLinked(flows: map<FlowRef, Flow>)
    requires flows == map[0 := Flow(KeptFilter, Some(0)), 1 := Flow(SecondFilter, Some(0))]
    ensures (flows - {0})[0 := Flow(KeptFilter, Some(1))]
            == map[0 := Flow(KeptFilter, Some(1)), 1 := Flow(SecondFilter, Some(0))]
  {
  }

  lemma FlowLinked(s: State, ctx: map<ContextRef, Context>, flows: map<FlowRef, Flow>)
    requires s.ctx == ctx && s.flows == flows && 0 in ctx && 1 in ctx && 0 in flows && flows[0].context == Some(0)
    requires Without(ctx[0].flows, 0) == [1] && !s.notifier && !ctx[0].expiring && s.primary == 0
    ensures SetFlowContext(s, 0, 1)
            == s.(ctx := ctx[0 := ctx[0].(flows := [1], refs := ctx[0].refs - 1)]
                           [1 := ctx[1].(flows := ctx[1].flows + [0], refs := ctx[1].refs + 1)],
                  flows := (flows - {0})[0 := Flow(flows[0].filter, Some(1))])
  {
    assert s.upcalls + [] == s.upcalls;
  }

  /** The Open completes. */
  lemma OpenEnds(nif: Network)
    requires Ok(Joining) && Acting(Joining, 0)
    ensures Act(Joining, nif, 0) == (Joined, true)
  {
    hide Ok, Table, Marks, RunActions;
    OpenTable();
    assert Without([0], 0) == [] by {
      assert [0][1..] == [];
    }
    assert Joining.req - {0} == map[];
    assert [] + [RequestComplete(0, Err(KErrNone))] == Joined.upcalls
      && [] + [Done(0, Open, Err(KErrNone), false, Said)] == Joined.log;
  }

  /** The second flow can join the channel, and one precedence is marked. */
  lemma JoinedJoinable()
    requires Ok(Joined)
    ensures Joinable(Joined, 1, 7, 1) && Settled(Joined) && Marked(Joined.marked) == {0} && |Joined.controls| == 4
  {
    hide Ok;
    assert FindChannel([0, 1], Joined.ctx, 7) == Some(1) by {
      assert [0, 1][1..] == [1] && [1][1..] == [];
    }
    assert [KeptFilter][0].id == 1;
    assert !UsesId([KeptFilter], 2) && UsesId([KeptFilter], 1);
    KeptMarks();
  }

  lemma KeptMarks()
    ensures Marked(Marks([[], [KeptFilter]])) == {0}
  {
    var lists: seq<seq<PacketFilter>> := [[], [KeptFilter]];
    assert lists[1][0].precedence == 0;
    forall p | p in Marked(Marks(lists)) ensures p == 0 {
      var i, j :| 0 <= i < |lists| && 0 <= j < |lists[i]| && lists[i][j].precedence == p;
    }
  }

  // ---------- the whole run ----------

  /** The first event of a run. */
  lemma FirstEvent(s: State, nif: Network, e: Event, es: seq<Event>)
    requires Ok(s) && Settled(s) && WellFormed(e) && AllWellFormed(es)
    ensures AllWellFormed([e] + es) && Ok(Step(s, nif, e)) && Settled(Step(s, nif, e))
    ensures After(s, nif, [e] + es) == After(Step(s, nif, e), nif, es)
    ensures Honest(s, e) && HonestRun(Step(s, nif, e), nif, es) ==> HonestRun(s, nif, [e] + es)
  {
    hide Ok, Settled, Step, WellFormed, Honest;
    var all := [e] + es;
    assert all[0] == e && all[1..] == es;
    NextReady(s, nif, all);
  }

  /** The network accepts the four calls of the Open. */
  ghost predicate AcceptsOpen(nif: Network) {
    forall log: seq<Control> :: |log| <= 4 ==> nif(log) >= 0
  }

  lemma QuietEvent(s: State, e: Event)
    requires Ok(s) && WellFormed(e) && !e.ParametersChanged? && !e.Activated? && !e.ModifiedActive?
    ensures Honest(s, e)
  {
    hide Ok;
  }

  /** The answers lead from the Open's first call to its completion. */
  lemma AnswersComplete(nif: Network, es: seq<Event>)
    requires Ok(Creating) && Settled(Creating) && AcceptsOpen(nif) && AllWellFormed(es)
    ensures AllWellFormed(Answers() + es) && Ok(Joined) && Settled(Joined)
    ensures After(Creating, nif, Answers() + es) == After(Joined, nif, es)
    ensures HonestRun(Joined, nif, es) ==> HonestRun(Creating, nif, Answers() + es)
  {
    hide Ok, Settled, Step, After, HonestRun, Honest, ValidSlots, Occupied, AllWellFormed;
    KeptOccupied();
    var e1, e2 := SecondaryCreated(1, StatusActive, KErrNone, KErrNone), TftModified(1, AddFilters, KErrNone);
    var e3, e4 := QoSSet(1, KErrNone), ModifiedActive(1, KeptReport, KErrNone);
    var es4 := [e4] + es;
    var es3 := [e3] + es4;
    var es2 := [e2] + es3;
    assert Answers() + es == [e1] + es2;
    OneWellFormed(e4, es);
    OneWellFormed(e3, es4);
    OneWellFormed(e2, es3);
    ContextCreated(nif);
    FirstEvent(Creating, nif, e1, es2);
    FilterAdded(nif);
    FirstEvent(Adding, nif, e2, es3);
    QoSIsSet(nif);
    FirstEvent(Setting, nif, e3, es4);
    ContextModified(nif);
    FirstEvent(Modifying, nif, e4, es);
    QuietEvent(Creating, e1);
    QuietEvent(Adding, e2);
    QuietEvent(Setting, e3);
    ReportIsHonest();
  }

  lemma OneWellFormed(e: Event, es: seq<Event>)
    requires WellFormed(e) && AllWellFormed(es)
    ensures AllWellFormed([e] + es)
  {
  }

  lemma ReportIsHonest()
    requires Ok(Modifying) && WellFormed(ModifiedActive(1, KeptReport, KErrNone))
    ensures Honest(Modifying, ModifiedActive(1, KeptReport, KErrNone))
  {
    hide Ok, ValidSlots, Occupied;
    KeptOccupied();
    FindsSecond(Modifying);
  }

  /** The opening leads from the construction to the Open's first call. */
  lemma OpeningAsks(nif: Network, es: seq<Event>)
    requires Ok(Initial(false)) && Settled(Initial(false)) && AcceptsOpen(nif) && AllWellFormed(es)
    ensures AllWellFormed(Opening() + es) && Ok(Creating) && Settled(Creating)
    ensures After(Initial(false), nif, Opening() + es) == After(Creating, nif, es)
    ensures HonestRun(Creating, nif, es) ==> HonestRun(Initial(false), nif, Opening() + es)
  {
    hide Ok, Settled, Step, After, HonestRun, Honest, AllWellFormed;
    var e1, e2, e3 := PrimaryCreated(StatusActive), OpenFlow(0, FirstFilter), OpenFlow(1, SecondFilter);
    var e4, e5 := OpenChannel(7, 0, false), QueueTimer;
    var es5 := [e5] + es;
    var es4 := [e4] + es5;
    var es3 := [e3] + es4;
    var es2 := [e2] + es3;
    assert Opening() + es == [e1] + es2;
    OneWellFormed(e5, es);
    OneWellFormed(e4, es5);
    OneWellFormed(e3, es4);
    OneWellFormed(e2, es3);
    UpStep(nif);
    FirstEvent(Initial(false), nif, e1, es2);
    OpenFirst(nif);
    FirstEvent(Up, nif, e2, es3);
    OpenSecond(nif);
    FirstEvent(UpOne, nif, e3, es4);
    AskChannel(nif);
    FirstEvent(Opened, nif, e4, es5);
    StartOpen(nif);
    FirstEvent(Queued1, nif, e5, es);
    QuietEvent(Initial(false), e1);
    QuietEvent(Up, e2);
    QuietEvent(UpOne, e3);
    QuietEvent(Opened, e4);
    QuietEvent(Queued1, e5);
  }

  lemma JoinedUnique()
    ensures Unique(Joined)
  {
    KeptMarks();
    assert 0 in Marked(Joined.marked);
  }

  /** A run of the interface, and then `n` Joins that the network refuses and one that it accepts. */
  function Exhausting(n: nat): seq<Event> {
    Opening() + (Answers() + Joins(7, 1, n + 1))
  }

  /**
   From the construction of an interface on, with a network that is honest: identities are
   unique in the end exactly if fewer than 255 Joins have been refused. With 255 the
   precedence of the reported filter and those left marked fill the map.
  */
  lemma ExhaustedFromStart(nif: Network, n: nat)
    requires AcceptsOpen(nif) && Refuses(nif, 4, n)
    ensures AllWellFormed(Exhausting(n)) && HonestFromStart(false, nif, Exhausting(n))
    ensures Unique(Reached(false, nif, Exhausting(n))) <==> n < 255
  {
    hide Ok, Settled, Unique, After, HonestRun, Joinable, Joins, Refuses, AcceptsOpen, AllWellFormed, Opening, Answers;
    InitialOk(false);
    JoinsWellFormed(7, 1, n + 1);
    var es := Answers() + Joins(7, 1, n + 1);
    OpeningReady(nif);
    AnswersComplete(nif, Joins(7, 1, n + 1));
    OpeningAsks(nif, es);
    JoinedJoinable();
    JoinedUnique();
    RefusedJoinsExhaustMap(Joined, nif, 1, 7, 1, n);
  }

  lemma OpeningReady(nif: Network)
    requires AcceptsOpen(nif)
    ensures Ok(Creating) && Settled(Creating)
  {
    hide Ok, Settled, AcceptsOpen;
    InitialOk(false);
    OpeningAsks(nif, []);
  }

  /** A network that refuses `n` calls behind the first four, and accepts all others. */
  function Refusing(n: nat): Network {
    (log: seq<Control>) => if 4 < |log| <= 4 + n then KErrGeneral else KErrNone
  }

  /** So there is a run with an honest network after which identities are not unique. */
  lemma IdentitiesCanBeLost()
    ensures AllWellFormed(Exhausting(255)) && HonestFromStart(false, Refusing(255), Exhausting(255))
    ensures !Unique(Reached(false, Refusing(255), Exhausting(255)))
  {
    hide Ok, Settled, Unique, Reached, HonestFromStart, Exhausting, AllWellFormed;
    ExhaustedFromStart(Refusing(255), 255);
  }
}
