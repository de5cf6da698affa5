/**
 The state of one CNif (telephonyprotocols/gprsumtsqosprt): its PDP contexts, the
 flows attached to them, its request queue, and what it has said so far to the
 network interface below (Control calls) and to the QoS framework above
 (upcalls). Objects are named by references that are never reused; the stores
 `ctx`, `flows` and `req` hold the objects that are alive.
*/
module GuqosState {
  import opened Wrappers
  import opened Sequences
  import opened PacketFilters
  import opened Tft

  type ContextRef = nat
  type FlowRef = nat
  type RequestRef = nat

  // ---------- PDP contexts and flows ----------

  datatype ContextStatus =
    StatusUnknown | StatusInactive | StatusActivating | StatusActive | StatusDeactivating
    | StatusSuspended | StatusDeleted

  datatype TrafficClass = Unspecified | Conversational | Streaming | Interactive | Background

  datatype Negotiated = Negotiated(trafficClass: TrafficClass, priority: int)

  datatype Context = Context(
    contextId: int, channelId: int, status: ContextStatus, blocked: bool,
    flows: seq<FlowRef>, refs: int,
    filters: seq<PacketFilter>, negotiated: Negotiated,
    expiring: bool  // its deletion timer is running
  )

  datatype Flow = Flow(filter: PacketFilter, context: Option<ContextRef>)

  /** CPdpContext::IsFlowBlocked */
  predicate FlowBlocked(c: Context) {
    c.blocked || c.status != StatusActive
  }

  /** CPdpContext::GetQoSRanking, after Annex C of 3GPP TS 23.107: the smaller the better. */
  function Ranking(n: Negotiated): (r: int)
    ensures 1 <= r <= 6
  {
    match n.trafficClass
    case Conversational => 2
    case Streaming => 3
    case Interactive => if n.priority == 1 then 1 else if n.priority == 2 then 4 else 5
    case _ => 6
  }

  // ---------- requests ----------

  datatype Kind = Open | Negotiate | Join | Leave | Close | Delete

  /** TRequest: the reply a request waits for. */
  datatype Expected =
    PendingAny | PendingCreate | PendingSetQoS | PendingModifyActive | PendingActivate
    | PendingPacketFilterAdd | PendingPacketFilterRemove | PendingSblpParameterAdd
    | PendingSblpParameterRemove | PendingTFTRemove

  /** The steps that occur in the action tables. */
  datatype Action =
    RemovePacketFilter | Commit | NewContext | RememberCreatedContext | AddPacketFilter
    | AddSblpParameter | SetQoS | AddFlowToContext | NegotiationComplete
    | StartWithTargetContext | CompleteRequest

  function Table(kind: Kind): seq<Action> {
    match kind
    case Open => [RemovePacketFilter, Commit, NewContext, RememberCreatedContext, AddPacketFilter,
                  AddSblpParameter, SetQoS, Commit, AddFlowToContext, NegotiationComplete]
    case Negotiate => [AddSblpParameter, SetQoS, Commit, NegotiationComplete]
    case Join => [RemovePacketFilter, Commit, StartWithTargetContext, AddPacketFilter, AddFlowToContext,
                  RemovePacketFilter, Commit, CompleteRequest]
    case Leave => [RemovePacketFilter, Commit, CompleteRequest]
    case Close => [RemovePacketFilter, Commit, CompleteRequest]
    case Delete => []
  }

  /** The state an Open starts in when it reuses the flow's own context. */
  const KStateReuseOldContext := 5

  /** Which reply an action that contacts the network interface waits for. */
  predicate WaitsFor(action: Action, expected: Expected) {
    match action
    case RemovePacketFilter => expected == PendingPacketFilterRemove
    case Commit => expected == PendingActivate || expected == PendingModifyActive
    case NewContext => expected == PendingCreate
    case AddPacketFilter => expected == PendingPacketFilterAdd
    case AddSblpParameter => expected == PendingSblpParameterAdd
    case SetQoS => expected == PendingSetQoS
    case _ => false
  }

  /** History: a call of a request that was taken or refused, and what it was answered. */
  datatype Exchange =
    | Called(op: Control)
    | Denied(op: Control, code: int)
    | Answered(reply: Expected)
    | Failed(reply: Expected, reason: int)
    | Strange(reply: Expected)

  datatype Request = Request(
    kind: Kind,
    flow: Option<FlowRef>,          // iFlow
    target: Option<ContextRef>,     // iChannel, iClosing or iDelete
    channelId: int, sblp: bool,
    state: nat,                     // iState
    expected: Expected,             // iExpected
    context: Option<ContextRef>,    // iContext, meaningful while actions run
    modified: bool,                 // iContextModified
    newContext: Option<ContextRef>, // iNewContext of an Open
    added: Option<(ContextRef, PacketFilter)>,  // history: the filter this request asked to add
    said: seq<Exchange>                         // history: its conversation with the network
  )

  function FreshRequest(kind: Kind, flow: Option<FlowRef>, target: Option<ContextRef>, channelId: int,
                        sblp: bool): Request {
    Request(kind, flow, target, channelId, sblp, 0, PendingAny, None, false, None, None, [])
  }

  /** Not started yet. */
  predicate Idle(q: Request) {
    q.state == 0 && q.expected == PendingAny && q.newContext.None? && q.added.None? && q.said == []
  }

  /** Started, and waiting for one specific reply that its current action asked for. */
  predicate Waiting(q: Request) {
    && q.state + 1 < |Table(q.kind)|
    && WaitsFor(Table(q.kind)[q.state], q.expected)
  }

  /** Requests of the module itself carry no listener. */
  predicate Notifies(kind: Kind) {
    kind != Close && kind != Delete
  }

  /** What Cancel(context) looks at. */
  predicate Targets(q: Request, c: ContextRef) {
    if q.kind == Open then q.newContext == Some(c) else q.target == Some(c)
  }

  /** The code a request reports; Join and Leave wrap the reason. */
  datatype Code = Err(code: int) | JoinFailure(reason: int) | LeaveFailure(reason: int)

  function FailureCode(kind: Kind, reason: int): Code {
    match kind
    case Join => JoinFailure(reason)
    case Leave => LeaveFailure(reason)
    case _ => Err(reason)
  }

  datatype Done = Done(request: RequestRef, kind: Kind, code: Code, sblp: bool, said: seq<Exchange>)

  // ---------- what goes down and what goes up ----------

  datatype TftOperation = AddFilters | RemoveFilters | DeleteTft | AddSblp | RemoveSblp | OtherOperation

  datatype Control =
    | ModifyTft(contextId: int, operation: TftOperation, filters: seq<PacketFilter>)
    | RequestQoS(contextId: int)
    | Activate(contextId: int)
    | ModifyActive(contextId: int)
    | CreateSecondary
    | DeleteContext(contextId: int)

  /** The network interface answers a call as it likes, knowing all calls so far. */
  type Network = seq<Control> -> int

  datatype Upcall =
    | RequestComplete(request: RequestRef, code: Code)
    | Refused(reason: int)
    | BlockFlow(flow: FlowRef)
    | UnBlockFlow(flow: FlowRef)
    | NotifyChannel(channelId: int, failure: bool, reason: int)
    | NotifyFlow(flow: FlowRef, failure: bool, reason: int)

  datatype State = State(
    contexts: seq<ContextRef>,            // iContexts
    ctx: map<ContextRef, Context>,
    primary: ContextRef,                  // iPrimary
    flows: map<FlowRef, Flow>,
    pending: seq<RequestRef>,             // iPending
    req: map<RequestRef, Request>,
    current: Option<RequestRef>,          // iCurrentRequest
    ready: bool,                          // iStatus == EReady
    issued: bool,                         // the zero-delay callback is set
    marked: seq<bool>,                    // iEvaluationPrecedenceMap
    notifier: bool,                       // the QoS framework has installed its event interface
    nextContext: ContextRef, nextRequest: RequestRef,
    controls: seq<Control>,
    upcalls: seq<Upcall>,
    log: seq<Done>                        // history: requests destructed, in order
  )

  const PrimaryContext: Context :=
    Context(0, 0, StatusUnknown, false, [], 0, [], Negotiated(Unspecified, 0), false)

  function Initial(notifier: bool): State {
    State([0], map[0 := PrimaryContext], 0, map[], [], map[], None, false, false,
          seq(KMaxEvaluationPrecedences, _ => false), notifier, 1, 0, [], [], [])
  }

  // ---------- reading the traces ----------

  /** What flow `f` was last told: `Some(true)` blocked, `Some(false)` not blocked. */
  function LastTold(upcalls: seq<Upcall>, f: FlowRef): Option<bool> {
    if upcalls == [] then None
    else
      var last := upcalls[|upcalls| - 1];
      if last == BlockFlow(f) then Some(true)
      else if last == UnBlockFlow(f) then Some(false)
      else LastTold(upcalls[..|upcalls| - 1], f)
  }

  /** How often the completion of `r` was delivered. */
  function Deliveries(upcalls: seq<Upcall>, r: RequestRef): nat {
    if upcalls == [] then 0
    else
      var last := upcalls[|upcalls| - 1];
      Deliveries(upcalls[..|upcalls| - 1], r) + (if last.RequestComplete? && last.request == r then 1 else 0)
  }

  function Tell(f: FlowRef, blocked: bool): Upcall {
    if blocked then BlockFlow(f) else UnBlockFlow(f)
  }

  /** One block or unblock upcall for each flow of a list. */
  function Announce(flows: seq<FlowRef>, blocked: bool): (r: seq<Upcall>)
    ensures |r| == |flows|
  {
    if flows == [] then []
    else Announce(flows[..|flows| - 1], blocked) + [Tell(flows[|flows| - 1], blocked)]
  }

  /** The upcalls of `more` are not about blocking or completion, or there are none. */
  ghost predicate OnlyEvents(more: seq<Upcall>) {
    forall i :: 0 <= i < |more| ==> more[i].NotifyChannel? || more[i].NotifyFlow? || more[i].Refused?
  }

  lemma TraceStep(upcalls: seq<Upcall>, u: Upcall)
    ensures forall f :: LastTold(upcalls + [u], f) == if u == BlockFlow(f) then Some(true)
                                                      else if u == UnBlockFlow(f) then Some(false)
                                                      else LastTold(upcalls, f)
    ensures forall r :: Deliveries(upcalls + [u], r) ==
                        Deliveries(upcalls, r) + (if u.RequestComplete? && u.request == r then 1 else 0)
  {
    assert (upcalls + [u])[..|upcalls|] == upcalls;
  }

  lemma {:induction false} TraceAnnounce(upcalls: seq<Upcall>, flows: seq<FlowRef>, blocked: bool)
    ensures forall f :: LastTold(upcalls + Announce(flows, blocked), f) ==
                        if f in flows then Some(blocked) else LastTold(upcalls, f)
    ensures forall r :: Deliveries(upcalls + Announce(flows, blocked), r) == Deliveries(upcalls, r)
  {
    if flows == [] {
      assert upcalls + Announce(flows, blocked) == upcalls;
    } else {
      var n := |flows| - 1;
      TraceAnnounce(upcalls, flows[..n], blocked);
      var before := upcalls + Announce(flows[..n], blocked);
      TraceStep(before, Tell(flows[n], blocked));
      assert upcalls + Announce(flows, blocked) == before + [Tell(flows[n], blocked)];
      assert flows == flows[..n] + [flows[n]];
    }
  }

  lemma {:induction false} TraceEvents(upcalls: seq<Upcall>, more: seq<Upcall>)
    requires OnlyEvents(more)
    ensures forall f :: LastTold(upcalls + more, f) == LastTold(upcalls, f)
    ensures forall r :: Deliveries(upcalls + more, r) == Deliveries(upcalls, r)
  {
    if more == [] {
      assert upcalls + more == upcalls;
    } else {
      var n := |more| - 1;
      TraceEvents(upcalls, more[..n]);
      TraceStep(upcalls + more[..n], more[n]);
      assert upcalls + more == (upcalls + more[..n]) + [more[n]];
    }
  }

  // ---------- the invariant ----------

  /** Contexts and flows point at each other, and every flow is in exactly one list. */
  ghost predicate Linked(contexts: seq<ContextRef>, ctx: map<ContextRef, Context>, flows: map<FlowRef, Flow>) {
    && NoDup(contexts)
    && (forall c :: c in contexts <==> c in ctx)
    && (forall c :: c in ctx ==> NoDup(ctx[c].flows) && ctx[c].refs == |ctx[c].flows|)
    && (forall c, f :: c in ctx && f in ctx[c].flows ==> f in flows && flows[f].context == Some(c))
    && (forall f :: f in flows ==> flows[f].context.Some? && flows[f].context.value in ctx
                                   && f in ctx[flows[f].context.value].flows)
  }

  /** The queue holds exactly the live requests; only its head may have started. */
  ghost predicate Queued(pending: seq<RequestRef>, req: map<RequestRef, Request>, current: Option<RequestRef>) {
    && NoDup(pending)
    && (forall r :: r in pending <==> r in req)
    && (current.Some? ==> pending != [] && pending[0] == current.value)
    && (forall r :: r in req && current != Some(r) ==> Idle(req[r]))
  }

  /** No request refers to a dead context or flow; only an Open has a context of its own making. */
  ghost predicate NoDangling(req: map<RequestRef, Request>, contexts: set<ContextRef>, flows: set<FlowRef>) {
    forall r :: r in req ==>
      && (req[r].flow.Some? ==> req[r].flow.value in flows)
      && (req[r].target.Some? ==> req[r].target.value in contexts)
      && (req[r].newContext.Some? ==> req[r].newContext.value in contexts)
      && (if req[r].kind == Open then req[r].target.None? else req[r].newContext.None?)
  }

  ghost predicate Logged(log: seq<Done>, r: RequestRef) {
    exists i :: 0 <= i < |log| && log[i].request == r
  }

  ghost predicate LoggedLoud(log: seq<Done>, r: RequestRef) {
    exists i :: 0 <= i < |log| && log[i].request == r && Notifies(log[i].kind)
  }

  /** Every request ever added is either alive or destructed once, and its completion was delivered once. */
  ghost predicate ExactlyOnce(log: seq<Done>, live: set<RequestRef>, next: nat, upcalls: seq<Upcall>) {
    && (forall i, j :: 0 <= i < j < |log| ==> log[i].request != log[j].request)
    && (forall r: nat :: r < next <==> r in live || Logged(log, r))
    && (forall r: nat :: r in live ==> !Logged(log, r))
    && (forall r: nat :: Deliveries(upcalls, r) == if LoggedLoud(log, r) then 1 else 0)
  }

  /** Every flow was last told what its context's blocking state is now. */
  ghost predicate Mirrored(ctx: map<ContextRef, Context>, flows: map<FlowRef, Flow>, upcalls: seq<Upcall>) {
    forall f :: f in flows && flows[f].context.Some? && flows[f].context.value in ctx ==>
      LastTold(upcalls, f) == Some(FlowBlocked(ctx[flows[f].context.value]))
  }

  /** A template keeps identifiers distinct, so the filters of a context are. */
  ghost predicate FiltersFit(ctx: map<ContextRef, Context>) {
    forall c :: c in ctx ==> |ctx[c].filters| <= KMaxPacketFilters && DistinctIds(ctx[c].filters)
  }

  /** Whenever a request could be started, the callback that starts it is set. */
  predicate Awake(s: State) {
    s.ready && s.pending != [] && s.current.None? ==> s.issued
  }

  ghost predicate Ok(s: State) {
    && Linked(s.contexts, s.ctx, s.flows)
    && s.primary in s.ctx
    && Queued(s.pending, s.req, s.current)
    && NoDangling(s.req, s.ctx.Keys, s.flows.Keys)
    && ExactlyOnce(s.log, s.req.Keys, s.nextRequest, s.upcalls)
    && (s.notifier ==> Mirrored(s.ctx, s.flows, s.upcalls))
    && FiltersFit(s.ctx)
    && (forall c :: c in s.ctx ==> c < s.nextContext)
    && |s.marked| == KMaxEvaluationPrecedences
    && Awake(s)
  }

  /** Between events, a started request waits for one specific reply. */
  ghost predicate Settled(s: State) {
    s.current.Some? ==> s.current.value in s.req && Waiting(s.req[s.current.value])
  }

  // ---------- filter identity ----------

  /** The filter that the request being served has asked the network to add, if any. */
  function InFlight(req: map<RequestRef, Request>, current: Option<RequestRef>): Option<(ContextRef, PacketFilter)> {
    if current.Some? && current.value in req then req[current.value].added else None
  }

  predicate IdentityInRange(f: PacketFilter) {
    1 <= f.id <= 8 && 0 <= f.precedence < KMaxEvaluationPrecedences
  }

  /** Filters of the interface have distinct evaluation precedences, all of them marked as used. */
  ghost predicate PrecedencesDistinct(ctx: map<ContextRef, Context>, marked: seq<bool>) {
    && |marked| == KMaxEvaluationPrecedences
    && (forall c, i :: c in ctx && 0 <= i < |ctx[c].filters| ==>
          IdentityInRange(ctx[c].filters[i]) && marked[ctx[c].filters[i].precedence])
    && (forall c, i, d, j ::
       c in ctx && 0 <= i < |ctx[c].filters| && d in ctx && 0 <= j < |ctx[d].filters| && (c != d || i != j) ==>
          ctx[c].filters[i].precedence != ctx[d].filters[j].precedence)
  }

  /** A filter in flight clashes with no filter but itself. */
  ghost predicate NoClash(ctx: map<ContextRef, Context>, added: Option<(ContextRef, PacketFilter)>) {
    added.Some? ==>
      && IdentityInRange(added.value.1)
      && (forall c, i :: c in ctx && 0 <= i < |ctx[c].filters| ==>
            || (c == added.value.0 && ctx[c].filters[i] == added.value.1)
            || (ctx[c].filters[i].precedence != added.value.1.precedence
                && (c == added.value.0 ==> ctx[c].filters[i].id != added.value.1.id)))
  }

  ghost predicate Unique(s: State) {
    && PrecedencesDistinct(s.ctx, s.marked)
    && NoClash(s.ctx, InFlight(s.req, s.current))
  }

  // ---------- room in the precedence map ----------

  /** Requests of these kinds ask for at most one new filter. */
  predicate Adds(kind: Kind) {
    kind == Open || kind == Join
  }

  /** The state of the table in which they do. */
  function AddingState(kind: Kind): nat {
    match kind
    case Open => 4
    case Join => 3
    case _ => |Table(kind)|
  }

  /** The request has not asked for its filter yet, and may still do so. */
  predicate Owing(q: Request) {
    Adds(q.kind) && q.added.None?
  }

  /** The precedences that are marked, and the one in flight. */
  function Taken(marked: seq<bool>, added: Option<(ContextRef, PacketFilter)>): set<int> {
    set p | 0 <= p < |marked| && (marked[p] || (added.Some? && added.value.1.precedence == p))
  }

  function Owed(req: map<RequestRef, Request>): set<RequestRef> {
    set r | r in req && Owing(req[r])
  }

  /** How much of the precedence map is used up or may be, once the queue has been served. */
  function Load(s: State): nat {
    |Taken(s.marked, InFlight(s.req, s.current))| + |Owed(s.req)|
  }

  /** Only a request that has come to its adding state has a filter in flight. */
  ghost predicate Timely(req: map<RequestRef, Request>) {
    forall r :: r in req && req[r].added.Some? ==> AddingState(req[r].kind) <= req[r].state
  }

  /** Identities are unique, and the map has room for every request in the queue. */
  ghost predicate Fit(s: State) {
    Unique(s) && Load(s) <= KMaxEvaluationPrecedences && Timely(s.req)
  }

  /** From a state that is fit on, the load does not grow. */
  ghost predicate StaysFit(s: State, t: State) {
    Fit(s) ==> Fit(t) && Load(t) <= Load(s)
  }

  lemma InitialOk(notifier: bool)
    ensures Ok(Initial(notifier)) && Settled(Initial(notifier)) && Fit(Initial(notifier))
    ensures Load(Initial(notifier)) == 0
  {
    var s := Initial(notifier);
    assert Taken(s.marked, None) == {} && Owed(s.req) == {};
  }
}
