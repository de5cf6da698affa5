/**
 How the precedence map runs full: a Join that the network refuses leaves its
 precedence marked, no report clears it, and after as many refusals as the map has
 entries the next filter is sent without a precedence.
*/
module GuqosExhaustion {
  import opened Wrappers
  import opened Sequences
  import opened PacketFilters
  import opened Tft
  import opened GuqosState
  import opened GuqosHeap
  import opened GuqosRequests
  import opened GuqosSteps
  import opened GuqosLoops
  import opened GuqosEvents
  import opened GuqosRuns
  import opened GuqosTheorems

  /** An idle interface with a channel that flow `f` on the default context can join, with a filter of its own. */
  ghost predicate Joinable(s: State, f: FlowRef, channelId: int, c: ContextRef) {
    && Ok(s) && s.ready && s.pending == [] && s.req == map[] && s.current.None?
    && f in s.flows && s.primary in s.ctx && s.flows[f].context == Some(s.primary)
    && s.ctx[s.primary].status == StatusActive && s.ctx[s.primary].filters == []
    && c in s.ctx && c != s.primary && Channel(s, channelId) == Some(c)
    && LastMatch(s.flows[f].filter, s.ctx[c].filters) < 0 && FreeId(s.ctx[c].filters) >= 0
  }

  // ---------- the actions of a Join up to its filter ----------

  lemma NothingToRemove(s: State, nif: Network, r: RequestRef)
    requires Ok(s) && Acting(s, r) && Table(s.req[r].kind)[s.req[r].state] == RemovePacketFilter
    requires s.primary in s.ctx && s.req[r].context == Some(s.primary) && s.ctx[s.primary].filters == []
    requires s.req[r].flow.Some? ==>
            s.req[r].flow.value in s.flows && s.flows[s.req[r].flow.value].context == Some(s.primary)
    ensures Act(s, nif, r) == (s, false)
  {
    hide Ok, OwnFilters, Ask;
    DeleteReady(s);
    RehomeOk(s, r, s.primary);
    assert Rehome(s, r, s.primary) == s;
    assert UnneededFilters(s, s.primary, s.req[r].flow) == [];
  }

  lemma NothingToCommit(s: State, nif: Network, r: RequestRef)
    requires Ok(s) && Acting(s, r) && Table(s.req[r].kind)[s.req[r].state] == Commit
    requires s.req[r].context.Some? && s.ctx[s.req[r].context.value].status == StatusActive && !s.req[r].modified
    ensures Act(s, nif, r) == (s, false)
  {
    hide Ok, Ask;
  }

  /** The Join about to add its filter: in state 3, on the context of its channel. */
  function AtFilter(q: Request): Request {
    q.(context := q.target, modified := false, state := 3)
  }

  /** A Join at its start, whose flow leaves nothing behind on the default context. */
  ghost predicate Leaving(s: State, r: RequestRef) {
    && Ok(s) && Acting(s, r) && s.req[r].kind == Join && !s.req[r].modified
    && s.primary in s.ctx && s.req[r].context == Some(s.primary) && s.ctx[s.primary].filters == []
    && s.ctx[s.primary].status == StatusActive
    && (s.req[r].flow.Some? ==>
          s.req[r].flow.value in s.flows && s.flows[s.req[r].flow.value].context == Some(s.primary))
  }

  /** It removes nothing and commits nothing. */
  lemma JoinLeaves(s: State, nif: Network, r: RequestRef)
    requires Leaving(s, r) && s.req[r].state < 2
    ensures Leaving(Advance(s, r), r) && RunActions(s, nif, r) == RunActions(Advance(s, r), nif, r)
  {
    hide Ok, Act, Table;
    JoinTable();
    if s.req[r].state == 0 {
      NothingToRemove(s, nif, r);
    } else {
      NothingToCommit(s, nif, r);
    }
    ActContinues(s, nif, r);
  }

  /** So it comes to its filter at once. */
  lemma JoinComesToFilter(s: State, nif: Network, r: RequestRef)
    requires Leaving(s, r) && s.req[r].state == 0 && s.req[r].target.Some? && s.req[r].target != Some(s.primary)
    ensures var t := SetRequest(s, r, AtFilter(s.req[r]));
            Ok(t) && Acting(t, r) && RunActions(s, nif, r) == RunActions(t, nif, r)
  {
    hide Ok, Act, Table;
    JoinTable();
    JoinLeaves(s, nif, r);
    var s1 := Advance(s, r);
    JoinLeaves(s1, nif, r);
    var s2 := Advance(s1, r);
    TargetActs(s2, nif, r);
    ActContinues(s2, nif, r);
    assert Advance(Act(s2, nif, r).0, r) == SetRequest(s, r, AtFilter(s.req[r]));
  }

  lemma JoinTable()
    ensures var table := Table(Join);
            && |table| == 8 && table[0] == RemovePacketFilter && table[1] == Commit
            && table[2] == StartWithTargetContext
  {
  }

  lemma TargetActs(s: State, nif: Network, r: RequestRef)
    requires Ok(s) && Acting(s, r) && Table(s.req[r].kind)[s.req[r].state] == StartWithTargetContext
    ensures Act(s, nif, r) == (SetRequest(s, r, WithContext(s.req[r], s.req[r].target)), false)
  {
    hide Ok;
  }

  // ---------- one Join ----------

  /** The filter that the Join sends: flow `f`'s, with the least free identifier and precedence. */
  function SentFilter(s: State, f: FlowRef, c: ContextRef): PacketFilter
    requires f in s.flows && c in s.ctx
  {
    s.flows[f].filter.(id := FreeId(s.ctx[c].filters), precedence := FreePrecedence(s.marked))
  }

  function Sent(s: State, f: FlowRef, c: ContextRef): Control
    requires f in s.flows && c in s.ctx
  {
    ModifyTft(s.ctx[c].contextId, AddFilters, [SentFilter(s, f, c)])
  }

  /** The Join as its action comes to it. */
  function Arrived(s: State, f: FlowRef, c: ContextRef): State {
    var q := AtFilter(FreshRequest(Join, Some(f), Some(c), 0, false));
    s.(pending := [s.nextRequest], req := map[s.nextRequest := q], nextRequest := s.nextRequest + 1,
       issued := false, current := Some(s.nextRequest))
  }

  /** The call has been made and its callback has fired. */
  function Fired(s: State, f: FlowRef, c: ContextRef): State {
    AddRequest(s, FreshRequest(Join, Some(f), Some(c), 0, false)).(issued := false)
  }

  lemma JoinAdded(s: State, nif: Network, f: FlowRef, channelId: int, c: ContextRef)
    requires Joinable(s, f, channelId, c) && Settled(s)
    ensures OkAsleep(Fired(s, f, c)) && Fired(s, f, c).pending == [s.nextRequest]
    ensures var a := Step(s, nif, JoinChannel(channelId, f));
            && Ok(a) && Settled(a)
            && Step(a, nif, QueueTimer) == RunPending(Fired(s, f, c), nif)
  {
    hide Ok, OkAsleep, Channel, LastMatch, FreeId, RunPending, Waiting;
    StepSound(s, nif, JoinChannel(channelId, f));
    FireOk(Step(s, nif, JoinChannel(channelId, f)));
    assert s.pending + [s.nextRequest] == [s.nextRequest];
  }

  /** The Join comes to its filter as soon as it is started. */
  lemma JoinStarted(s: State, nif: Network, f: FlowRef, channelId: int, c: ContextRef)
    requires Joinable(s, f, channelId, c) && OkAsleep(Fired(s, f, c)) && Fired(s, f, c).pending == [s.nextRequest]
    ensures var b := Fired(s, f, c).(current := Some(s.nextRequest));
            var m := Arrived(s, f, c);
            && Ok(b) && s.nextRequest in b.req && Idle(b.req[s.nextRequest]) && Ok(m) && Acting(m, s.nextRequest)
            && Start(b, nif, s.nextRequest) == RunActions(m, nif, s.nextRequest)
  {
    hide Ok, OkAsleep, Channel, LastMatch, FreeId, RunActions, Waiting;
    var r := s.nextRequest;
    PickHead(Fired(s, f, c));
    var b := Fired(s, f, c).(current := Some(r));
    BegunOk(b, r);
    var begun := SetRequest(b, r, Begun(b, r));
    assert Begun(b, r) == b.req[r].(context := Some(s.primary));
    JoinComesToFilter(begun, nif, r);
    assert SetRequest(begun, r, AtFilter(begun.req[r])) == Arrived(s, f, c);
  }

  /** The call and the callback that serves it lead to the filter action. */
  lemma JoinServed(s: State, nif: Network, f: FlowRef, channelId: int, c: ContextRef)
    requires Joinable(s, f, channelId, c) && Settled(s)
    ensures var a := Step(s, nif, JoinChannel(channelId, f));
            && Ok(a) && Settled(a)
            && var m := Arrived(s, f, c);
               && Ok(m) && Acting(m, s.nextRequest)
               && var t := RunActions(m, nif, s.nextRequest);
                  t.current.Some? || t.pending == [] ==> Step(a, nif, QueueTimer) == t
  {
    hide Ok, OkAsleep, Joinable, Settled, Step, Acting, Arrived, RunActions, Start, RunPending, Idle;
    JoinAdded(s, nif, f, channelId, c);
    JoinStarted(s, nif, f, channelId, c);
    JoinableReady(s, f, channelId, c);
    RunPendingOnce(Fired(s, f, c), nif);
  }

  lemma JoinableReady(s: State, f: FlowRef, channelId: int, c: ContextRef)
    requires Joinable(s, f, channelId, c)
    ensures s.ready && s.current.None?
  {
  }

  /** Serving a queue of one request is starting it. */
  lemma RunPendingOnce(s: State, nif: Network)
    requires OkAsleep(s) && s.ready && s.current.None? && |s.pending| == 1
    requires var m := s.(current := Some(s.pending[0])); Ok(m) && s.pending[0] in m.req && Idle(m.req[s.pending[0]])
    ensures var t := Start(s.(current := Some(s.pending[0])), nif, s.pending[0]);
            t.current.Some? || t.pending == [] ==> RunPending(s, nif) == t
  {
    hide Ok, OkAsleep, Start, Idle;
    ServedRound(s, nif);
  }

  /** The filter action of the Join: one reservation and one call. */
  lemma JoinAsks(s: State, nif: Network, f: FlowRef, channelId: int, c: ContextRef)
    requires Joinable(s, f, channelId, c)
    requires Ok(Arrived(s, f, c)) && Acting(Arrived(s, f, c), s.nextRequest)
    ensures var m := Arrived(s, f, c);
            var r := s.nextRequest;
            && r in m.req && c in m.ctx && f in m.flows
            && Ok(Reserved(m, r, c, f)) && Reserved(m, r, c, f).current == Some(r) && r in Reserved(m, r, c, f).req
            && c in Reserved(m, r, c, f).ctx
            && RunActions(m, nif, r)
               == Ask(Reserved(m, r, c, f), nif, r, Sent(s, f, c), PendingPacketFilterAdd, Some(c))
  {
    hide Ok, Channel, LastMatch, FreeId, FreePrecedence, Ask, Reserve;
    var m := Arrived(s, f, c);
    var r := s.nextRequest;
    ReservedOk(m, r, c, f);
    assert Act(m, nif, r) == ActAddPacketFilter(m, nif, r);
  }

  /** The interface after the network has refused the filter. */
  function Refused(s: State, nif: Network, f: FlowRef, c: ContextRef): State
    requires f in s.flows && c in s.ctx
  {
    var r := s.nextRequest;
    var m := Arrived(s, f, c);
    var op := Sent(s, f, c);
    var code := nif(s.controls + [op]);
    Destruct(Heard(Asked(Reserved(m, r, c, f), r, op, PendingPacketFilterAdd), r, Denied(op, code)), r,
             JoinFailure(code))
  }

  lemma RefusedShape(s: State, nif: Network, f: FlowRef, c: ContextRef)
    requires f in s.flows && c in s.ctx
    ensures var t := Refused(s, nif, f, c);
            && t.pending == [] && t.req == map[] && t.current.None?
            && t.marked == Reserve(s.marked, FreePrecedence(s.marked))
            && t.controls == s.controls + [Sent(s, f, c)]
            && t.ready == s.ready && t.primary == s.primary && t.contexts == s.contexts && t.ctx == s.ctx
            && t.flows == s.flows[f := s.flows[f].(filter := SentFilter(s, f, c))]
  {
    hide FreePrecedence, FreeId, Reserve;
    var r := s.nextRequest;
    assert [r][1..] == [];
  }

  /** Whether a filter covers a flow does not depend on the flow's own identity. */
  lemma {:induction false} LastMatchSame(a: PacketFilter, b: PacketFilter, filters: seq<PacketFilter>, n: nat)
    requires n <= |filters| && b == a.(id := b.id, precedence := b.precedence)
    ensures LastMatchUpTo(b, filters, n) == LastMatchUpTo(a, filters, n)
  {
    if n > 0 {
      LastMatchSame(a, b, filters, n - 1);
    }
  }

  /** A refused Join leaves everything as it was, but for one more precedence that is marked. */
  lemma RefusedJoin(s: State, nif: Network, f: FlowRef, channelId: int, c: ContextRef)
    requires Joinable(s, f, channelId, c) && Settled(s) && nif(s.controls + [Sent(s, f, c)]) < 0
    ensures var a := Step(s, nif, JoinChannel(channelId, f));
            && Ok(a) && Settled(a)
            && var t := Step(a, nif, QueueTimer);
               && Joinable(t, f, channelId, c) && Settled(t)
               && t.marked == Reserve(s.marked, FreePrecedence(s.marked))
               && t.controls == s.controls + [Sent(s, f, c)]
  {
    hide Ok, FindChannel, LastMatchUpTo, FreeId, FreePrecedence, RunActions, Waiting, Reserve, Arrived, Refused, Step,
      Sent;
    JoinServed(s, nif, f, channelId, c);
    JoinAsks(s, nif, f, channelId, c);
    RefusedShape(s, nif, f, c);
    RefusedAsk(s, nif, f, c);
    var a := Step(s, nif, JoinChannel(channelId, f));
    StepSound(a, nif, QueueTimer);
    var t := Step(a, nif, QueueTimer);
    DeleteReady(t);
    LastMatchSame(s.flows[f].filter, t.flows[f].filter, s.ctx[c].filters, |s.ctx[c].filters|);
  }

  lemma RefusedAsk(s: State, nif: Network, f: FlowRef, c: ContextRef)
    requires f in s.flows && c in s.ctx && nif(s.controls + [Sent(s, f, c)]) < 0
    requires var m := Reserved(Arrived(s, f, c), s.nextRequest, c, f);
            Ok(m) && m.current == Some(s.nextRequest) && c in m.ctx
    ensures Ask(Reserved(Arrived(s, f, c), s.nextRequest, c, f), nif, s.nextRequest, Sent(s, f, c),
            PendingPacketFilterAdd, Some(c))
            == Refused(s, nif, f, c)
  {
    hide Ok, Destruct, FreePrecedence, FreeId, Reserve, Sent;
    var m := Reserved(Arrived(s, f, c), s.nextRequest, c, f);
    AskedOk(m, s.nextRequest, Sent(s, f, c), PendingPacketFilterAdd);
  }

  /** An accepted Join waits with its filter in flight. */
  lemma AcceptedJoin(s: State, nif: Network, f: FlowRef, channelId: int, c: ContextRef)
    requires Joinable(s, f, channelId, c) && Settled(s) && nif(s.controls + [Sent(s, f, c)]) >= 0
    ensures var a := Step(s, nif, JoinChannel(channelId, f));
            && Ok(a) && Settled(a)
            && var t := Step(a, nif, QueueTimer);
               InFlight(t.req, t.current) == Some((c, SentFilter(s, f, c)))
  {
    hide Ok, Channel, LastMatch, FreeId, FreePrecedence, RunActions, Waiting, Reserve, Step;
    JoinServed(s, nif, f, channelId, c);
    JoinAsks(s, nif, f, channelId, c);
    var m := Reserved(Arrived(s, f, c), s.nextRequest, c, f);
    AskedOk(m, s.nextRequest, Sent(s, f, c), PendingPacketFilterAdd);
  }

  // ---------- many Joins ----------

  /** The flow is joined to the channel, again and again. */
  function Joins(channelId: int, f: FlowRef, n: nat): seq<Event> {
    if n == 0 then [] else [JoinChannel(channelId, f), QueueTimer] + Joins(channelId, f, n - 1)
  }

  lemma {:induction false} JoinsWellFormed(channelId: int, f: FlowRef, n: nat)
    ensures AllWellFormed(Joins(channelId, f, n))
    ensures Calls(Joins(channelId, f, n)) == n
  {
    if n > 0 {
      JoinsWellFormed(channelId, f, n - 1);
      var rest := Joins(channelId, f, n - 1);
      assert Joins(channelId, f, n)[1..] == [QueueTimer] + rest && ([QueueTimer] + rest)[1..] == rest;
    }
  }

  /** The network refuses the next `n` calls, and accepts the one after them. */
  ghost predicate Refuses(nif: Network, from: nat, n: nat) {
    && (forall log: seq<Control> :: from < |log| <= from + n ==> nif(log) < 0)
    && (forall log: seq<Control> :: |log| == from + n + 1 ==> nif(log) >= 0)
  }

  /** The state two events later. */
  lemma AfterTwo(s: State, nif: Network, a: Event, b: Event, es: seq<Event>)
    requires Ok(s) && Settled(s) && AllWellFormed([a, b] + es)
    requires !a.ParametersChanged? && !a.Activated? && !a.ModifiedActive?
    requires !b.ParametersChanged? && !b.Activated? && !b.ModifiedActive?
    ensures AllWellFormed(es) && Ok(Step(s, nif, a)) && Settled(Step(s, nif, a))
    ensures var t := Step(Step(s, nif, a), nif, b);
            && Ok(t) && Settled(t)
            && After(s, nif, [a, b] + es) == After(t, nif, es)
            && (HonestRun(t, nif, es) ==> HonestRun(s, nif, [a, b] + es))
  {
    hide Ok, Settled, Step;
    var all := [a, b] + es;
    assert all[0] == a && all[1..] == [b] + es && all[1..][1..] == es;
    NextReady(s, nif, all);
    NextReady(Step(s, nif, a), nif, all[1..]);
  }

  /** After `n` refused Joins and one accepted, the filter in flight has the precedence that is left then. */
  lemma {:induction false} RefusedJoins(s: State, nif: Network, f: FlowRef, channelId: int, c: ContextRef, n: nat)
    requires Joinable(s, f, channelId, c) && Settled(s) && Refuses(nif, |s.controls|, n)
    ensures AllWellFormed(Joins(channelId, f, n + 1)) && HonestRun(s, nif, Joins(channelId, f, n + 1))
    ensures var t := After(s, nif, Joins(channelId, f, n + 1));
            var added := InFlight(t.req, t.current);
            added.Some? && added.value.1.precedence == FreePrecedence(ReserveMany(s.marked, n))
    decreases n
  {
    hide Ok, Joinable, Settled, Step, FreePrecedence, Reserve, SentFilter, Sent, WellFormed;
    JoinsWellFormed(channelId, f, n + 1);
    JoinableOk(s, f, channelId, c);
    AfterTwo(s, nif, JoinChannel(channelId, f), QueueTimer, Joins(channelId, f, n));
    if n == 0 {
      AcceptedJoin(s, nif, f, channelId, c);
      SentPrecedence(s, f, c);
    } else {
      RefusedJoin(s, nif, f, channelId, c);
      RefusedJoins(Step(Step(s, nif, JoinChannel(channelId, f)), nif, QueueTimer), nif, f, channelId, c, n - 1);
    }
  }

  lemma JoinableOk(s: State, f: FlowRef, channelId: int, c: ContextRef)
    requires Joinable(s, f, channelId, c)
    ensures Ok(s) && f in s.flows && c in s.ctx && |s.marked| == KMaxEvaluationPrecedences
    ensures s.req == map[] && s.current.None?
  {
    hide Linked, Queued, NoDangling, ExactlyOnce, Mirrored;
  }

  lemma SentPrecedence(s: State, f: FlowRef, c: ContextRef)
    requires f in s.flows && c in s.ctx
    ensures SentFilter(s, f, c).precedence == FreePrecedence(s.marked)
  {
  }

  /**
   The exact room of the map, over whole runs: with `n` Joins refused and the next one
   accepted, none of which the network ever reports, identities stay unique exactly if
   the marked precedences and the refused Joins are fewer than the map has entries.
  */
  lemma RefusedJoinsExhaustMap(s: State, nif: Network, f: FlowRef, channelId: int, c: ContextRef, n: nat)
    requires Joinable(s, f, channelId, c) && Settled(s) && Unique(s) && Refuses(nif, |s.controls|, n)
    ensures var es := Joins(channelId, f, n + 1);
            && AllWellFormed(es) && HonestRun(s, nif, es)
            && (Unique(After(s, nif, es)) <==> |Marked(s.marked)| + n < KMaxEvaluationPrecedences)
  {
    hide Ok, Joinable, Settled, After, FreePrecedence, ReserveMany, Joins, Unique, Load, Marked, Refuses, HonestRun,
      AllWellFormed;
    RefusedJoins(s, nif, f, channelId, c, n);
    ReserveManyMarks(s.marked, n);
    FreeExactlyWhenRoom(ReserveMany(s.marked, n));
    JoinableOk(s, f, channelId, c);
    JoinsWellFormed(channelId, f, n + 1);
    if |Marked(s.marked)| + n < KMaxEvaluationPrecedences {
      IdleLoad(s);
      RoomForAllCalls(s, nif, Joins(channelId, f, n + 1));
    } else {
      NoPrecedenceClashes(After(s, nif, Joins(channelId, f, n + 1)));
    }
  }

  lemma IdleLoad(s: State)
    requires s.req == map[] && s.current.None?
    ensures Load(s) == |Marked(s.marked)| && Timely(s.req)
  {
    assert Taken(s.marked, None) == Marked(s.marked) && Owed(s.req) == {};
  }

  lemma NoPrecedenceClashes(s: State)
    requires InFlight(s.req, s.current).Some? && InFlight(s.req, s.current).value.1.precedence < 0
    ensures !Unique(s)
  {
    hide PrecedencesDistinct;
  }

  // ---------- a full map ----------

  /** Every precedence is marked. */
  ghost predicate FullMap(s: State) {
    Marked(s.marked) == Below(KMaxEvaluationPrecedences)
  }

  /** With a full map, the very next Join sends a filter without a precedence. */
  lemma FullMapSendsNoPrecedence(s: State, nif: Network, f: FlowRef, channelId: int, c: ContextRef)
    requires Joinable(s, f, channelId, c) && Settled(s) && Unique(s) && FullMap(s)
    requires forall log :: nif(log) >= 0
    ensures var es := Joins(channelId, f, 1);
            AllWellFormed(es) && HonestRun(s, nif, es) && !Unique(After(s, nif, es))
  {
    hide Ok, Joinable, Settled, After, Unique, Joins, Marked, Below, Refuses, HonestRun, AllWellFormed;
    RefusesNone(nif, |s.controls|);
    RefusedJoinsExhaustMap(s, nif, f, channelId, c, 0);
  }

  lemma RefusesNone(nif: Network, from: nat)
    requires forall log :: nif(log) >= 0
    ensures Refuses(nif, from, 0)
  {
  }
}
