/**
 Which filters a request takes away from a context, and which calls the other actions
 make: stated on the call that goes to the network and on the flows of the context.
*/
module GuqosRemoval {
  import opened Wrappers
  import opened Sequences
  import opened PacketFilters
  import opened Tft
  import opened GuqosState
  import opened GuqosHeap
  import opened GuqosRequests
  import opened GuqosSteps

  /** Filter `filters[j]` is the last one that covers flow `g`. */
  ghost predicate ReliesOn(s: State, g: FlowRef, filters: seq<PacketFilter>, j: nat)
    requires g in s.flows
  {
    && j < |filters| && Matches(s.flows[g].filter, filters[j])
    && forall k :: j < k < |filters| ==> !Matches(s.flows[g].filter, filters[k])
  }

  /** Flow `g` is attached to `c` and is not the one that the request is about. */
  ghost predicate Remains(s: State, c: ContextRef, except: Option<FlowRef>, g: FlowRef) {
    c in s.ctx && g in s.ctx[c].flows && g in s.flows && except != Some(g)
  }

  /** Some flow that remains on `c` relies on filter `j`. */
  ghost predicate Relied(s: State, c: ContextRef, except: Option<FlowRef>, j: nat)
    requires c in s.ctx
  {
    exists g :: Remains(s, c, except, g) && ReliesOn(s, g, s.ctx[c].filters, j)
  }

  // ---------- the flows that count ----------

  lemma {:induction false} OwnFiltersHave(list: seq<FlowRef>, flows: map<FlowRef, Flow>, except: Option<FlowRef>,
                                          x: PacketFilter)
    requires forall f :: f in list ==> f in flows
    ensures x in OwnFilters(list, flows, except) <==> exists f :: f in list && except != Some(f) && flows[f].filter == x
  {
    if list != [] {
      OwnFiltersHave(list[1..], flows, except, x);
      assert forall f :: f in list <==> f == list[0] || f in list[1..];
    }
  }

  /** Moving the request's flow to the default context leaves the other flows of another context alone. */
  lemma RehomeRemains(s: State, r: RequestRef, c: ContextRef)
    requires Ok(s) && r in s.req && c in s.ctx && s.primary in s.ctx
    ensures var m := Rehome(s, r, s.primary);
            && c in m.ctx && m.primary == s.primary
            && m.ctx[c].filters == s.ctx[c].filters && m.ctx[c].contextId == s.ctx[c].contextId
            && m.controls == s.controls
            && (forall g :: g in s.flows ==> g in m.flows && m.flows[g].filter == s.flows[g].filter)
            && (c != s.primary ==>
                  forall g :: g in m.ctx[c].flows <==> g in s.ctx[c].flows && s.req[r].flow != Some(g))
  {
    hide Ok, SetFlowContext;
    RehomeOk(s, r, s.primary);
    ListedFlows(s, c);
    if s.req[r].flow.Some? {
      RequestParts(s, r);
      AttachedFlow(s, s.req[r].flow.value);
      AttachedList(s, c);
      MoveRemains(s, s.req[r].flow.value, c);
    }
  }

  lemma MoveRemains(s: State, f: FlowRef, c: ContextRef)
    requires f in s.flows && s.flows[f].context.Some? && s.flows[f].context.value in s.ctx && s.primary in s.ctx
    requires c in s.ctx && forall g :: g in s.ctx[c].flows ==> g in s.flows && s.flows[g].context == Some(c)
    ensures var m := SetFlowContext(s, f, s.primary);
            && c in m.ctx && m.ctx[c].filters == s.ctx[c].filters && m.ctx[c].contextId == s.ctx[c].contextId
            && (forall g :: g in s.flows ==> g in m.flows && m.flows[g].filter == s.flows[g].filter)
            && (c != s.primary ==> forall g :: g in m.ctx[c].flows <==> g in s.ctx[c].flows && f != g)
  {
    hide Without, SetFlowContext;
    MoveKeeps(s, f, c);
    if c != s.primary {
      MoveLeaves(s, f, c);
    }
  }

  lemma MoveKeeps(s: State, f: FlowRef, c: ContextRef)
    requires f in s.flows && s.flows[f].context.Some? && s.flows[f].context.value in s.ctx && s.primary in s.ctx
    requires c in s.ctx
    ensures var m := SetFlowContext(s, f, s.primary);
            && c in m.ctx && m.ctx[c].filters == s.ctx[c].filters && m.ctx[c].contextId == s.ctx[c].contextId
            && (forall g :: g in s.flows ==> g in m.flows && m.flows[g].filter == s.flows[g].filter)
  {
    hide Without, FlowBlocked;
  }

  lemma MoveLeaves(s: State, f: FlowRef, c: ContextRef)
    requires f in s.flows && s.flows[f].context.Some? && s.flows[f].context.value in s.ctx && s.primary in s.ctx
    requires c in s.ctx && c != s.primary
    requires forall g :: g in s.ctx[c].flows ==> g in s.flows && s.flows[g].context == Some(c)
    ensures c in SetFlowContext(s, f, s.primary).ctx
    ensures forall g :: g in SetFlowContext(s, f, s.primary).ctx[c].flows <==> g in s.ctx[c].flows && f != g
  {
    hide Without, FlowBlocked;
  }

  lemma AttachedList(s: State, c: ContextRef)
    requires Ok(s) && c in s.ctx
    ensures forall f :: f in s.ctx[c].flows ==> f in s.flows && s.flows[f].context == Some(c)
  {
    hide Mirrored, ExactlyOnce, DistinctIds, Queued, NoDangling, NoDup;
  }

  /** On another context than the default one, the filters named are those that no remaining flow relies on. */
  lemma UnneededAre(s: State, r: RequestRef, c: ContextRef)
    requires Ok(s) && r in s.req && c in s.ctx && s.primary in s.ctx && c != s.primary
    ensures Ok(Rehome(s, r, s.primary)) && c in Rehome(s, r, s.primary).ctx
    ensures var named := UnneededFilters(Rehome(s, r, s.primary), c, s.req[r].flow);
            && (forall x :: x in named ==> x in s.ctx[c].filters)
            && (forall j: nat :: j < |s.ctx[c].filters| ==>
                  (s.ctx[c].filters[j] in named <==> !Relied(s, c, s.req[r].flow, j)))
  {
    hide Ok, Rehome, UnneededUpTo, OwnFilters, LastMatchUpTo, DistinctIds, FiltersKept;
    RehomeOk(s, r, s.primary);
    RehomeRemains(s, r, c);
    var m := Rehome(s, r, s.primary);
    OkAt(m, c);
    ListedFlows(m, c);
    ListedFlows(s, c);
    var attached := OwnFilters(m.ctx[c].flows, m.flows, s.req[r].flow);
    var filters := s.ctx[c].filters;
    forall j: nat | j < |filters|
      ensures filters[j] in UnneededFilters(m, c, s.req[r].flow) <==> !Relied(s, c, s.req[r].flow, j)
    {
      UnneededHas(filters, attached, false, |filters|, filters[j]);
      NeededIsRelied(s, m, r, c, j);
      OnlyAt(filters, j);
    }
  }

  lemma OnlyAt(filters: seq<PacketFilter>, j: nat)
    requires DistinctIds(filters) && j < |filters|
    ensures forall k :: 0 <= k < |filters| && filters[k] == filters[j] ==> k == j
  {
  }

  lemma NeededIsRelied(s: State, m: State, r: RequestRef, c: ContextRef, j: nat)
    requires r in s.req && c in s.ctx && c in m.ctx && j < |s.ctx[c].filters|
    requires forall f :: f in m.ctx[c].flows ==> f in m.flows
    requires forall f :: f in s.ctx[c].flows ==> f in s.flows
    requires forall g :: g in s.flows ==> g in m.flows && m.flows[g].filter == s.flows[g].filter
    requires forall g :: g in m.ctx[c].flows <==> g in s.ctx[c].flows && s.req[r].flow != Some(g)
    ensures Needed(s.ctx[c].filters, OwnFilters(m.ctx[c].flows, m.flows, s.req[r].flow), j)
            <==> Relied(s, c, s.req[r].flow, j)
  {
    hide OwnFilters, LastMatchUpTo;
    var filters := s.ctx[c].filters;
    var attached := OwnFilters(m.ctx[c].flows, m.flows, s.req[r].flow);
    if Needed(filters, attached, j) {
      var k :| 0 <= k < |attached| && LastMatch(attached[k], filters) == j;
      OwnFiltersHave(m.ctx[c].flows, m.flows, s.req[r].flow, attached[k]);
      var g :| g in m.ctx[c].flows && s.req[r].flow != Some(g) && m.flows[g].filter == attached[k];
      assert Remains(s, c, s.req[r].flow, g) && ReliesOn(s, g, filters, j);
    }
    if Relied(s, c, s.req[r].flow, j) {
      var g :| Remains(s, c, s.req[r].flow, g) && ReliesOn(s, g, filters, j);
      OwnFiltersHave(m.ctx[c].flows, m.flows, s.req[r].flow, m.flows[g].filter);
      var k :| 0 <= k < |attached| && attached[k] == m.flows[g].filter;
      assert LastMatch(attached[k], filters) == j;
    }
  }

  /** On the default context every filter is named. */
  lemma AllNamed(s: State, r: RequestRef, c: ContextRef)
    requires Ok(s) && r in s.req && c in s.ctx && c == s.primary
    ensures Ok(Rehome(s, r, s.primary)) && c in Rehome(s, r, s.primary).ctx
    ensures var named := UnneededFilters(Rehome(s, r, s.primary), c, s.req[r].flow);
            forall x :: x in named <==> x in s.ctx[c].filters
  {
    hide Ok, Rehome, UnneededUpTo, OwnFilters, DistinctIds, FiltersKept;
    RehomeOk(s, r, s.primary);
    RehomeRemains(s, r, c);
    var m := Rehome(s, r, s.primary);
    OkAt(m, c);
    var filters := m.ctx[c].filters;
    forall x ensures x in UnneededFilters(m, c, s.req[r].flow) <==> x in filters {
      ListedFlows(m, c);
      UnneededHas(filters, OwnFilters(m.ctx[c].flows, m.flows, s.req[r].flow), true, |filters|, x);
    }
  }

  // ---------- the call ----------

  /** The filters named are those that nothing on the context relies on; on the default context all are. */
  ghost predicate NamesUnused(s: State, r: RequestRef, c: ContextRef, named: seq<PacketFilter>)
    requires r in s.req && c in s.ctx
  {
    && (forall x :: x in named ==> x in s.ctx[c].filters)
    && (forall j: nat :: j < |s.ctx[c].filters| ==>
          (s.ctx[c].filters[j] in named <==> c == s.primary || !Relied(s, c, s.req[r].flow, j)))
  }

  /** A flow that remains on `c` is covered by some filter that is not named. */
  ghost predicate StillCovered(s: State, c: ContextRef, named: seq<PacketFilter>, g: FlowRef)
    requires c in s.ctx && g in s.flows
  {
    exists j :: 0 <= j < |s.ctx[c].filters| && s.ctx[c].filters[j] !in named
                && Matches(s.flows[g].filter, s.ctx[c].filters[j])
  }

  /**
   The filters a request asks to remove from its context. On the default context these are
   all; on any other, a filter is named exactly if no flow that remains attached relies
   on it, so that each such flow that was covered still is. The call is about that
   context, and it is made if the context keeps a flow, or is the default one, and there
   is something to remove.
  */
  lemma RemovalKeepsFlowsCovered(s: State, nif: Network, r: RequestRef)
    requires Ok(s) && Acting(s, r) && Table(s.req[r].kind)[s.req[r].state] == RemovePacketFilter
    requires s.req[r].context.Some?
    ensures var t := Act(s, nif, r).0;
            var c, n := s.req[r].context.value, |s.controls|;
            && s.controls <= t.controls
            && (|t.controls| > n ==>
                  && t.controls[n].ModifyTft? && t.controls[n].operation == RemoveFilters
                  && t.controls[n].contextId == s.ctx[c].contextId
                  && var named := t.controls[n].filters;
                     && named != [] && NamesUnused(s, r, c, named)
                     && (c != s.primary ==>
                           forall g, k :: Remains(s, c, s.req[r].flow, g) && 0 <= k < |s.ctx[c].filters|
                                          && Matches(s.flows[g].filter, s.ctx[c].filters[k]) ==>
                             StillCovered(s, c, named, g)))
            && (|t.controls| == n ==>
                  if c == s.primary then s.ctx[c].filters == []
                  else
                    || (forall g :: !Remains(s, c, s.req[r].flow, g))
                    || (forall j: nat :: j < |s.ctx[c].filters| ==> Relied(s, c, s.req[r].flow, j)))
  {
    hide Ok, Rehome, Ask, Table, UnneededFilters, Relied, Needed, FiltersKept, NamesUnused, Remains;
    var c := s.req[r].context.value;
    DeleteReady(s);
    RehomeOk(s, r, s.primary);
    RehomeRemains(s, r, c);
    var m := Rehome(s, r, s.primary);
    var named := UnneededFilters(m, c, s.req[r].flow);
    NamedIs(s, r, c);
    AskOk(m, nif, r, ModifyTft(m.ctx[c].contextId, RemoveFilters, named), PendingPacketFilterRemove, Some(c));
    RefsRemain(s, m, r, c);
    if named == [] {
      NothingNamed(s, r, c);
    }
    if c != s.primary {
      NamedCovers(s, r, c, named);
    }
  }

  lemma NamedIs(s: State, r: RequestRef, c: ContextRef)
    requires Ok(s) && r in s.req && c in s.ctx && s.primary in s.ctx
    ensures Ok(Rehome(s, r, s.primary)) && c in Rehome(s, r, s.primary).ctx
    ensures NamesUnused(s, r, c, UnneededFilters(Rehome(s, r, s.primary), c, s.req[r].flow))
  {
    hide Ok, Rehome, UnneededFilters, Relied;
    if c == s.primary {
      AllNamed(s, r, c);
    } else {
      UnneededAre(s, r, c);
    }
  }

  lemma NothingNamed(s: State, r: RequestRef, c: ContextRef)
    requires r in s.req && c in s.ctx && NamesUnused(s, r, c, [])
    ensures if c == s.primary then s.ctx[c].filters == []
            else forall j: nat :: j < |s.ctx[c].filters| ==> Relied(s, c, s.req[r].flow, j)
  {
    hide Relied, NamesUnused;
    if c == s.primary && s.ctx[c].filters != [] {
      FirstNamed(s, r, c, []);
    } else {
      NoneUnused(s, r, c);
    }
  }

  lemma FirstNamed(s: State, r: RequestRef, c: ContextRef, named: seq<PacketFilter>)
    requires r in s.req && c in s.ctx && NamesUnused(s, r, c, named) && c == s.primary && s.ctx[c].filters != []
    ensures named != []
  {
    hide Relied;
    assert s.ctx[c].filters[0] in named;
  }

  lemma NoneUnused(s: State, r: RequestRef, c: ContextRef)
    requires r in s.req && c in s.ctx && NamesUnused(s, r, c, [])
    ensures c != s.primary ==> forall j: nat :: j < |s.ctx[c].filters| ==> Relied(s, c, s.req[r].flow, j)
  {
    hide Relied;
  }

  /** A context without flows keeps none. */
  lemma RefsRemain(s: State, m: State, r: RequestRef, c: ContextRef)
    requires Ok(m) && r in s.req && c in s.ctx && c in m.ctx
    requires c != s.primary ==> forall g :: g in m.ctx[c].flows <==> g in s.ctx[c].flows && s.req[r].flow != Some(g)
    ensures c != s.primary && m.ctx[c].refs <= 0 ==> forall g :: !Remains(s, c, s.req[r].flow, g)
  {
    hide Mirrored, ExactlyOnce, DistinctIds, Queued, NoDangling, NoDup;
    if c != s.primary && m.ctx[c].refs <= 0 {
      assert m.ctx[c].flows == [];
    }
  }

  lemma NamedCovers(s: State, r: RequestRef, c: ContextRef, named: seq<PacketFilter>)
    requires Ok(s) && r in s.req && c in s.ctx && c != s.primary && NamesUnused(s, r, c, named)
    ensures forall g, k :: Remains(s, c, s.req[r].flow, g) && 0 <= k < |s.ctx[c].filters|
                           && Matches(s.flows[g].filter, s.ctx[c].filters[k]) ==>
              StillCovered(s, c, named, g)
  {
    hide Ok, Matches, LastMatchUpTo;
    var filters := s.ctx[c].filters;
    forall g, k | Remains(s, c, s.req[r].flow, g) && 0 <= k < |filters| && Matches(s.flows[g].filter, filters[k])
      ensures StillCovered(s, c, named, g)
    {
      var j := LastMatch(s.flows[g].filter, filters);
      assert ReliesOn(s, g, filters, j);
      assert Relied(s, c, s.req[r].flow, j);
    }
  }

  // ---------- the calls of the other actions ----------

  /** The call names the context with this identifier. */
  predicate Names(op: Control, contextId: int) {
    match op
    case ModifyTft(id, _, _) => id == contextId
    case RequestQoS(id) => id == contextId
    case Activate(id) => id == contextId
    case ModifyActive(id) => id == contextId
    case CreateSecondary => false
    case DeleteContext(_) => false
  }

  lemma AskCalls(s: State, m: State, nif: Network, r: RequestRef, op: Control, expected: Expected,
                 onFailure: Option<ContextRef>)
    requires Ok(m) && m.current == Some(r) && r in m.req && (onFailure.Some? ==> onFailure.value in m.ctx)
    requires m.controls == s.controls
    ensures var t := Ask(m, nif, r, op, expected, onFailure);
            |t.controls| > |s.controls| && t.controls[|s.controls|] == op && s.controls <= t.controls
  {
    hide Ok, Ask;
    AskOk(m, nif, r, op, expected, onFailure);
  }

  /**
   A commitment is asked of the request's own context: to activate it if it is not active,
   else to modify it if the request has changed it, else nothing. Quality of service and
   an authorization token are asked for on that context too, the token only if the request
   carries one.
  */
  lemma CallsNameTheContext(s: State, nif: Network, r: RequestRef)
    requires Ok(s) && Acting(s, r) && s.req[r].context.Some?
    ensures var t := Act(s, nif, r).0;
            var n, x := |s.controls|, s.ctx[s.req[r].context.value];
            match Table(s.req[r].kind)[s.req[r].state]
            case Commit =>
              (if x.status == StatusActive && !s.req[r].modified then t == s
               else |t.controls| > n && Names(t.controls[n], x.contextId)
                    && (if x.status == StatusActive then t.controls[n].ModifyActive? else t.controls[n].Activate?))
            case AddSblpParameter =>
              (if !s.req[r].sblp then t == s
               else |t.controls| > n && Names(t.controls[n], x.contextId) && t.controls[n].ModifyTft?
                    && t.controls[n].operation == AddSblp)
            case SetQoS => |t.controls| > n && Names(t.controls[n], x.contextId) && t.controls[n].RequestQoS?
            case NewContext => |t.controls| > n && t.controls[n].CreateSecondary?
            case _ => true
  {
    hide Ok, Ask, Table;
    var c := s.req[r].context.value;
    var id := s.ctx[c].contextId;
    AskCalls(s, s, nif, r, Activate(id), PendingActivate, Some(c));
    AskCalls(s, s, nif, r, ModifyActive(id), PendingModifyActive, Some(c));
    AskCalls(s, s, nif, r, ModifyTft(id, AddSblp, []), PendingSblpParameterAdd, Some(c));
    AskCalls(s, s, nif, r, RequestQoS(id), PendingSetQoS, Some(c));
    AskCalls(s, s, nif, r, CreateSecondary, PendingCreate, None);
  }

  ghost predicate IdTaken(filters: seq<PacketFilter>, id: int) {
    exists i :: 0 <= i < |filters| && filters[i].id == id
  }

  /** The filter that flow `f` gets on context `c`: its own, under the least free identity. */
  ghost predicate FreshIdentity(s: State, c: ContextRef, f: FlowRef, x: PacketFilter)
    requires c in s.ctx && f in s.flows
  {
    && x == s.flows[f].filter.(id := x.id, precedence := x.precedence)
    && 1 <= x.id <= 8 && !IdTaken(s.ctx[c].filters, x.id)
    && (forall k :: 1 <= k < x.id ==> IdTaken(s.ctx[c].filters, k))
    && (if forall p :: 0 <= p < |s.marked| ==> s.marked[p] then x.precedence < 0
        else
          && 0 <= x.precedence < |s.marked| && !s.marked[x.precedence]
          && forall p :: 0 <= p < x.precedence ==> s.marked[p])
  }

  /**
   A flow that some filter of the context covers gets none. With all eight identifiers
   taken the request ends. Otherwise the context is asked to add the flow's own filter
   under the least identifier and precedence that are free; if no precedence is, under none.
  */
  lemma AdditionSendsTheFlowsFilter(s: State, nif: Network, r: RequestRef)
    requires Ok(s) && Acting(s, r) && Table(s.req[r].kind)[s.req[r].state] == AddPacketFilter
    requires s.req[r].context.Some? && s.req[r].flow.Some? && s.req[r].flow.value in s.flows
    ensures var (t, done) := Act(s, nif, r);
            var c, f, n := s.req[r].context.value, s.req[r].flow.value, |s.controls|;
            var filters := s.ctx[c].filters;
            if exists j :: 0 <= j < |filters| && Matches(s.flows[f].filter, filters[j]) then t == s && !done
            else if forall k :: 1 <= k <= 8 ==> IdTaken(filters, k) then done && r !in t.req
            else
              && done && |t.controls| > n && t.controls[n].ModifyTft? && t.controls[n].operation == AddFilters
              && t.controls[n].contextId == s.ctx[c].contextId && |t.controls[n].filters| == 1
              && FreshIdentity(s, c, f, t.controls[n].filters[0])
  {
    hide Ok, Ask, Table, Fail, Matches, Reserve, LastMatchUpTo;
    RequestParts(s, r);
    var c, f := s.req[r].context.value, s.req[r].flow.value;
    var filters := s.ctx[c].filters;
    LastMatchIs(s.flows[f].filter, filters);
    if LastMatch(s.flows[f].filter, filters) < 0 {
      IdTakenUses(filters);
      if FreeId(filters) < 0 {
        FailOk(s, r, Some(c), FreeId(filters));
      } else {
        ReservedOk(s, r, c, f);
        var m := Reserved(s, r, c, f);
        AskCalls(s, m, nif, r, ModifyTft(s.ctx[c].contextId, AddFilters, [m.flows[f].filter]), PendingPacketFilterAdd,
                 Some(c));
      }
    }
  }

  lemma LastMatchIs(flow: PacketFilter, filters: seq<PacketFilter>)
    ensures LastMatch(flow, filters) >= 0 <==> exists j :: 0 <= j < |filters| && Matches(flow, filters[j])
  {
    hide Matches;
    var j := LastMatch(flow, filters);
    assert j >= 0 ==> Matches(flow, filters[j]);
  }

  lemma IdTakenUses(filters: seq<PacketFilter>)
    ensures forall k :: UsesId(filters, k) <==> IdTaken(filters, k)
  {
  }
}
