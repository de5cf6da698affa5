/**
 Packet filters of a traffic flow template (TFT) and the choices GUQoS makes
 about them: which filter covers a flow, which identifier and which evaluation
 precedence a new filter gets, and which filters a context no longer needs.

 Identifier and evaluation precedence follow section 10.5.6.12 of 3GPP TS 24.008;
 identifiers are in the range 1..8 that the upper layers use.
*/
module PacketFilters {
  import opened Wrappers
  import opened Sequences

  const KMaxPacketFilters := 8
  const KMaxEvaluationPrecedences := 256

  /** Addresses and masks are 16 bytes; only their equality matters here. */
  datatype PacketFilter = PacketFilter(
    id: int, precedence: int,
    srcAddr: nat, srcMask: nat, protocol: nat,
    destPortMin: nat, destPortMax: nat, srcPortMin: nat, srcPortMax: nat,
    flowLabel: nat, trafficClass: nat)

  /** Filter `filter` covers the flow whose own filter is `flow`. */
  predicate Matches(flow: PacketFilter, filter: PacketFilter) {
    && flow.srcAddr == filter.srcAddr
    && flow.srcMask == filter.srcMask
    && flow.protocol == filter.protocol
    && filter.destPortMin <= flow.destPortMin && flow.destPortMax <= filter.destPortMax
    && filter.srcPortMin <= flow.srcPortMin && flow.srcPortMax <= filter.srcPortMax
    && flow.flowLabel == filter.flowLabel
    && flow.trafficClass == filter.trafficClass
  }

  /** What a filter looks at in a packet. */
  datatype Packet = Packet(addr: nat, mask: nat, protocol: nat, destPort: nat, srcPort: nat, flowLabel: nat,
                           trafficClass: nat)

  predicate Passes(filter: PacketFilter, p: Packet) {
    && p.addr == filter.srcAddr && p.mask == filter.srcMask && p.protocol == filter.protocol
    && filter.destPortMin <= p.destPort <= filter.destPortMax && filter.srcPortMin <= p.srcPort <= filter.srcPortMax
    && p.flowLabel == filter.flowLabel && p.trafficClass == filter.trafficClass
  }

  /** A filter covers a flow exactly if it passes every packet of the flow, provided there can be one. */
  lemma MatchesIsCoverage(flow: PacketFilter, filter: PacketFilter)
    requires flow.destPortMin <= flow.destPortMax && flow.srcPortMin <= flow.srcPortMax
    ensures Matches(flow, filter) <==> forall p :: Passes(flow, p) ==> Passes(filter, p)
  {
    var low := Packet(flow.srcAddr, flow.srcMask, flow.protocol, flow.destPortMin, flow.srcPortMin, flow.flowLabel,
                      flow.trafficClass);
    var high := low.(destPort := flow.destPortMax, srcPort := flow.srcPortMax);
    assert Passes(flow, low) && Passes(flow, high);
    if forall p :: Passes(flow, p) ==> Passes(filter, p) {
      assert Passes(filter, low) && Passes(filter, high);
    }
  }

  ghost predicate DistinctIds(filters: seq<PacketFilter>) {
    forall i, j :: 0 <= i < j < |filters| ==> filters[i].id != filters[j].id
  }

  // ---------- identifiers ----------

  predicate UsesId(filters: seq<PacketFilter>, id: int) {
    exists i :: 0 <= i < |filters| && filters[i].id == id
  }

  /** The least free identifier from `j` on, or an overflow error. */
  function FreeIdFrom(filters: seq<PacketFilter>, j: int): (r: int)
    requires 1 <= j <= 9
    ensures r == KErrOverflow || j <= r <= 8
    ensures r != KErrOverflow ==> !UsesId(filters, r) && forall k :: j <= k < r ==> UsesId(filters, k)
    ensures r == KErrOverflow ==> forall k :: j <= k <= 8 ==> UsesId(filters, k)
    decreases 9 - j
  {
    if j == 9 then KErrOverflow
    else if !UsesId(filters, j) then j
    else FreeIdFrom(filters, j + 1)
  }

  function FreeId(filters: seq<PacketFilter>): int {
    FreeIdFrom(filters, 1)
  }

  function Ids(filters: seq<PacketFilter>): (r: seq<int>)
    ensures |r| == |filters| && forall i :: 0 <= i < |r| ==> r[i] == filters[i].id
  {
    seq(|filters|, i requires 0 <= i < |filters| => filters[i].id)
  }

  /** With distinct identifiers in range, a new one is refused exactly when the context is full. */
  lemma FreeIdExactlyWhenRoom(filters: seq<PacketFilter>)
    requires DistinctIds(filters)
    requires forall i :: 0 <= i < |filters| ==> 1 <= filters[i].id <= 8
    ensures |filters| <= 8
    ensures FreeId(filters) == KErrOverflow <==> |filters| == 8
  {
    var all := seq(8, i => i + 1);
    var ids := Ids(filters);
    ApartNoDup(all);
    ApartNoDup(ids);
    forall x | x in ids ensures x in all {
      assert x == all[x - 1];
    }
    Pigeonhole(ids, all);
    if FreeId(filters) == KErrOverflow {
      forall x | x in all ensures x in ids {
        assert UsesId(filters, x);
      }
      Pigeonhole(all, ids);
    } else {
      var free := FreeId(filters);
      if |filters| == 8 {
        var others := Without(all, free);
        assert free == all[free - 1];
        WithoutLength(all, free);
        forall x | x in ids ensures x in others {
          assert x != free;
        }
        Pigeonhole(ids, others);
      }
    }
  }

  // ---------- evaluation precedences ----------

  /** The least unmarked precedence from `j` on, or an error. */
  function FreePrecedenceFrom(marked: seq<bool>, j: nat): (r: int)
    requires j <= |marked|
    ensures r == KErrNotFound || j <= r < |marked|
    ensures r != KErrNotFound ==> !marked[r] && forall k :: j <= k < r ==> marked[k]
    ensures r == KErrNotFound ==> forall k :: j <= k < |marked| ==> marked[k]
    decreases |marked| - j
  {
    if j == |marked| then KErrNotFound
    else if !marked[j] then j
    else FreePrecedenceFrom(marked, j + 1)
  }

  function FreePrecedence(marked: seq<bool>): int {
    FreePrecedenceFrom(marked, 0)
  }

  /** Precedence `p` occurs in one of the filter lists. */
  predicate UsesPrecedence(lists: seq<seq<PacketFilter>>, p: int) {
    exists i, j :: 0 <= i < |lists| && 0 <= j < |lists[i]| && lists[i][j].precedence == p
  }

  /** The precedence map after a recomputation from the current filters. */
  function Marks(lists: seq<seq<PacketFilter>>): (r: seq<bool>)
    ensures |r| == KMaxEvaluationPrecedences
    ensures forall p :: 0 <= p < |r| ==> r[p] == UsesPrecedence(lists, p)
  {
    seq(KMaxEvaluationPrecedences, p => UsesPrecedence(lists, p))
  }

  function Precedences(filters: seq<PacketFilter>): (r: seq<int>)
    ensures |r| == |filters| && forall i :: 0 <= i < |r| ==> r[i] == filters[i].precedence
  {
    seq(|filters|, i requires 0 <= i < |filters| => filters[i].precedence)
  }

  function AllPrecedences(lists: seq<seq<PacketFilter>>): (r: seq<int>)
    ensures (forall i :: 0 <= i < |lists| ==> |lists[i]| <= KMaxPacketFilters)
              ==> |r| <= KMaxPacketFilters * |lists|
  {
    if lists == [] then [] else Precedences(lists[0]) + AllPrecedences(lists[1..])
  }

  lemma {:induction false} AllPrecedencesHas(lists: seq<seq<PacketFilter>>, p: int)
    ensures UsesPrecedence(lists, p) <==> p in AllPrecedences(lists)
  {
    if lists != [] {
      AllPrecedencesHas(lists[1..], p);
      if UsesPrecedence(lists, p) {
        var i, j :| 0 <= i < |lists| && 0 <= j < |lists[i]| && lists[i][j].precedence == p;
        if i == 0 {
          assert Precedences(lists[0])[j] == p;
        } else {
          assert lists[1..][i - 1][j].precedence == p;
        }
      }
      if p in Precedences(lists[0]) {
        var j :| 0 <= j < |lists[0]| && Precedences(lists[0])[j] == p;
        assert lists[0][j].precedence == p;
      } else if p in AllPrecedences(lists[1..]) {
        var i, j :| 0 <= i < |lists[1..]| && 0 <= j < |lists[1..][i]| && lists[1..][i][j].precedence == p;
        assert lists[i + 1][j].precedence == p;
      }
    }
  }

  /** Marking `p` as well, which is what one reservation does. */
  function Reserve(marked: seq<bool>, p: int): (r: seq<bool>)
    ensures |r| == |marked|
  {
    if 0 <= p < |marked| then marked[p := true] else marked
  }

  /** `n` reservations in a row, none of them reported back in between. */
  function ReserveMany(marked: seq<bool>, n: nat): (r: seq<bool>)
    ensures |r| == |marked|
    decreases n
  {
    if n == 0 then marked
    else ReserveMany(Reserve(marked, FreePrecedence(marked)), n - 1)
  }

  /** The marked entries of a precedence map. */
  function Marked(marked: seq<bool>): set<int> {
    set p | 0 <= p < |marked| && marked[p]
  }

  /** A free entry is found exactly when not all are marked. */
  lemma FreeExactlyWhenRoom(marked: seq<bool>)
    ensures FreePrecedence(marked) != KErrNotFound <==> |Marked(marked)| < |marked|
    ensures |Marked(marked)| <= |marked|
  {
    SubsetSize(Marked(marked), Below(|marked|));
    var p := FreePrecedence(marked);
    if p == KErrNotFound {
      SubsetSize(Below(|marked|), Marked(marked));
    } else {
      SubsetSize(Marked(marked), Below(|marked|) - {p});
    }
  }

  /** Each reservation marks one more entry, until all are marked. */
  lemma {:induction false} ReserveManyMarks(marked: seq<bool>, n: nat)
    ensures |Marked(ReserveMany(marked, n))| == if |Marked(marked)| + n < |marked| then |Marked(marked)| + n
            else |marked|
    decreases n
  {
    hide FreePrecedence;
    FreeExactlyWhenRoom(marked);
    if n > 0 {
      var p := FreePrecedence(marked);
      FreeIsUnmarked(marked);
      var next := Reserve(marked, p);
      assert Marked(next) == if p == KErrNotFound then Marked(marked) else Marked(marked) + {p};
      ReserveManyMarks(next, n - 1);
    }
  }

  lemma FreeIsUnmarked(marked: seq<bool>)
    ensures var p := FreePrecedence(marked); p != KErrNotFound ==> 0 <= p < |marked| && !marked[p]
  {
  }

  /** The different precedences that filters of the lists use. */
  function UsedPrecedences(lists: seq<seq<PacketFilter>>): set<int> {
    Marked(Marks(lists))
  }

  /** Lists of at most eight filters use at most eight precedences each. */
  lemma UsedPrecedencesBounded(lists: seq<seq<PacketFilter>>)
    requires forall i :: 0 <= i < |lists| ==> |lists[i]| <= KMaxPacketFilters
    ensures |UsedPrecedences(lists)| <= KMaxPacketFilters * |lists|
  {
    var used := AllPrecedences(lists);
    forall p | p in UsedPrecedences(lists) ensures p in used {
      AllPrecedencesHas(lists, p);
    }
    ElementsSize(used);
    SubsetSize(UsedPrecedences(lists), set p | p in used);
  }

  /**
   After a recomputation over `lists` and `n` reservations there is still a free
   precedence exactly when the different precedences in use and those reserved are
   fewer than the map has entries.
  */
  lemma ReservationCapacity(lists: seq<seq<PacketFilter>>, n: nat)
    ensures FreePrecedence(ReserveMany(Marks(lists), n)) != KErrNotFound
            <==> |UsedPrecedences(lists)| + n < KMaxEvaluationPrecedences
  {
    hide FreePrecedence, ReserveMany, Marked;
    ReserveManyMarks(Marks(lists), n);
    FreeExactlyWhenRoom(ReserveMany(Marks(lists), n));
  }

  /** Reservations that no report ever clears run a map of any size out. */
  lemma ReservationsLeak(marked: seq<bool>)
    ensures FreePrecedence(ReserveMany(marked, |marked|)) == KErrNotFound
  {
    hide FreePrecedence, ReserveMany, Marked;
    ReserveManyMarks(marked, |marked|);
    FreeExactlyWhenRoom(ReserveMany(marked, |marked|));
  }

  // ---------- filters a context no longer needs ----------

  /** The highest-index filter among the first `n` that covers `flow`, or -1. */
  function LastMatchUpTo(flow: PacketFilter, filters: seq<PacketFilter>, n: nat): (r: int)
    requires n <= |filters|
    ensures -1 <= r < n
    ensures r >= 0 ==> Matches(flow, filters[r])
    ensures forall k :: r < k < n ==> !Matches(flow, filters[k])
  {
    if n == 0 then -1
    else if Matches(flow, filters[n - 1]) then n - 1
    else LastMatchUpTo(flow, filters, n - 1)
  }

  function LastMatch(flow: PacketFilter, filters: seq<PacketFilter>): int {
    LastMatchUpTo(flow, filters, |filters|)
  }

  /** Some attached flow relies on filter `j`. */
  predicate Needed(filters: seq<PacketFilter>, attached: seq<PacketFilter>, j: int) {
    exists k :: 0 <= k < |attached| && LastMatch(attached[k], filters) == j
  }

  /** Among the first `n` filters, those no attached flow relies on (all of them on a primary). */
  function UnneededUpTo(filters: seq<PacketFilter>, attached: seq<PacketFilter>, isPrimary: bool,
                        n: nat): (r: seq<PacketFilter>)
    requires n <= |filters|
    ensures |r| <= n
    ensures forall f :: f in r ==> exists j :: 0 <= j < n && filters[j] == f
  {
    if n == 0 then []
    else
      var before := UnneededUpTo(filters, attached, isPrimary, n - 1);
      if !isPrimary && Needed(filters, attached, n - 1) then before else before + [filters[n - 1]]
  }

  function Unneeded(filters: seq<PacketFilter>, attached: seq<PacketFilter>, isPrimary: bool): seq<PacketFilter> {
    UnneededUpTo(filters, attached, isPrimary, |filters|)
  }

  lemma {:induction false} UnneededHas(filters: seq<PacketFilter>, attached: seq<PacketFilter>, isPrimary: bool, n: nat,
                                       f: PacketFilter)
    requires DistinctIds(filters) && n <= |filters|
    ensures f in UnneededUpTo(filters, attached, isPrimary, n) <==>
            (exists j :: 0 <= j < n && filters[j] == f && (isPrimary || !Needed(filters, attached, j)))
  {
    if n != 0 {
      UnneededHas(filters, attached, isPrimary, n - 1, f);
    }
  }

  lemma {:induction false} UnneededDistinct(filters: seq<PacketFilter>, attached: seq<PacketFilter>, isPrimary: bool,
                                            n: nat)
    requires DistinctIds(filters) && n <= |filters|
    ensures DistinctIds(UnneededUpTo(filters, attached, isPrimary, n))
  {
    if n != 0 {
      UnneededDistinct(filters, attached, isPrimary, n - 1);
      var before := UnneededUpTo(filters, attached, isPrimary, n - 1);
      forall i | 0 <= i < |before| ensures before[i].id != filters[n - 1].id {
        assert before[i] in before;
      }
    }
  }

  /**
   Removing the unneeded filters keeps coverage: an attached flow is covered by
   a retained filter exactly when it was covered at all, and no filter is
   retained without a flow whose highest-index match it is.
  */
  lemma RemovalKeepsCoverage(filters: seq<PacketFilter>, attached: seq<PacketFilter>)
    requires DistinctIds(filters)
    ensures forall k :: 0 <= k < |attached| ==>
              ((exists j :: 0 <= j < |filters| && Matches(attached[k], filters[j]))
               <==> (exists j :: 0 <= j < |filters| && filters[j] !in Unneeded(filters, attached, false)
                                 && Matches(attached[k], filters[j])))
    ensures forall j :: 0 <= j < |filters| ==>
              (filters[j] !in Unneeded(filters, attached, false)
               <==> exists k :: 0 <= k < |attached| && LastMatch(attached[k], filters) == j)
    ensures forall j :: 0 <= j < |filters| ==> filters[j] in Unneeded(filters, attached, true)
  {
    forall j | 0 <= j < |filters|
      ensures filters[j] !in Unneeded(filters, attached, false) <==> Needed(filters, attached, j)
      ensures filters[j] in Unneeded(filters, attached, true)
    {
      UnneededHas(filters, attached, false, |filters|, filters[j]);
      UnneededHas(filters, attached, true, |filters|, filters[j]);
    }
    forall k, j | 0 <= k < |attached| && 0 <= j < |filters| && Matches(attached[k], filters[j])
      ensures exists i ::
                && 0 <= i < |filters| && filters[i] !in Unneeded(filters, attached, false)
                && Matches(attached[k], filters[i])
    {
      var i := LastMatch(attached[k], filters);
      assert Needed(filters, attached, i);
    }
  }
}
