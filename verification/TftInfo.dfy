/**
 TTFTInfo (telephonyprotocols/gprsumtsqosinterface/src/UmtsNifControlIf.cpp):
 a table of eight filter slots with an occupancy flag each, a count of
 occupied slots and the cursor of a single iterator.

 The table is specified by its slots, read as `None` when free, and by the
 finite map from identifier to filter that the slots stand for.
*/
module Tft {
  import opened Wrappers
  import opened Sequences
  import opened PacketFilters

  type Slots = seq<Option<PacketFilter>>

  ghost predicate DistinctSlots(slots: Slots) {
    forall i, j :: 0 <= i < j < |slots| && slots[i].Some? && slots[j].Some? ==> slots[i].value.id != slots[j].value.id
  }

  ghost predicate ValidSlots(slots: Slots) {
    |slots| == KMaxPacketFilters && DistinctSlots(slots)
  }

  const EmptySlots: Slots := [None, None, None, None, None, None, None, None]

  /** The stored filters in slot order. */
  function Occupied(slots: Slots): (r: seq<PacketFilter>)
    ensures |r| <= |slots|
  {
    if slots == [] then []
    else if slots[0].None? then Occupied(slots[1..])
    else [slots[0].value] + Occupied(slots[1..])
  }

  /** The finite map from identifier to filter that the slots stand for. */
  function AsMap(slots: Slots): map<int, PacketFilter> {
    if slots == [] then map[]
    else if slots[0].None? then AsMap(slots[1..])
    else AsMap(slots[1..])[slots[0].value.id := slots[0].value]
  }

  /** Slot `k` holds identifier `id`. */
  predicate Holds(slots: Slots, id: int, k: int) {
    0 <= k < |slots| && slots[k].Some? && slots[k].value.id == id
  }

  /** The first slot from `i` on that holds `id`, or `|slots|`. */
  function SlotOf(slots: Slots, id: int, i: nat): (r: nat)
    requires i <= |slots|
    ensures i <= r <= |slots|
    ensures r < |slots| ==> Holds(slots, id, r)
    ensures forall k :: i <= k < r ==> !Holds(slots, id, k)
    decreases |slots| - i
  {
    if i == |slots| || Holds(slots, id, i) then i else SlotOf(slots, id, i + 1)
  }

  function FreeSlot(slots: Slots, i: nat): (r: nat)
    requires i <= |slots|
    ensures i <= r <= |slots|
    ensures r < |slots| ==> slots[r].None?
    ensures forall k :: i <= k < r ==> slots[k].Some?
    decreases |slots| - i
  {
    if i == |slots| || slots[i].None? then i else FreeSlot(slots, i + 1)
  }

  /** Replace the filter with the same identifier, else take the first free slot, else refuse. */
  function Add(slots: Slots, f: PacketFilter): (Slots, int) {
    var same := SlotOf(slots, f.id, 0);
    var free := FreeSlot(slots, 0);
    if same < |slots| then (slots[same := Some(f)], KErrNone)
    else if free < |slots| then (slots[free := Some(f)], KErrNone)
    else (slots, KErrGeneral)
  }

  function Remove(slots: Slots, id: int): (Slots, int) {
    var same := SlotOf(slots, id, 0);
    if same < |slots| then (slots[same := None], KErrNone) else (slots, KErrNotFound)
  }

  // ---------- slots and map agree ----------

  lemma {:induction false} MapHas(slots: Slots, id: int)
    requires DistinctSlots(slots)
    ensures id in AsMap(slots) <==> exists k :: Holds(slots, id, k)
    ensures forall k :: Holds(slots, id, k) ==> AsMap(slots)[id] == slots[k].value
  {
    if slots != [] {
      var rest := slots[1..];
      MapHas(rest, id);
      forall k | Holds(slots, id, k) ensures id in AsMap(slots) && AsMap(slots)[id] == slots[k].value {
        if k != 0 {
          assert Holds(rest, id, k - 1);
        }
      }
      if id in AsMap(slots) && !Holds(slots, id, 0) {
        var k :| Holds(rest, id, k);
        assert Holds(slots, id, k + 1);
      }
    }
  }

  lemma {:induction false} MapSet(slots: Slots, k: nat, f: PacketFilter)
    requires DistinctSlots(slots) && k < |slots|
    requires forall i :: Holds(slots, f.id, i) ==> i == k
    requires slots[k].Some? ==> slots[k].value.id == f.id
    ensures DistinctSlots(slots[k := Some(f)])
    ensures AsMap(slots[k := Some(f)]) == AsMap(slots)[f.id := f]
  {
    var after := slots[k := Some(f)];
    forall i, j | 0 <= i < j < |after| && after[i].Some? && after[j].Some?
      ensures after[i].value.id != after[j].value.id
    {
      assert i != k ==> !Holds(slots, f.id, i);
      assert j != k ==> !Holds(slots, f.id, j);
    }
    if k == 0 {
      assert after[1..] == slots[1..];
    } else {
      forall i | Holds(slots[1..], f.id, i) ensures i == k - 1 {
        assert Holds(slots, f.id, i + 1);
      }
      MapSet(slots[1..], k - 1, f);
      assert after[1..] == slots[1..][k - 1 := Some(f)];
      assert slots[0].Some? ==> slots[0].value.id != f.id by {
        assert !Holds(slots, f.id, 0);
      }
    }
  }

  lemma {:induction false} MapClear(slots: Slots, k: nat)
    requires DistinctSlots(slots) && k < |slots| && slots[k].Some?
    ensures DistinctSlots(slots[k := None])
    ensures AsMap(slots[k := None]) == AsMap(slots) - {slots[k].value.id}
  {
    var after := slots[k := None];
    if k == 0 {
      assert after[1..] == slots[1..];
      MapHas(slots[1..], slots[0].value.id);
      assert forall i :: 0 <= i < |slots[1..]| ==> slots[1..][i] == slots[i + 1];
    } else {
      MapClear(slots[1..], k - 1);
      assert after[1..] == slots[1..][k - 1 := None];
    }
  }

  /** The stored filters are the values of the map, each once: their number is the map's size. */
  lemma {:induction false} OccupiedIsMap(slots: Slots)
    requires DistinctSlots(slots)
    ensures DistinctIds(Occupied(slots))
    ensures |Occupied(slots)| == |AsMap(slots)|
    ensures forall f :: f in Occupied(slots) <==> f.id in AsMap(slots) && AsMap(slots)[f.id] == f
  {
    if slots != [] {
      var rest := slots[1..];
      OccupiedIsMap(rest);
      if slots[0].Some? {
        var f := slots[0].value;
        MapHas(rest, f.id);
        assert f.id !in AsMap(rest) by {
          forall k ensures !Holds(rest, f.id, k) {
            assert 0 <= k < |rest| ==> rest[k] == slots[k + 1];
          }
        }
        forall g | g in Occupied(rest) ensures g.id != f.id {
        }
        assert AsMap(slots).Keys == AsMap(rest).Keys + {f.id};
      }
    }
  }

  lemma {:induction false} OccupiedFull(slots: Slots)
    ensures |Occupied(slots)| == |slots| <==> FreeSlot(slots, 0) == |slots|
  {
    if slots != [] {
      OccupiedFull(slots[1..]);
      if FreeSlot(slots, 0) < |slots| {
        var i := FreeSlot(slots, 0);
        if i != 0 {
          assert slots[1..][i - 1].None?;
        }
      }
    }
  }

  /** Adding is map update, and is refused exactly when eight other identifiers are stored. */
  lemma AddRefinesMap(slots: Slots, f: PacketFilter)
    requires ValidSlots(slots)
    ensures var (after, err) := Add(slots, f);
            && (err == KErrNone || err == KErrGeneral)
            && (err == KErrGeneral <==> f.id !in AsMap(slots) && |AsMap(slots)| == KMaxPacketFilters)
            && (err == KErrGeneral ==> after == slots)
            && (err == KErrNone ==> ValidSlots(after) && AsMap(after) == AsMap(slots)[f.id := f])
  {
    OccupiedIsMap(slots);
    OccupiedFull(slots);
    MapHas(slots, f.id);
    var same := SlotOf(slots, f.id, 0);
    var free := FreeSlot(slots, 0);
    if same < |slots| {
      forall i | Holds(slots, f.id, i) ensures i == same {
      }
      MapSet(slots, same, f);
    } else if free < |slots| {
      MapSet(slots, free, f);
    }
  }

  lemma RemoveRefinesMap(slots: Slots, id: int)
    requires ValidSlots(slots)
    ensures var (after, err) := Remove(slots, id);
            && ValidSlots(after)
            && AsMap(after) == AsMap(slots) - {id}
            && (err == KErrNone || err == KErrNotFound)
            && (err == KErrNone <==> id in AsMap(slots))
  {
    MapHas(slots, id);
    var same := SlotOf(slots, id, 0);
    if same < |slots| {
      MapClear(slots, same);
    }
  }

  // ---------- templates built by adding filters one by one ----------

  function AddAll(slots: Slots, filters: seq<PacketFilter>): Slots {
    if filters == [] then slots
    else Add(AddAll(slots, filters[..|filters| - 1]), filters[|filters| - 1]).0
  }

  /** Exactly `filters`, from slot 0 on. */
  ghost predicate Packed(slots: Slots, filters: seq<PacketFilter>) {
    && |filters| <= |slots|
    && forall i :: 0 <= i < |slots| ==> slots[i] == if i < |filters| then Some(filters[i]) else None
  }

  lemma PackedAdd(slots: Slots, filters: seq<PacketFilter>, f: PacketFilter)
    requires Packed(slots, filters) && |filters| < |slots|
    requires forall i :: 0 <= i < |filters| ==> filters[i].id != f.id
    ensures Add(slots, f).1 == KErrNone && Packed(Add(slots, f).0, filters + [f])
  {
    assert !Holds(slots, f.id, SlotOf(slots, f.id, 0));
    assert slots[|filters|].None?;
    assert FreeSlot(slots, 0) == |filters|;
  }

  lemma {:induction false} PackedOccupied(slots: Slots, filters: seq<PacketFilter>)
    requires Packed(slots, filters)
    ensures Occupied(slots) == filters
  {
    if slots != [] {
      PackedOccupied(slots[1..], if filters == [] then [] else filters[1..]);
    }
  }

  /** Distinct filters, at most eight, all fit into a fresh template and keep their order. */
  lemma {:induction false} AddAllDistinct(filters: seq<PacketFilter>)
    requires DistinctIds(filters) && |filters| <= KMaxPacketFilters
    ensures |AddAll(EmptySlots, filters)| == KMaxPacketFilters && Packed(AddAll(EmptySlots, filters), filters)
    ensures Occupied(AddAll(EmptySlots, filters)) == filters
  {
    if filters != [] {
      var n := |filters| - 1;
      AddAllDistinct(filters[..n]);
      PackedAdd(AddAll(EmptySlots, filters[..n]), filters[..n], filters[n]);
      assert filters[..n] + [filters[n]] == filters;
    }
    PackedOccupied(AddAll(EmptySlots, filters), filters);
  }

  // ---------- the table itself ----------

  class TftInfo {
    const used: array<bool>             // iFilterSlots
    const filters: array<PacketFilter>  // iPacketFilters
    var count: nat                      // iFilterCount
    var last: nat                       // iLastReturnedFilter
    ghost var contents: Slots

    ghost predicate Valid()
      reads this, used, filters
    {
      && used.Length == KMaxPacketFilters && filters.Length == KMaxPacketFilters
      && ValidSlots(contents)
      && (forall i :: 0 <= i < KMaxPacketFilters ==> contents[i] == if used[i] then Some(filters[i]) else None)
      && count == |AsMap(contents)|
      && last <= KMaxPacketFilters
    }

    /** What the iterator has yet to return. */
    ghost function Rest(): seq<PacketFilter>
      reads this
      requires last <= |contents|
    {
      Occupied(contents[last..])
    }

    constructor ()
      ensures Valid() && fresh(used) && fresh(filters)
      ensures contents == EmptySlots
    {
      used := new bool[KMaxPacketFilters](_ => false);
      filters := new PacketFilter[KMaxPacketFilters](_ => PacketFilter(0, 0, 0, 0, 0, 0, 0, 0, 0, 0, 0));
      count, last := 0, 0;
      contents := EmptySlots;
      new;
      EmptyMap(EmptySlots);
    }

    method AddPacketFilter(f: PacketFilter) returns (err: int)
      requires Valid()
      modifies this, used, filters
      ensures Valid()
      ensures (contents, err) == Add(old(contents), f)
      ensures last == if |AsMap(contents)| == |AsMap(old(contents))| then old(last) else 0
    {
      AddRefinesMap(contents, f);
      OccupiedIsMap(contents);
      OccupiedFull(contents);
      MapHas(contents, f.id);
      var i := 0;
      while i < KMaxPacketFilters
        invariant 0 <= i <= KMaxPacketFilters
        invariant forall k :: 0 <= k < i ==> !Holds(contents, f.id, k)
      {
        if used[i] && filters[i].id == f.id {
          assert Holds(contents, f.id, i);
          filters[i] := f;
          contents := contents[i := Some(f)];
          return KErrNone;
        }
        i := i + 1;
      }
      if count == KMaxPacketFilters {
        return KErrGeneral;
      }
      i := 0;
      while used[i]
        invariant 0 <= i < KMaxPacketFilters
        invariant forall k :: 0 <= k < i ==> contents[k].Some?
        invariant FreeSlot(contents, 0) < KMaxPacketFilters
        decreases KMaxPacketFilters - i
      {
        assert contents[i].Some?;
        i := i + 1;
      }
      used[i], filters[i] := true, f;
      contents := contents[i := Some(f)];
      count := count + 1;
      last := 0;
      err := KErrNone;
    }

    method GetPacketFilter(id: int) returns (f: Option<PacketFilter>)
      requires Valid()
      ensures f == if id in AsMap(contents) then Some(AsMap(contents)[id]) else None
    {
      MapHas(contents, id);
      var i := 0;
      while i < KMaxPacketFilters
        invariant 0 <= i <= KMaxPacketFilters
        invariant forall k :: 0 <= k < i ==> !Holds(contents, id, k)
      {
        if used[i] && filters[i].id == id {
          assert Holds(contents, id, i);
          return Some(filters[i]);
        }
        i := i + 1;
      }
      return None;
    }

    method RemovePacketFilter(id: int) returns (err: int)
      requires Valid()
      modifies this, used
      ensures Valid()
      ensures (contents, err) == Remove(old(contents), id)
      ensures last == if err == KErrNone then 0 else old(last)
    {
      RemoveRefinesMap(contents, id);
      MapHas(contents, id);
      var i := 0;
      while i < KMaxPacketFilters && !(used[i] && filters[i].id == id)
        invariant 0 <= i <= KMaxPacketFilters
        invariant forall k :: 0 <= k < i ==> !Holds(contents, id, k)
      {
        i := i + 1;
      }
      if i == KMaxPacketFilters {
        return KErrNotFound;
      }
      assert Holds(contents, id, i);
      used[i] := false;
      contents := contents[i := None];
      count := count - 1;
      last := 0;
      err := KErrNone;
    }

    method SetToFirst()
      requires Valid()
      modifies this`last
      ensures Valid() && last == 0 && Rest() == Occupied(contents)
    {
      last := 0;
      assert contents[0..] == contents;
    }

    /** The iterator: the next filter in slot order, or not found once all have been returned. */
    method NextPacketFilter() returns (f: Option<PacketFilter>)
      requires Valid()
      modifies this`last
      ensures Valid()
      ensures old(Rest()) == [] ==> f.None? && Rest() == []
      ensures old(Rest()) != [] ==> f == Some(old(Rest())[0]) && Rest() == old(Rest())[1..]
    {
      var i := last;
      while i < KMaxPacketFilters && !used[i]
        invariant last <= i <= KMaxPacketFilters
        invariant Occupied(contents[i..]) == Rest()
      {
        assert contents[i..][0] == contents[i];
        assert contents[i..][1..] == contents[i + 1..];
        i := i + 1;
      }
      if i == KMaxPacketFilters {
        return None;
      }
      assert contents[i..][0] == contents[i];
      assert contents[i..][1..] == contents[i + 1..];
      f := Some(filters[i]);
      last := i + 1;
    }
  }

  lemma {:induction false} EmptyMap(slots: Slots)
    requires forall i :: 0 <= i < |slots| ==> slots[i].None?
    ensures AsMap(slots) == map[]
  {
    if slots != [] {
      EmptyMap(slots[1..]);
    }
  }

  /**
   SetToFirst and repeated NextPacketFilter, as CPdpContext::Update uses them:
   every stored filter exactly once, in slot order.
  */
  method CopyFilters(tft: TftInfo) returns (copy: seq<PacketFilter>)
    requires tft.Valid()
    modifies tft`last
    ensures tft.Valid()
    ensures copy == Occupied(tft.contents)
  {
    hide Occupied, AsMap;
    tft.SetToFirst();
    copy := [];
    var more := true;
    while more && |copy| < KMaxPacketFilters
      invariant tft.Valid() && |copy| <= KMaxPacketFilters
      invariant copy + tft.Rest() == Occupied(tft.contents)
      invariant !more ==> tft.Rest() == []
      decreases KMaxPacketFilters - |copy|, more
    {
      var next := tft.NextPacketFilter();
      if next.Some? {
        copy := copy + [next.value];
      } else {
        more := false;
      }
    }
  }
}
