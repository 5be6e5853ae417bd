/** The admission manager: its tables of regions and queues and its clock, changed in place. */
module AdmissionManager {
  import opened Sequences
  import opened Admission
  import opened Walks
  import opened AdmissionTheorems

  lemma DisownedNothing(regions: map<Ptr, Region>, queue: Handle)
    ensures Disowned(regions, queue, []) == regions
  {
  }

  lemma DisownedStep(regions: map<Ptr, Region>, queue: Handle, walked: seq<Ptr>, p: Ptr)
    requires p in regions && p !in walked
    ensures var before := Disowned(regions, queue, walked);
            && p in before && before[p] == regions[p]
            && Disowned(regions, queue, walked + [p])
               == if regions[p].owner == queue then before[p := regions[p].(owner := 0)] else before
  {
  }

  class MemoryAdmissionManager {
    const cfg: Settings
    var regions: map<Ptr, Region>
    var queues: map<Handle, QueueState>
    var clock: nat

    ghost function View(): Memory
      reads this
    {
      Memory(regions, queues, clock)
    }

    constructor (cfg: Settings)
      ensures this.cfg == cfg && View() == Memory(map[], map[], 0) && TouchesOk(View())
    {
      this.cfg, regions, queues, clock := cfg, map[], map[], 0;
    }

    method RegisterRegion(backend: Backend, p: Ptr, size: nat, place: Place, owner: Handle)
      requires TouchesOk(View())
      modifies this
      ensures View() == Registered(old(View()), backend, p, size, place, owner) && TouchesOk(View())
    {
      OperationKeepsTouches(View(), cfg, Register(backend, p, size, place, owner));
      hide TouchesOk;
      if !backend.usable || p == 0 || size == 0 || place.context == 0 { return; }
      clock := clock + 1;
      regions := regions[p := Region(place, size, owner, true, clock)];
    }

    method UnregisterRegion(backend: Backend, backendId: nat, p: Ptr)
      requires TouchesOk(View())
      modifies this
      ensures View() == Unregistered(old(View()), backend, backendId, p) && TouchesOk(View())
    {
      if !backend.usable || p !in regions || regions[p].place.backend != backendId { return; }
      regions := regions - {p};
    }

    /** Finds the region that holds an address and marks it as used by its owner. */
    method TouchRegion(backend: Backend, place: Place, address: nat, owner: Handle, order: seq<Ptr>)
      requires TouchesOk(View()) && Enumerates(order, regions.Keys)
      modifies `regions, `clock
      ensures View() == Touched(old(View()), backend, place, address, owner, order) && TouchesOk(View())
    {
      OperationKeepsTouches(View(), cfg, Touch(backend, place, address, owner, order));
      hide TouchesOk, Enumerates;
      if !backend.usable || address == 0 || owner == 0 { return; }
      var i := 0;
      while i < |order|
        invariant i <= |order| && View() == old(View())
        invariant FirstHolding(View(), place, address, order) == FirstHolding(View(), place, address, order[i..])
      {
        var p := order[i];
        WalkedApart(order, regions.Keys, i);
        assert order[i..][1..] == order[i + 1..];
        if regions[p].place == place && p <= address < p + regions[p].size {
          TouchOne(p, owner);
          return;
        }
        i := i + 1;
      }
    }

    method TouchOne(p: Ptr, owner: Handle)
      requires p in regions
      modifies `regions, `clock
      ensures View() == WithTouch(old(View()), p, old(regions)[p].(owner := owner))
    {
      clock := clock + 1;
      regions := regions[p := regions[p].(owner := owner, lastTouch := clock)];
    }

    method SetQueuePriority(queue: Handle, priority: int)
      requires TouchesOk(View())
      modifies this
      ensures View() == Prioritized(old(View()), queue, priority) && TouchesOk(View())
    {
      if queue == 0 { return; }
      if queue !in queues { queues := queues[queue := NEW_QUEUE]; }
      var p := if priority < PRIORITY_MIN then PRIORITY_MIN else if priority > PRIORITY_MAX then PRIORITY_MAX else priority;
      queues := queues[queue := queues[queue].(priority := p)];
    }

    method DisownRegions(queue: Handle, order: seq<Ptr>)
      requires Enumerates(order, regions.Keys)
      modifies `regions
      ensures regions == Disowned(old(regions), queue, order)
    {
      assert order[..0] == [];
      DisownedNothing(regions, queue);
      hide Disowned, Enumerates;
      var i := 0;
      while i < |order|
        invariant i <= |order| && regions == Disowned(old(regions), queue, order[..i])
      {
        var p := order[i];
        WalkedApart(order, old(regions).Keys, i);
        DisownedStep(old(regions), queue, order[..i], p);
        if regions[p].owner == queue { regions := regions[p := regions[p].(owner := 0)]; }
        i := i + 1;
      }
      assert order[..i] == order;
    }

    method RemoveQueue(queue: Handle, order: seq<Ptr>)
      requires TouchesOk(View()) && Enumerates(order, regions.Keys)
      modifies `regions, `queues
      ensures View() == Removed(old(View()), queue, order) && TouchesOk(View())
    {
      OperationKeepsTouches(View(), cfg, Remove(queue, order));
      hide TouchesOk, Disowned, Enumerates;
      if queue == 0 { return; }
      queues := queues - {queue};
      DisownRegions(queue, order);
    }

    /** Regions of the place that have no owner fall to the queue. */
    method AdoptContextRegions(place: Place, queue: Handle, order: seq<Ptr>)
      requires Enumerates(order, regions.Keys)
      modifies `regions, `clock
      ensures View() == Adopted(old(View()), place, queue, order)
    {
      if queue == 0 { return; }
      assert order[..0] == [];
      var i := 0;
      while i < |order|
        invariant i <= |order| && (forall p :: p in order[..i] ==> p in old(regions))
        invariant View() == Adopted(old(View()), place, queue, order[..i])
      {
        var p := order[i];
        WalkedApart(order, old(regions).Keys, i);
        var region := regions[p];
        if region.place == place && region.owner == 0 {
          clock := clock + 1;
          regions := regions[p := region.(owner := queue, lastTouch := clock)];
        }
        i := i + 1;
      }
      assert order[..i] == order;
    }

    method SumBytes(sel: Selection, order: seq<Ptr>) returns (bytes: nat)
      requires Enumerates(order, regions.Keys)
      ensures bytes == Bytes(regions, sel, order)
    {
      bytes := 0;
      var i := 0;
      while i < |order|
        invariant i <= |order| && bytes == Bytes(regions, sel, order[..i])
      {
        WalkedApart(order, regions.Keys, i);
        if Selected(sel, regions[order[i]]) { bytes := bytes + regions[order[i]].size; }
        i := i + 1;
      }
      assert order[..i] == order;
    }

    method CollectRegions(purpose: Purpose, place: Place, queue: Handle, order: seq<Ptr>) returns (found: seq<Ptr>)
      requires Enumerates(order, regions.Keys)
      ensures found == Collected(purpose, View(), place, queue, order)
    {
      found := [];
      var i := 0;
      while i < |order|
        invariant i <= |order| && found == Collected(purpose, View(), place, queue, order[..i])
      {
        WalkedApart(order, regions.Keys, i);
        var r := regions[order[i]];
        var wanted := if purpose.Eviction? then r.resident else r.owner == queue && !r.resident;
        if r.place == place && wanted { found := found + [order[i]]; }
        i := i + 1;
      }
      assert order[..i] == order;
    }

    method MoveOne(p: Ptr, resident: bool)
      requires p in regions
      modifies `regions, `clock
      ensures View() == WithTouch(old(View()), p, old(regions)[p].(resident := resident))
      ensures regions.Keys == old(regions).Keys && regions[p].size == old(regions)[p].size
    {
      clock := clock + 1;
      regions := regions[p := regions[p].(resident := resident, lastTouch := clock)];
    }

    /** Evicts or prefetches the regions one after the other until enough bytes have moved. */
    method MoveRegions(purpose: Purpose, chosen: seq<Ptr>, refused: set<Ptr>, need: nat)
      requires need > 0 && forall p :: p in chosen ==> p in regions
      modifies `regions, `clock
      ensures View() == Moved(purpose, old(View()), chosen, refused, need).m
    {
      var moved: nat, i: nat := 0, 0;
      assert chosen[..0] == [];
      hide Moved, WithTouch;
      ghost var m := View();
      MovedNothing(purpose, m, refused, need);
      while i < |chosen|
        invariant i <= |chosen| && regions.Keys == m.regions.Keys && moved < need
        invariant Moved(purpose, m, chosen[..i], refused, need) == Progress(View(), moved)
      {
        var p := chosen[i];
        MovedStep(purpose, m, chosen, refused, need, i);
        i := i + 1;
        if p in refused { continue; }
        MoveOne(p, purpose.Prefetching?);
        moved := moved + regions[p].size;
        if moved >= need { break; }
      }
      EnoughMoved(purpose, m, chosen, refused, need, i);
      assert chosen[..|chosen|] == chosen;
    }

    /** Collects what is eligible, sorts it and moves it. */
    method TransferRegions(purpose: Purpose, place: Place, queue: Handle, order: seq<Ptr>, refused: set<Ptr>, need: nat)
      requires Enumerates(order, regions.Keys)
      modifies `regions, `clock
      ensures View() == Transfer(purpose, old(View()), place, queue, order, refused, need).m
    {
      hide Enumerates, Moved, Sorted, Collected;
      if need == 0 {
        NothingMoves(purpose, View(), place, queue, order, refused);
        return;
      }
      var found := CollectRegions(purpose, place, queue, order);
      CollectedHolds(purpose, View(), place, queue, order);
      found := Sorted(purpose, Memory(regions, queues, clock), found);
      MoveRegions(purpose, found, refused, need);
    }

    method EvictionTarget(place: Place, order: seq<Ptr>, reading: Reading) returns (need: nat)
      requires Enumerates(order, regions.Keys)
      ensures need == EvictionNeed(cfg, View(), place, order, reading)
    {
      hide Enumerates, Bytes, HighWatermark, LowWatermark;
      if reading.NoReading? || reading.total == 0 { return 0; }
      var driver := (reading.total - reading.free) % SIZE_RANGE;
      var tracked := SumBytes(TrackedResident(place), order);
      var used := if driver > tracked then driver else tracked;
      if used <= HighWatermark(cfg, reading.total) { return 0; }
      var low := LowWatermark(cfg, reading.total);
      need := if used > low then used - low else 0;
      var limit := MbLimit(cfg.evictLimitMb, 4096);
      if limit != 0 && limit < need { need := limit; }
    }

    method Deactivate(place: Place, queue: Handle)
      modifies `queues
      ensures View() == Deactivated(old(View()), place, queue)
    {
      if queue !in queues { queues := queues[queue := NEW_QUEUE]; }
      queues := queues[queue := queues[queue].(place := place, active := false)];
    }

    method Activate(place: Place, queue: Handle)
      modifies `queues, `clock
      ensures View() == Activated(old(View()), place, queue)
    {
      if queue !in queues { queues := queues[queue := NEW_QUEUE]; }
      clock := clock + 1;
      queues := queues[queue := queues[queue].(place := place, active := true, lastActive := clock)];
    }

    method OnQueueSuspend(backend: Backend, place: Place, queue: Handle, order: seq<Ptr>, reading: Reading, refused: set<Ptr>)
      requires TouchesOk(View()) && Enumerates(order, regions.Keys)
      modifies `regions, `queues, `clock
      ensures View() == Suspended(old(View()), cfg, backend, place, queue, order, reading, refused) && TouchesOk(View())
    {
      SuspendKeepsTouches(View(), cfg, backend, place, queue, order, reading, refused);
      hide TouchesOk, Enumerates, Adopted, EvictionNeed, Transfer, Deactivated;
      if !backend.usable || place.context == 0 || !backend.canQuery || !backend.canEvict { return; }
      Deactivate(place, queue);
      AdoptContextRegions(place, queue, order);
      var need := EvictionTarget(place, order, reading);
      TransferRegions(Eviction, place, queue, order, refused, need);
    }

    /** The weights of the active queues of a place, and that of one queue among them. */
    method WeighQueues(place: Place, queue: Handle, qorder: seq<Handle>) returns (sum: nat, own: nat)
      requires Enumerates(qorder, queues.Keys)
      ensures sum == ActiveWeight(queues, place, qorder)
      ensures own == if ActiveAt(queues, place, queue) then QueueWeight(queues[queue]) else 1
    {
      hide QueueWeight;
      sum, own := 0, 1;
      var i := 0;
      while i < |qorder|
        invariant i <= |qorder| && sum == ActiveWeight(queues, place, qorder[..i])
        invariant own == if queue in qorder[..i] && ActiveAt(queues, place, queue) then QueueWeight(queues[queue]) else 1
      {
        WalkedApart(qorder, queues.Keys, i);
        var q := queues[qorder[i]];
        if q.active && q.place == place {
          var weight := QueueWeight(q);
          sum := sum + weight;
          if qorder[i] == queue { own := weight; }
        }
        i := i + 1;
      }
      assert qorder[..i] == qorder;
    }

    method GetQueueBudget(place: Place, queue: Handle, total: nat, order: seq<Ptr>, qorder: seq<Handle>) returns (budget: nat)
      requires Enumerates(order, regions.Keys) && Enumerates(qorder, queues.Keys)
      ensures budget == QueueBudget(cfg, View(), place, queue, total, order, qorder)
    {
      hide Bytes, LowWatermark;
      var usable := LowWatermark(cfg, total);
      var sum, own := WeighQueues(place, queue, qorder);
      if sum == 0 { return usable; }
      budget := usable * own / sum;
      var hot := SumBytes(QueueHot(place, queue), order);
      if hot != 0 && hot < budget { budget := hot; }
    }

    method BeforeQueueResume(backend: Backend, place: Place, queue: Handle, order: seq<Ptr>, qorder: seq<Handle>,
                             reading: Reading, refused: set<Ptr>)
      requires TouchesOk(View()) && Enumerates(order, regions.Keys) && Enumerates(qorder, queues.Keys + {queue})
      modifies `regions, `queues, `clock
      ensures View() == Resumed(old(View()), cfg, backend, place, queue, order, qorder, reading, refused) && TouchesOk(View())
    {
      ResumeKeepsTouches(View(), cfg, backend, place, queue, order, qorder, reading, refused);
      hide TouchesOk, Enumerates, Adopted, PrefetchNeed, Transfer;
      if !backend.usable || place.context == 0 || queue == 0 || !backend.canQuery || !backend.canPrefetch { return; }
      Activate(place, queue);
      AdoptContextRegions(place, queue, order);
      var need := PrefetchTarget(place, queue, order, qorder, reading);
      TransferRegions(Prefetching, place, queue, order, refused, need);
    }

    method PrefetchTarget(place: Place, queue: Handle, order: seq<Ptr>, qorder: seq<Handle>, reading: Reading) returns (need: nat)
      requires Enumerates(order, regions.Keys) && Enumerates(qorder, queues.Keys)
      ensures need == PrefetchNeed(cfg, View(), place, queue, order, qorder, reading)
    {
      hide Enumerates, Bytes, QueueBudget;
      if reading.NoReading? || reading.total == 0 { return 0; }
      var budget := GetQueueBudget(place, queue, reading.total, order, qorder);
      var resident := SumBytes(QueueResident(place, queue), order);
      if resident >= budget { return 0; }
      need := budget - resident;
      var limit := MbLimit(cfg.prefetchLimitMb, 1024);
      if limit != 0 && limit < need { need := limit; }
    }
  }

  lemma MovedNothing(purpose: Purpose, m: Memory, refused: set<Ptr>, need: nat)
    ensures Moved(purpose, m, [], refused, need) == Progress(m, 0)
  {
  }

  lemma MovedStep(purpose: Purpose, m: Memory, chosen: seq<Ptr>, refused: set<Ptr>, need: nat, i: nat)
    requires (forall p :: p in chosen ==> p in m.regions) && i < |chosen|
    ensures var before, p := Moved(purpose, m, chosen[..i], refused, need), chosen[i];
            && p in before.m.regions
            && Moved(purpose, m, chosen[..i + 1], refused, need)
               == if before.moved >= need || p in refused then before
                  else Progress(WithTouch(before.m, p, before.m.regions[p].(resident := purpose.Prefetching?)),
                                before.moved + before.m.regions[p].size)
  {
    assert chosen[..i + 1][..i] == chosen[..i];
  }

  /** Once enough bytes have moved the rest of the walk changes nothing. */
  lemma {:induction false} EnoughMoved(purpose: Purpose, m: Memory, chosen: seq<Ptr>, refused: set<Ptr>, need: nat, i: nat)
    requires (forall p :: p in chosen ==> p in m.regions) && i <= |chosen|
    ensures Moved(purpose, m, chosen[..i], refused, need).moved >= need ==>
              Moved(purpose, m, chosen, refused, need) == Moved(purpose, m, chosen[..i], refused, need)
    decreases |chosen|
  {
    if i < |chosen| {
      var rest := chosen[..|chosen| - 1];
      assert rest[..i] == chosen[..i];
      EnoughMoved(purpose, m, rest, refused, need, i);
    } else {
      assert chosen[..i] == chosen;
    }
  }

  lemma NothingMoves(purpose: Purpose, m: Memory, place: Place, queue: Handle, order: seq<Ptr>, refused: set<Ptr>)
    ensures Transfer(purpose, m, place, queue, order, refused, 0).m == m
  {
    ZeroMoves(purpose, m, Choice(purpose, m, place, queue, order), refused);
  }
}
