/** Who is evicted and who is prefetched, told by the fields of the regions and their owners, and
    what a queue is entitled to. */
module AdmissionVictims {
  import opened Options
  import opened Sequences
  import opened Admission
  import opened Walks
  import opened AdmissionTheorems
  import opened AdmissionEviction
  import opened AdmissionOrder

  /** The region falls to the queue when that is suspended or resumed. */
  predicate IsAdopted(m: Memory, place: Place, queue: Handle, p: Ptr) {
    queue != 0 && p in m.regions && m.regions[p].place == place && m.regions[p].owner == 0
  }

  /** Adoption gives unowned regions of the place an owner and a new timestamp, and changes nothing else. */
  ghost predicate AdoptionIs(m: Memory, place: Place, queue: Handle, walked: seq<Ptr>, a: Memory) {
    && a.regions.Keys == m.regions.Keys && m.clock <= a.clock
    && forall p :: p in m.regions ==>
         if p in walked && IsAdopted(m, place, queue, p)
         then && m.clock < a.regions[p].lastTouch <= a.clock
              && a.regions[p] == m.regions[p].(owner := queue, lastTouch := a.regions[p].lastTouch)
         else a.regions[p] == m.regions[p]
  }

  lemma {:induction false} AdoptedIs(m: Memory, place: Place, queue: Handle, walked: seq<Ptr>)
    requires forall p :: p in walked ==> p in m.regions
    ensures AdoptionIs(m, place, queue, walked, Adopted(m, place, queue, walked))
  {
    if queue != 0 && walked != [] {
      var rest, x := walked[..|walked| - 1], walked[|walked| - 1];
      assert walked == rest + [x];
      AdoptedIs(m, place, queue, rest);
    }
  }

  lemma StartOfEviction(m: Memory, place: Place, queue: Handle, order: seq<Ptr>)
    requires Enumerates(order, m.regions.Keys)
    ensures var start := BeforeEviction(m, place, queue, order);
            AdoptionIs(m, place, queue, order, start) && start.queues == Deactivated(m, place, queue).queues
  {
    AdoptedIs(Deactivated(m, place, queue), place, queue, order);
  }

  lemma StartOfPrefetch(m: Memory, place: Place, queue: Handle, order: seq<Ptr>)
    requires Enumerates(order, m.regions.Keys)
    ensures var start := BeforePrefetch(m, place, queue, order);
            AdoptionIs(m.(clock := m.clock + 1), place, queue, order, start)
  {
    AdoptedIs(Activated(m, place, queue), place, queue, order);
  }

  /** Of two candidates, one moved and one not although the backend would have taken it, the moved one comes first. */
  lemma MovedComesFirst(purpose: Purpose, m: Memory, place: Place, queue: Handle, order: seq<Ptr>, refused: set<Ptr>, need: nat,
                        kept: Ptr, gone: Ptr)
    requires TouchesOk(m) && Enumerates(order, m.regions.Keys)
    requires Eligible(purpose, m, place, queue, kept) && kept !in refused && gone in m.regions
    requires var after := Transfer(purpose, m, place, queue, order, refused, need).m;
             && after.regions[gone].resident != m.regions[gone].resident
             && after.regions[kept].resident == m.regions[kept].resident
    ensures Eligible(purpose, m, place, queue, gone) && Precedes(purpose, m, gone, kept)
  {
    TransferKeepsRest(purpose, m, place, queue, order, refused, need, gone);
    hide Transfer, TouchesOk, Enumerates;
    if Precedes(purpose, m, kept, gone) {
      NobodyIsPassedOver(purpose, m, place, queue, order, refused, need, gone, kept);
    }
    PrecedesIsTotalOrder(purpose, m, kept, gone, kept);
  }

  /** The victims of a suspension. Say `gone` is evicted while `kept`, which the backend would have
      taken, stays. Then not an active queue owns `gone` and an inactive one `kept`; among owners
      alike in that, `gone`'s has no higher priority; and among equal priorities `gone` was touched
      earlier, a region that is only now adopted counting as touched last. */
  lemma SuspensionEvictsInOrder(m: Memory, cfg: Settings, backend: Backend, place: Place, queue: Handle, order: seq<Ptr>,
                                reading: Reading, refused: set<Ptr>, kept: Ptr, gone: Ptr)
    requires TouchesOk(m) && Enumerates(order, m.regions.Keys) && kept in m.regions && gone in m.regions
    requires m.regions[kept].place == place && m.regions[kept].resident && m.regions[gone].resident && kept !in refused
    requires var after := Suspended(m, cfg, backend, place, queue, order, reading, refused);
             !after.regions[gone].resident && after.regions[kept].resident
    ensures m.regions[gone].place == place
    ensures var queues := m.queues[queue := QueueOf(m, queue).(place := place, active := false)];
            var ownerOfGone := if IsAdopted(m, place, queue, gone) then queue else m.regions[gone].owner;
            var ownerOfKept := if IsAdopted(m, place, queue, kept) then queue else m.regions[kept].owner;
            var goneActive := ownerOfGone in queues && queues[ownerOfGone].active;
            var keptActive := ownerOfKept in queues && queues[ownerOfKept].active;
            var gonePriority := if ownerOfGone in queues then queues[ownerOfGone].priority else 0;
            var keptPriority := if ownerOfKept in queues then queues[ownerOfKept].priority else 0;
            && (goneActive ==> keptActive)
            && (goneActive == keptActive ==> gonePriority <= keptPriority)
            && (goneActive == keptActive && gonePriority == keptPriority ==>
                  && (IsAdopted(m, place, queue, gone) ==> IsAdopted(m, place, queue, kept))
                  && (!IsAdopted(m, place, queue, kept) ==> m.regions[gone].lastTouch < m.regions[kept].lastTouch))
  {
    var start := BeforeEviction(m, place, queue, order);
    BeforeEvictionKeepsTouches(m, place, queue, order);
    StartOfEviction(m, place, queue, order);
    StampIsOld(m, kept);
    hide TouchesOk, Transfer, EvictionNeed, BeforeEviction;
    MovedComesFirst(Eviction, start, place, queue, order, refused, EvictionNeed(cfg, start, place, order, reading), kept, gone);
    hide Enumerates;
  }

  /** What a resumption brings back. Say `came` is prefetched while `left`, which the queue owns too
      and the backend would have taken, stays away: then `came` was touched later, a region that is
      only now adopted counting as touched last. */
  lemma ResumptionPrefetchesInOrder(m: Memory, cfg: Settings, backend: Backend, place: Place, queue: Handle, order: seq<Ptr>,
                                    qorder: seq<Handle>, reading: Reading, refused: set<Ptr>, left: Ptr, came: Ptr)
    requires TouchesOk(m) && Enumerates(order, m.regions.Keys) && left in m.regions && came in m.regions
    requires m.regions[left].place == place && !m.regions[left].resident && !m.regions[came].resident && left !in refused
    requires m.regions[left].owner == queue || m.regions[left].owner == 0
    requires var after := Resumed(m, cfg, backend, place, queue, order, qorder, reading, refused);
             after.regions[came].resident && !after.regions[left].resident
    ensures m.regions[came].place == place && (m.regions[came].owner == queue || m.regions[came].owner == 0)
    ensures IsAdopted(m, place, queue, left) ==> IsAdopted(m, place, queue, came)
    ensures !IsAdopted(m, place, queue, came) ==> m.regions[came].lastTouch > m.regions[left].lastTouch
  {
    var start := BeforePrefetch(m, place, queue, order);
    BeforePrefetchKeepsTouches(m, place, queue, order);
    StartOfPrefetch(m, place, queue, order);
    StampIsOld(m, came);
    StampIsOld(m, left);
    hide TouchesOk, Transfer, PrefetchNeed, BeforePrefetch;
    MovedComesFirst(Prefetching, start, place, queue, order, refused, PrefetchNeed(cfg, start, place, queue, order, qorder, reading), left, came);
    hide Enumerates;
  }

  // ----- how much is moved -----

  lemma {:induction false} BytesDependOnResidence(a: map<Ptr, Region>, b: map<Ptr, Region>, sel: Selection, walked: seq<Ptr>)
    requires sel.TrackedResident? && a.Keys == b.Keys
    requires forall p :: p in a ==> a[p].place == b[p].place && a[p].size == b[p].size && a[p].resident == b[p].resident
    ensures Bytes(a, sel, walked) == Bytes(b, sel, walked)
  {
    SelectedAlike(a, b, sel, sel, walked);
  }

  /** Without pressure nobody is evicted: neither what the driver reports in use nor what is tracked
      as resident exceeds the high watermark, or the driver reports nothing. */
  lemma NoPressureNoVictims(m: Memory, cfg: Settings, backend: Backend, place: Place, queue: Handle, order: seq<Ptr>,
                            reading: Reading, refused: set<Ptr>, p: Ptr)
    requires Enumerates(order, m.regions.Keys) && p in m.regions
    requires reading.Reading? && reading.total != 0 ==>
               && (reading.total - reading.free) % SIZE_RANGE <= HighWatermark(cfg, reading.total)
               && Bytes(m.regions, TrackedResident(place), order) <= HighWatermark(cfg, reading.total)
    ensures Suspended(m, cfg, backend, place, queue, order, reading, refused).regions[p].resident == m.regions[p].resident
  {
    var start := BeforeEviction(m, place, queue, order);
    StartOfEviction(m, place, queue, order);
    BytesDependOnResidence(start.regions, m.regions, TrackedResident(place), order);
    hide BeforeEviction, Enumerates, HighWatermark, LowWatermark, Bytes, Choice;
    assert EvictionNeed(cfg, start, place, order, reading) == 0;
    ZeroMoves(Eviction, start, Choice(Eviction, start, place, queue, order), refused);
  }

  /** Nor is more evicted than necessary: without the last victim fewer bytes would have been moved
      than what is in use above the low watermark, and fewer than the limit. */
  lemma NoNeedlessVictims(m: Memory, cfg: Settings, backend: Backend, place: Place, queue: Handle, order: seq<Ptr>,
                          reading: Reading, refused: set<Ptr>, gone: Ptr) returns (last: Ptr)
    requires TouchesOk(m) && Enumerates(order, m.regions.Keys) && gone in m.regions && m.regions[gone].resident
    requires !Suspended(m, cfg, backend, place, queue, order, reading, refused).regions[gone].resident
    ensures reading.Reading? && last in m.regions && m.regions[last].resident
    ensures var after := Suspended(m, cfg, backend, place, queue, order, reading, refused);
            var tracked, left := Bytes(m.regions, TrackedResident(place), order), Bytes(after.regions, TrackedResident(place), order);
            var used := Max((reading.total - reading.free) % SIZE_RANGE, tracked);
            && last in after.regions && !after.regions[last].resident
            && used > HighWatermark(cfg, reading.total)
            && tracked - left - m.regions[last].size < used - LowWatermark(cfg, reading.total)
            && (var limit := MbLimit(cfg.evictLimitMb, 4096); limit != 0 ==> tracked - left - m.regions[last].size < limit)
  {
    var start := BeforeEviction(m, place, queue, order);
    BeforeEvictionKeepsTouches(m, place, queue, order);
    StartOfEviction(m, place, queue, order);
    BytesDependOnResidence(start.regions, m.regions, TrackedResident(place), order);
    var need := EvictionNeed(cfg, start, place, order, reading);
    hide BeforeEviction, TouchesOk, Enumerates, HighWatermark, LowWatermark, MbLimit, Bytes;
    var r := Transfer(Eviction, start, place, queue, order, refused, need);
    MoveCounts(Eviction, start, place, queue, order, refused, need, gone);
    hide Transfer, Eligible;
    last := LastVictimWasNecessary(start, place, queue, order, refused, need);
    assert need > 0;
  }

  /** A region that was moved counts among the bytes moved. */
  lemma MoveCounts(purpose: Purpose, m: Memory, place: Place, queue: Handle, order: seq<Ptr>, refused: set<Ptr>, need: nat, p: Ptr)
    requires TouchesOk(m) && Enumerates(order, m.regions.Keys) && p in m.regions
    requires Transfer(purpose, m, place, queue, order, refused, need).m.regions[p].resident != m.regions[p].resident
    ensures Transfer(purpose, m, place, queue, order, refused, need).moved > 0 && need > 0
  {
    var c := Choice(purpose, m, place, queue, order);
    ChoiceIs(purpose, m, place, queue, order);
    SizesArePositive(m, p);
    MovedIs(purpose, m, c, refused, need);
    hide Choice, TouchesOk, Enumerates, Eligible;
    assert p in c;
    var i: nat :| i < |c| && c[i] == p;
    assert RegionIs(purpose, m, c, refused, need, Moved(purpose, m, c, refused, need), i);
    AcceptedOne(m, c, refused, i);
    hide Moved;
    AcceptedGrows(m, c, refused, i + 1, |c|);
    assert c[..|c|] == c;
  }

  lemma AcceptedOne(m: Memory, c: seq<Ptr>, refused: set<Ptr>, i: nat)
    requires (forall p :: p in c ==> p in m.regions) && i < |c| && c[i] !in refused
    ensures Accepted(m, c[..i + 1], refused) >= m.regions[c[i]].size
  {
    assert c[..i + 1][..i] == c[..i];
  }

  /** And no more is prefetched than necessary: without the last region fewer bytes would have come
      than the budget exceeds what was resident, and fewer than the limit. */
  lemma NoNeedlessPrefetch(m: Memory, cfg: Settings, backend: Backend, place: Place, queue: Handle, order: seq<Ptr>,
                           qorder: seq<Handle>, reading: Reading, refused: set<Ptr>, came: Ptr) returns (last: Ptr)
    requires TouchesOk(m) && Enumerates(order, m.regions.Keys) && came in m.regions && !m.regions[came].resident
    requires Resumed(m, cfg, backend, place, queue, order, qorder, reading, refused).regions[came].resident
    ensures reading.Reading? && last in m.regions && !m.regions[last].resident
    ensures var start := BeforePrefetch(m, place, queue, order);
            var after := Resumed(m, cfg, backend, place, queue, order, qorder, reading, refused);
            var before, now := Bytes(start.regions, QueueResident(place, queue), order), Bytes(after.regions, QueueResident(place, queue), order);
            var budget := QueueBudget(cfg, start, place, queue, reading.total, order, qorder);
            && last in after.regions && after.regions[last].resident
            && now - m.regions[last].size < budget
            && (var limit := MbLimit(cfg.prefetchLimitMb, 1024); limit != 0 ==> now - before - m.regions[last].size < limit)
  {
    var start := BeforePrefetch(m, place, queue, order);
    BeforePrefetchKeepsTouches(m, place, queue, order);
    StartOfPrefetch(m, place, queue, order);
    var need := PrefetchNeed(cfg, start, place, queue, order, qorder, reading);
    hide BeforePrefetch, TouchesOk, Enumerates, MbLimit, Bytes, QueueBudget;
    MoveCounts(Prefetching, start, place, queue, order, refused, need, came);
    last := LastPrefetchWasNecessary(start, place, queue, order, refused, need);
    hide Transfer;
  }

  lemma LastPrefetchWasNecessary(m: Memory, place: Place, queue: Handle, order: seq<Ptr>, refused: set<Ptr>, need: nat) returns (last: Ptr)
    requires TouchesOk(m) && Enumerates(order, m.regions.Keys)
    requires Transfer(Prefetching, m, place, queue, order, refused, need).moved > 0
    ensures var r := Transfer(Prefetching, m, place, queue, order, refused, need);
            && last in m.regions && !m.regions[last].resident && r.m.regions[last].resident
            && Bytes(r.m.regions, QueueResident(place, queue), order)
               < Bytes(m.regions, QueueResident(place, queue), order) + need + m.regions[last].size
  {
    ChoiceIs(Prefetching, m, place, queue, order);
    TransferConserves(Prefetching, m, place, queue, order, refused, need);
    last := LastMovedWasNecessary(Prefetching, m, Choice(Prefetching, m, place, queue, order), refused, need);
  }

  /** A limit is set in megabytes; zero or less lifts it. */
  lemma LimitsAreMegabytes(mb: Option<int>, fallback: nat)
    ensures MbLimit(mb, fallback) == 1024 * 1024 * (if mb.None? then fallback else if mb.value > 0 then mb.value else 0)
  {
  }

  // ----- bookkeeping -----

  /** A touch gives the first region of the walk that holds the address its owner and the newest
      timestamp; no other region changes, and if none holds the address nothing does. */
  lemma TouchIs(m: Memory, backend: Backend, place: Place, address: nat, owner: Handle, order: seq<Ptr>, i: nat)
    requires TouchesOk(m) && Enumerates(order, m.regions.Keys) && backend.usable && address != 0 && owner != 0 && i < |order|
    requires var r := m.regions[order[i]]; r.place == place && order[i] <= address < order[i] + r.size
    requires forall k :: 0 <= k < i ==> var r := m.regions[order[k]]; !(r.place == place && order[k] <= address < order[k] + r.size)
    ensures var after := Touched(m, backend, place, address, owner, order);
            && after.regions.Keys == m.regions.Keys && after.queues == m.queues
            && after.regions[order[i]].owner == owner && after.regions[order[i]].resident == m.regions[order[i]].resident
            && (forall p :: p in m.regions ==> p == order[i] || after.regions[p] == m.regions[p])
            && (forall p :: p in m.regions && p != order[i] ==> after.regions[p].lastTouch < after.regions[order[i]].lastTouch)
  {
    FirstHoldingIs(m, place, address, order, i);
    forall p | p in m.regions ensures m.regions[p].lastTouch <= m.clock { StampIsOld(m, p); }
    hide TouchesOk, Enumerates, FirstHolding;
  }

  lemma {:induction false} FirstHoldingIs(m: Memory, place: Place, address: nat, walked: seq<Ptr>, i: nat)
    requires i < |walked| && Holds(m, place, walked[i], address) && forall k :: 0 <= k < i ==> !Holds(m, place, walked[k], address)
    ensures FirstHolding(m, place, address, walked) == Some(walked[i])
  {
    if i > 0 {
      hide Holds;
      FirstHoldingIs(m, place, address, walked[1..], i - 1);
    }
  }

  /** A registered region is resident, belongs to whom the caller says, and was touched last. */
  lemma RegistrationIs(m: Memory, backend: Backend, p: Ptr, size: nat, place: Place, owner: Handle)
    requires TouchesOk(m) && backend.usable && p != 0 && size != 0 && place.context != 0
    ensures var after := Registered(m, backend, p, size, place, owner).regions;
            && after.Keys == m.regions.Keys + {p}
            && after[p].place == place && after[p].size == size && after[p].owner == owner && after[p].resident
            && forall q :: q in m.regions && q != p ==> after[q] == m.regions[q] && after[q].lastTouch < after[p].lastTouch
  {
    forall q | q in m.regions ensures m.regions[q].lastTouch <= m.clock { StampIsOld(m, q); }
    hide TouchesOk;
  }

  /** What a suspension or resumption that is not cut short records of the queue: where it is, whether
      it is active and since when; its priority and all other queues stay. */
  lemma CallsAreRecorded(m: Memory, cfg: Settings, backend: Backend, place: Place, queue: Handle, order: seq<Ptr>,
                         qorder: seq<Handle>, reading: Reading, refused: set<Ptr>)
    requires Enumerates(order, m.regions.Keys)
    ensures var priority := if queue in m.queues then m.queues[queue].priority else 0;
            && (!SuspendReturnsEarly(backend, place) ==>
                  var after := Suspended(m, cfg, backend, place, queue, order, reading, refused).queues;
                  && after.Keys == m.queues.Keys + {queue} && (forall q :: q in m.queues && q != queue ==> after[q] == m.queues[q])
                  && after[queue].place == place && after[queue].priority == priority && !after[queue].active)
            && (!ResumeReturnsEarly(backend, place, queue) ==>
                  var after := Resumed(m, cfg, backend, place, queue, order, qorder, reading, refused).queues;
                  && after.Keys == m.queues.Keys + {queue} && (forall q :: q in m.queues && q != queue ==> after[q] == m.queues[q])
                  && after[queue] == QueueState(place, priority, true, m.clock + 1))
  {
    hide Transfer, EvictionNeed, PrefetchNeed, Enumerates, Adopted;
  }

  /** Forgetting: a region goes only through its own backend, a queue goes with its ownership, and
      nothing else changes. */
  lemma ForgettingIs(m: Memory, backend: Backend, backendId: nat, p: Ptr, queue: Handle, order: seq<Ptr>)
    requires Enumerates(order, m.regions.Keys)
    ensures var after := Unregistered(m, backend, backendId, p);
            && after.queues == m.queues
            && (forall q :: q in after.regions <==> q in m.regions && !(q == p && backend.usable && m.regions[q].place.backend == backendId))
            && (forall q :: q in after.regions ==> after.regions[q] == m.regions[q])
    ensures queue != 0 ==>
              var after := Removed(m, queue, order);
              && after.queues.Keys == m.queues.Keys - {queue} && (forall q :: q in after.queues ==> after.queues[q] == m.queues[q])
              && after.regions.Keys == m.regions.Keys
              && forall q :: q in m.regions ==>
                   after.regions[q] == if m.regions[q].owner == queue then m.regions[q].(owner := 0) else m.regions[q]
  {
  }

  /** A priority is taken as it is set, within the limits. */
  lemma PriorityIs(m: Memory, queue: Handle, priority: int)
    requires queue != 0
    ensures var after := Prioritized(m, queue, priority);
            && after.regions == m.regions && after.queues.Keys == m.queues.Keys + {queue}
            && (forall q :: q in m.queues && q != queue ==> after.queues[q] == m.queues[q])
            && (-255 <= priority <= 255 ==> after.queues[queue].priority == priority)
            && (priority < -255 ==> after.queues[queue].priority == -255) && (priority > 255 ==> after.queues[queue].priority == 255)
            && (queue in m.queues ==> after.queues[queue] == m.queues[queue].(priority := after.queues[queue].priority))
            && (queue !in m.queues ==> !after.queues[queue].active)
  {
  }
}
