/** Eviction and prefetching reach their targets, in the right order, and move nothing needlessly. */
module AdmissionEviction {
  import opened Sequences
  import opened Admission
  import opened Walks
  import opened AdmissionTheorems

  /** The bytes of the regions that the backend does not refuse. */
  function Accepted(m: Memory, chosen: seq<Ptr>, refused: set<Ptr>): nat
    requires forall p :: p in chosen ==> p in m.regions
  {
    if chosen == [] then 0 else
      var p := chosen[|chosen| - 1];
      Accepted(m, chosen[..|chosen| - 1], refused) + if p in refused then 0 else m.regions[p].size
  }

  lemma {:induction false} AcceptedGrows(m: Memory, chosen: seq<Ptr>, refused: set<Ptr>, i: nat, j: nat)
    requires (forall p :: p in chosen ==> p in m.regions) && i <= j <= |chosen|
    ensures Accepted(m, chosen[..i], refused) <= Accepted(m, chosen[..j], refused)
    decreases j
  {
    if i < j {
      assert chosen[..j][..j - 1] == chosen[..j - 1];
      AcceptedGrows(m, chosen, refused, i, j - 1);
    }
  }

  /** The region at `i` is moved: the backend takes it, and those before it were not enough. */
  predicate Takes(m: Memory, chosen: seq<Ptr>, refused: set<Ptr>, need: nat, i: nat)
    requires (forall p :: p in chosen ==> p in m.regions) && i < |chosen|
  {
    chosen[i] !in refused && Accepted(m, chosen[..i], refused) < need
  }

  /** Only residence and timestamp may differ. */
  predicate SameApartFromResidence(a: Region, b: Region) {
    a.place == b.place && a.size == b.size && a.owner == b.owner
  }

  /** What a transfer did, region by region. */
  ghost predicate TransferIs(purpose: Purpose, m: Memory, chosen: seq<Ptr>, refused: set<Ptr>, need: nat, r: Progress)
    requires (forall p :: p in chosen ==> p in m.regions) && r.m.regions.Keys == m.regions.Keys
  {
    && (forall p :: p in m.regions && p !in chosen ==> r.m.regions[p] == m.regions[p])
    && (forall i: nat :: i < |chosen| ==> RegionIs(purpose, m, chosen, refused, need, r, i))
    && (if Accepted(m, chosen, refused) < need then r.moved == Accepted(m, chosen, refused) else r.moved >= need)
  }

  ghost predicate RegionIs(purpose: Purpose, m: Memory, chosen: seq<Ptr>, refused: set<Ptr>, need: nat, r: Progress, i: nat)
    requires (forall p :: p in chosen ==> p in m.regions) && i < |chosen| && r.m.regions.Keys == m.regions.Keys
  {
    var p := chosen[i];
    if Takes(m, chosen, refused, need, i)
    then SameApartFromResidence(r.m.regions[p], m.regions[p]) && r.m.regions[p].resident == purpose.Prefetching?
    else r.m.regions[p] == m.regions[p]
  }

  /** Exactly the accepted regions move, in order, for as long as the target is not reached. */
  lemma {:induction false} MovedIs(purpose: Purpose, m: Memory, chosen: seq<Ptr>, refused: set<Ptr>, need: nat)
    requires Distinct(chosen) && forall p :: p in chosen ==> p in m.regions
    ensures TransferIs(purpose, m, chosen, refused, need, Moved(purpose, m, chosen, refused, need))
  {
    if chosen != [] {
      var rest, p := chosen[..|chosen| - 1], chosen[|chosen| - 1];
      assert chosen == rest + [p];
      MovedIs(purpose, m, rest, refused, need);
      var before, r := Moved(purpose, m, rest, refused, need), Moved(purpose, m, chosen, refused, need);
      assert p !in rest;
      forall i: nat | i < |chosen| ensures RegionIs(purpose, m, chosen, refused, need, r, i) {
        if i < |rest| {
          assert RegionIs(purpose, m, rest, refused, need, before, i);
          assert rest[..i] == chosen[..i];
        }
      }
    }
  }

  /** The chosen regions are the eligible ones, sorted. */
  lemma ChoiceIs(purpose: Purpose, m: Memory, place: Place, queue: Handle, order: seq<Ptr>)
    requires TouchesOk(m) && Enumerates(order, m.regions.Keys)
    ensures var c := Choice(purpose, m, place, queue, order);
            && SortedBy(purpose, m, c) && Distinct(c)
            && forall p :: p in c <==> Eligible(purpose, m, place, queue, p)
  {
    CollectedHolds(purpose, m, place, queue, order);
    CollectedIsDistinct(purpose, m, place, queue, order);
    SortedIsSorted(purpose, m, Collected(purpose, m, place, queue, order));
    SortedIsDistinct(purpose, m, Choice(purpose, m, place, queue, order));
  }

  lemma {:induction false} CollectedIsDistinct(purpose: Purpose, m: Memory, place: Place, queue: Handle, walked: seq<Ptr>)
    requires Distinct(walked)
    ensures Distinct(Collected(purpose, m, place, queue, walked))
  {
    if walked != [] {
      CollectedIsDistinct(purpose, m, place, queue, walked[..|walked| - 1]);
      CollectedHolds(purpose, m, place, queue, walked[..|walked| - 1]);
    }
  }

  /** The order of victims does not depend on how the table is walked. */
  lemma ChoiceIsOrderFree(purpose: Purpose, m: Memory, place: Place, queue: Handle, order: seq<Ptr>, other: seq<Ptr>)
    requires TouchesOk(m) && Enumerates(order, m.regions.Keys) && Enumerates(other, m.regions.Keys)
    ensures Choice(purpose, m, place, queue, order) == Choice(purpose, m, place, queue, other)
  {
    hide TouchesOk, Enumerates, Choice, Eligible;
    ChoiceIs(purpose, m, place, queue, order);
    ChoiceIs(purpose, m, place, queue, other);
    SortedIsUnique(purpose, m, Choice(purpose, m, place, queue, order), Choice(purpose, m, place, queue, other));
  }

  lemma {:induction false} BytesSplit(regions: map<Ptr, Region>, sel: Selection, a: seq<Ptr>, b: seq<Ptr>)
    ensures Bytes(regions, sel, a + b) == Bytes(regions, sel, a) + Bytes(regions, sel, b)
  {
    if b == [] {
      assert a + b == a;
    } else {
      assert (a + b)[..|a + b| - 1] == a + b[..|b| - 1];
      BytesSplit(regions, sel, a, b[..|b| - 1]);
    }
  }

  function Without(t: seq<Ptr>, k: nat): seq<Ptr>
    requires k < |t|
  {
    t[..k] + t[k + 1..]
  }

  lemma WithoutOne(t: seq<Ptr>, k: nat)
    requires Distinct(t) && k < |t|
    ensures Distinct(Without(t, k))
    ensures forall p :: p in Without(t, k) <==> p in t && p != t[k]
  {
    var u := Without(t, k);
    forall p | p in t && p != t[k] ensures p in u {
      var j :| 0 <= j < |t| && t[j] == p;
      assert u[if j < k then j else j - 1] == p;
    }
  }

  lemma BytesWithout(regions: map<Ptr, Region>, sel: Selection, t: seq<Ptr>, k: nat)
    requires k < |t|
    ensures Bytes(regions, sel, t) == Bytes(regions, sel, Without(t, k)) + Bytes(regions, sel, [t[k]])
  {
    var a, b := t[..k], t[k + 1..];
    assert t == a + [t[k]] + b;
    BytesSplit(regions, sel, a + [t[k]], b);
    BytesSplit(regions, sel, a, [t[k]]);
    BytesSplit(regions, sel, a, b);
  }

  /** Nor do the sums of bytes. */
  lemma {:induction false} BytesAreOrderFree(regions: map<Ptr, Region>, sel: Selection, s: seq<Ptr>, t: seq<Ptr>)
    requires Distinct(s) && Distinct(t) && forall p :: p in s <==> p in t
    ensures Bytes(regions, sel, s) == Bytes(regions, sel, t)
    decreases |s|
  {
    if s == [] {
      HasMember(t);
    } else {
      var last := |s| - 1;
      assert s[last] in s;
      var k :| 0 <= k < |t| && t[k] == s[last];
      hide Bytes, Distinct, Without;
      WithoutOne(s, last);
      WithoutOne(t, k);
      BytesWithout(regions, sel, s, last);
      BytesWithout(regions, sel, t, k);
      ShorterWithout(s, last);
      BytesAreOrderFree(regions, sel, Without(s, last), Without(t, k));
    }
  }

  lemma ShorterWithout(t: seq<Ptr>, k: nat)
    requires k < |t|
    ensures |Without(t, k)| == |t| - 1
  {
  }

  /** Once the queue has adopted its place, the outcome of a suspension is the same however the
      table of regions is walked. */
  lemma EvictionIsOrderFree(cfg: Settings, m: Memory, place: Place, queue: Handle, order: seq<Ptr>, other: seq<Ptr>,
                            reading: Reading, refused: set<Ptr>)
    requires TouchesOk(m) && Enumerates(order, m.regions.Keys) && Enumerates(other, m.regions.Keys)
    ensures EvictionNeed(cfg, m, place, order, reading) == EvictionNeed(cfg, m, place, other, reading)
    ensures Transfer(Eviction, m, place, queue, order, refused, EvictionNeed(cfg, m, place, order, reading))
            == Transfer(Eviction, m, place, queue, other, refused, EvictionNeed(cfg, m, place, other, reading))
  {
    BytesAreOrderFree(m.regions, TrackedResident(place), order, other);
    ChoiceIsOrderFree(Eviction, m, place, queue, order, other);
    hide Choice, TouchesOk, Moved, Enumerates;
  }

  /** What changing one region does to a sum. */
  lemma {:induction false} BytesUpdate(regions: map<Ptr, Region>, sel: Selection, walked: seq<Ptr>, p: Ptr, r: Region)
    requires Distinct(walked) && p in regions && r.size == regions[p].size
    ensures var before, after := Bytes(regions, sel, walked), Bytes(regions[p := r], sel, walked);
            if p !in walked || Selected(sel, r) == Selected(sel, regions[p]) then after == before
            else if Selected(sel, r) then after == before + r.size
            else before == after + r.size
  {
    if walked != [] {
      var rest, x := walked[..|walked| - 1], walked[|walked| - 1];
      assert walked == rest + [x];
      BytesUpdate(regions, sel, rest, p, r);
    }
  }

  lemma OthersStay(purpose: Purpose, m: Memory, chosen: seq<Ptr>, refused: set<Ptr>, need: nat, p: Ptr)
    requires Distinct(chosen) && (forall q :: q in chosen ==> q in m.regions) && p in m.regions && p !in chosen
    ensures Moved(purpose, m, chosen, refused, need).m.regions[p] == m.regions[p]
  {
    MovedIs(purpose, m, chosen, refused, need);
  }

  /** The sum that a transfer changes. */
  function Tally(purpose: Purpose, place: Place, queue: Handle): Selection {
    if purpose.Eviction? then TrackedResident(place) else QueueResident(place, queue)
  }

  /** Conservation: the bytes that left the device are the bytes that were moved, and so for those
      that came to it. */
  lemma {:induction false} MovedBytes(purpose: Purpose, m: Memory, place: Place, queue: Handle, chosen: seq<Ptr>,
                                      refused: set<Ptr>, need: nat, walked: seq<Ptr>)
    requires Distinct(chosen) && Distinct(walked) && forall p :: p in chosen ==> p in m.regions
    requires forall p :: p in chosen ==> Eligible(purpose, m, place, queue, p) && p in walked
    ensures var r, sel := Moved(purpose, m, chosen, refused, need), Tally(purpose, place, queue);
            if purpose.Eviction?
            then Bytes(m.regions, sel, walked) == Bytes(r.m.regions, sel, walked) + r.moved
            else Bytes(r.m.regions, sel, walked) == Bytes(m.regions, sel, walked) + r.moved
  {
    if chosen != [] {
      var rest, p := chosen[..|chosen| - 1], chosen[|chosen| - 1];
      assert chosen == rest + [p] && p !in rest;
      hide Bytes, Distinct;
      DistinctPrefix(chosen);
      MovedBytes(purpose, m, place, queue, rest, refused, need, walked);
      OthersStay(purpose, m, rest, refused, need, p);
      var before := Moved(purpose, m, rest, refused, need);
      var r := before.m.regions[p].(resident := purpose.Prefetching?, lastTouch := before.m.clock + 1);
      var sel := Tally(purpose, place, queue);
      BytesUpdate(before.m.regions, sel, walked, p, r);
      assert Eligible(purpose, m, place, queue, p);
      assert Selected(sel, before.m.regions[p]) == purpose.Eviction? && Selected(sel, r) == purpose.Prefetching?;
    }
  }

  lemma DistinctPrefix(s: seq<Ptr>)
    requires Distinct(s) && s != []
    ensures Distinct(s[..|s| - 1]) && s[|s| - 1] !in s[..|s| - 1]
    ensures forall i :: 0 <= i < |s| - 1 ==> s[i] != s[|s| - 1]
  {
  }

  lemma {:induction false} NothingSelected(regions: map<Ptr, Region>, sel: Selection, walked: seq<Ptr>)
    requires forall p :: p in walked && p in regions ==> !Selected(sel, regions[p])
    ensures Bytes(regions, sel, walked) == 0
  {
    if walked != [] {
      assert walked == walked[..|walked| - 1] + [walked[|walked| - 1]];
      NothingSelected(regions, sel, walked[..|walked| - 1]);
    }
  }

  /** If the backend takes everything, a transfer either reaches its target or moves every eligible region. */
  lemma TransferReachesTarget(purpose: Purpose, m: Memory, place: Place, queue: Handle, order: seq<Ptr>, refused: set<Ptr>, need: nat)
    requires TouchesOk(m) && Enumerates(order, m.regions.Keys)
    requires forall p :: Eligible(purpose, m, place, queue, p) ==> p !in refused
    ensures var r := Transfer(purpose, m, place, queue, order, refused, need);
            r.moved >= need
            || forall p :: Eligible(purpose, m, place, queue, p) ==> r.m.regions[p].resident == purpose.Prefetching?
  {
    var c := Choice(purpose, m, place, queue, order);
    ChoiceIs(purpose, m, place, queue, order);
    hide Choice, Eligible, TouchesOk, Enumerates, SortedBy;
    MovedIs(purpose, m, c, refused, need);
    var r := Transfer(purpose, m, place, queue, order, refused, need);
    if r.moved < need {
      forall p | Eligible(purpose, m, place, queue, p) ensures r.m.regions[p].resident == purpose.Prefetching? {
        assert p in c;
        var i :| 0 <= i < |c| && c[i] == p;
        AcceptedGrows(m, c, refused, i, |c|);
        assert c[..|c|] == c;
        assert RegionIs(purpose, m, c, refused, need, r, i);
      }
    }
  }

  /** A transfer changes the tally by what it moved, and owns up to every region it moved. */
  lemma TransferConserves(purpose: Purpose, m: Memory, place: Place, queue: Handle, order: seq<Ptr>, refused: set<Ptr>, need: nat)
    requires TouchesOk(m) && Enumerates(order, m.regions.Keys)
    ensures var r, sel := Transfer(purpose, m, place, queue, order, refused, need), Tally(purpose, place, queue);
            if purpose.Eviction?
            then Bytes(m.regions, sel, order) == Bytes(r.m.regions, sel, order) + r.moved
            else Bytes(r.m.regions, sel, order) == Bytes(m.regions, sel, order) + r.moved
  {
    ChoiceIs(purpose, m, place, queue, order);
    MovedBytes(purpose, m, place, queue, Choice(purpose, m, place, queue, order), refused, need, order);
  }

  /** Regions keep their place, size and owner; those that were not eligible do not change. */
  lemma TransferKeepsRest(purpose: Purpose, m: Memory, place: Place, queue: Handle, order: seq<Ptr>, refused: set<Ptr>, need: nat, p: Ptr)
    requires TouchesOk(m) && Enumerates(order, m.regions.Keys) && p in m.regions
    ensures var r := Transfer(purpose, m, place, queue, order, refused, need);
            && SameApartFromResidence(r.m.regions[p], m.regions[p])
            && (!Eligible(purpose, m, place, queue, p) ==> r.m.regions[p] == m.regions[p])
  {
    var c := Choice(purpose, m, place, queue, order);
    ChoiceIs(purpose, m, place, queue, order);
    hide Choice, Eligible, TouchesOk, Enumerates, SortedBy, Takes;
    MovedIs(purpose, m, c, refused, need);
    if p in c {
      var i :| 0 <= i < |c| && c[i] == p;
      assert RegionIs(purpose, m, c, refused, need, Transfer(purpose, m, place, queue, order, refused, need), i);
    }
  }

  /** Pressure is relieved: above the high watermark, if the backend takes every victim and the
      limit does not cut the need short, the tracked resident bytes end at or below the low watermark. */
  lemma EvictionReachesLowWatermark(cfg: Settings, m: Memory, backend: Backend, place: Place, queue: Handle, order: seq<Ptr>,
                                    reading: Reading, refused: set<Ptr>)
    requires TouchesOk(m) && Enumerates(order, m.regions.Keys)
    requires backend.usable && place.context != 0 && backend.canQuery && backend.canEvict
    requires reading.Reading? && reading.total != 0
    requires var start := BeforeEviction(m, place, queue, order);
             && (forall p :: Eligible(Eviction, start, place, queue, p) ==> p !in refused)
             && UsedBytes(start, place, order, reading) > HighWatermark(cfg, reading.total)
             && var limit := MbLimit(cfg.evictLimitMb, 4096);
                limit == 0 || UsedBytes(start, place, order, reading) <= LowWatermark(cfg, reading.total) + limit
    ensures var after := Suspended(m, cfg, backend, place, queue, order, reading, refused);
            Bytes(after.regions, TrackedResident(place), order) <= LowWatermark(cfg, reading.total)
  {
    var start := BeforeEviction(m, place, queue, order);
    BeforeEvictionKeepsTouches(m, place, queue, order);
    WatermarksAreOrdered(cfg, reading.total);
    var need := EvictionNeed(cfg, start, place, order, reading);
    hide BeforeEviction, TouchesOk, Enumerates, Transfer, HighWatermark, LowWatermark, MbLimit, Bytes, Eligible;
    TransferConserves(Eviction, start, place, queue, order, refused, need);
    TransferReachesTarget(Eviction, start, place, queue, order, refused, need);
    var r := Transfer(Eviction, start, place, queue, order, refused, need);
    if r.moved < need {
      EverythingLeft(start, place, queue, order, refused, need);
    }
  }

  lemma EverythingLeft(m: Memory, place: Place, queue: Handle, order: seq<Ptr>, refused: set<Ptr>, need: nat)
    requires TouchesOk(m) && Enumerates(order, m.regions.Keys)
    requires var r := Transfer(Eviction, m, place, queue, order, refused, need);
             forall p :: Eligible(Eviction, m, place, queue, p) ==> p in r.m.regions && !r.m.regions[p].resident
    ensures Bytes(Transfer(Eviction, m, place, queue, order, refused, need).m.regions, TrackedResident(place), order) == 0
  {
    var r := Transfer(Eviction, m, place, queue, order, refused, need);
    hide Transfer, TouchesOk;
    forall p | p in order && p in r.m.regions ensures !Selected(TrackedResident(place), r.m.regions[p]) {
      TransferKeepsRest(Eviction, m, place, queue, order, refused, need, p);
    }
    NothingSelected(r.m.regions, TrackedResident(place), order);
  }

  /** The right order: no region is moved while one that comes before it and that the backend
      takes is left behind. */
  lemma NobodyIsPassedOver(purpose: Purpose, m: Memory, place: Place, queue: Handle, order: seq<Ptr>, refused: set<Ptr>, need: nat,
                           p: Ptr, earlier: Ptr)
    requires TouchesOk(m) && Enumerates(order, m.regions.Keys)
    requires Eligible(purpose, m, place, queue, p) && Eligible(purpose, m, place, queue, earlier)
    requires Precedes(purpose, m, earlier, p) && earlier !in refused
    requires Transfer(purpose, m, place, queue, order, refused, need).m.regions[p].resident == purpose.Prefetching?
    ensures Transfer(purpose, m, place, queue, order, refused, need).m.regions[earlier].resident == purpose.Prefetching?
  {
    var c := Choice(purpose, m, place, queue, order);
    ChoiceIs(purpose, m, place, queue, order);
    MovedIs(purpose, m, c, refused, need);
    assert p in c && earlier in c;
    var i, j :| 0 <= i < |c| && 0 <= j < |c| && c[i] == p && c[j] == earlier;
    PrecedesIsTotalOrder(purpose, m, earlier, p, earlier);
    hide Choice, Moved, TouchesOk, Enumerates, Precedes;
    assert j < i;
    var r := Transfer(purpose, m, place, queue, order, refused, need);
    assert RegionIs(purpose, m, c, refused, need, r, i) && RegionIs(purpose, m, c, refused, need, r, j);
    AcceptedGrows(m, c, refused, j, i);
  }

  /** The last one moved was necessary: without it the target would have been missed. */
  lemma {:induction false} LastMovedWasNecessary(purpose: Purpose, m: Memory, chosen: seq<Ptr>, refused: set<Ptr>, need: nat)
    returns (last: Ptr)
    requires Distinct(chosen) && (forall p :: p in chosen ==> p in m.regions && m.regions[p].size > 0)
    requires Moved(purpose, m, chosen, refused, need).moved > 0
    ensures var r := Moved(purpose, m, chosen, refused, need);
            && last in chosen && last !in refused && r.m.regions[last].resident == purpose.Prefetching?
            && r.m.regions[last].lastTouch == r.m.clock
            && r.moved < need + m.regions[last].size
  {
    var rest, p := chosen[..|chosen| - 1], chosen[|chosen| - 1];
    assert chosen == rest + [p] && p !in rest;
    var before := Moved(purpose, m, rest, refused, need);
    OthersStay(purpose, m, rest, refused, need, p);
    if before.moved >= need || p in refused {
      DistinctPrefix(chosen);
      last := LastMovedWasNecessary(purpose, m, rest, refused, need);
    } else {
      last := p;
    }
  }

  /** An eviction that moved something ends with a victim without which the need would not be met. */
  lemma LastVictimWasNecessary(m: Memory, place: Place, queue: Handle, order: seq<Ptr>, refused: set<Ptr>, need: nat) returns (last: Ptr)
    requires TouchesOk(m) && Enumerates(order, m.regions.Keys)
    requires Transfer(Eviction, m, place, queue, order, refused, need).moved > 0
    ensures var r := Transfer(Eviction, m, place, queue, order, refused, need);
            && Eligible(Eviction, m, place, queue, last) && !r.m.regions[last].resident
            && r.m.regions[last].lastTouch == r.m.clock
            && Bytes(m.regions, TrackedResident(place), order)
               < Bytes(r.m.regions, TrackedResident(place), order) + need + m.regions[last].size
  {
    ChoiceIs(Eviction, m, place, queue, order);
    TransferConserves(Eviction, m, place, queue, order, refused, need);
    last := LastMovedWasNecessary(Eviction, m, Choice(Eviction, m, place, queue, order), refused, need);
  }

  lemma {:induction false} SelectedAlike(regions: map<Ptr, Region>, others: map<Ptr, Region>, sel: Selection, sel': Selection, walked: seq<Ptr>)
    requires regions.Keys == others.Keys
    requires forall p :: p in regions ==> regions[p].size == others[p].size && (Selected(sel, regions[p]) <==> Selected(sel', others[p]))
    ensures Bytes(regions, sel, walked) == Bytes(others, sel', walked)
  {
    if walked != [] {
      SelectedAlike(regions, others, sel, sel', walked[..|walked| - 1]);
    }
  }

  lemma {:induction false} ActiveCounts(queues: map<Handle, QueueState>, place: Place, walked: seq<Handle>, q: Handle)
    requires q in walked && ActiveAt(queues, place, q)
    ensures ActiveWeight(queues, place, walked) > 0
  {
    var rest, last := walked[..|walked| - 1], walked[|walked| - 1];
    assert walked == rest + [last];
    if last != q { ActiveCounts(queues, place, rest, q); }
  }

  /** A resuming queue gets its budget: if the backend takes every region, the limit does not cut
      the need short and the queue owns any memory in its place, at least its budget is resident after. */
  lemma PrefetchReachesBudget(cfg: Settings, m: Memory, backend: Backend, place: Place, queue: Handle, order: seq<Ptr>,
                              qorder: seq<Handle>, reading: Reading, refused: set<Ptr>)
    requires TouchesOk(m) && Enumerates(order, m.regions.Keys) && queue in qorder
    requires backend.usable && place.context != 0 && queue != 0 && backend.canQuery && backend.canPrefetch
    requires reading.Reading? && reading.total != 0
    requires var start := BeforePrefetch(m, place, queue, order);
             && Bytes(start.regions, QueueHot(place, queue), order) != 0
             && (forall p :: Eligible(Prefetching, start, place, queue, p) ==> p !in refused)
             && var limit := MbLimit(cfg.prefetchLimitMb, 1024);
                limit == 0 || QueueBudget(cfg, start, place, queue, reading.total, order, qorder)
                              <= Bytes(start.regions, QueueResident(place, queue), order) + limit
    ensures var start := BeforePrefetch(m, place, queue, order);
            var after := Resumed(m, cfg, backend, place, queue, order, qorder, reading, refused);
            Bytes(after.regions, QueueResident(place, queue), order)
            >= QueueBudget(cfg, start, place, queue, reading.total, order, qorder)
  {
    var start := BeforePrefetch(m, place, queue, order);
    BeforePrefetchKeepsTouches(m, place, queue, order);
    assert ActiveAt(start.queues, place, queue);
    ActiveCounts(start.queues, place, qorder, queue);
    var need := PrefetchNeed(cfg, start, place, queue, order, qorder, reading);
    hide BeforePrefetch, TouchesOk, Enumerates, Transfer, MbLimit, Bytes, Eligible, Share, ActiveWeight;
    TransferConserves(Prefetching, start, place, queue, order, refused, need);
    TransferReachesTarget(Prefetching, start, place, queue, order, refused, need);
    var r := Transfer(Prefetching, start, place, queue, order, refused, need);
    if r.moved < need {
      EverythingCame(start, place, queue, order, refused, need);
    }
  }

  lemma EverythingCame(m: Memory, place: Place, queue: Handle, order: seq<Ptr>, refused: set<Ptr>, need: nat)
    requires TouchesOk(m) && Enumerates(order, m.regions.Keys)
    requires var r := Transfer(Prefetching, m, place, queue, order, refused, need);
             forall p :: Eligible(Prefetching, m, place, queue, p) ==> p in r.m.regions && r.m.regions[p].resident
    ensures Bytes(Transfer(Prefetching, m, place, queue, order, refused, need).m.regions, QueueResident(place, queue), order)
            == Bytes(m.regions, QueueHot(place, queue), order)
  {
    var r := Transfer(Prefetching, m, place, queue, order, refused, need);
    hide Transfer, TouchesOk, Enumerates, Bytes;
    forall p | p in m.regions
      ensures r.m.regions[p].size == m.regions[p].size
      ensures Selected(QueueResident(place, queue), r.m.regions[p]) <==> Selected(QueueHot(place, queue), m.regions[p])
    {
      TransferKeepsRest(Prefetching, m, place, queue, order, refused, need, p);
    }
    SelectedAlike(r.m.regions, m.regions, QueueResident(place, queue), QueueHot(place, queue), order);
  }

  /** What the active queues of a place are promised together. */
  function TotalShare(cfg: Settings, queues: map<Handle, QueueState>, place: Place, total: nat, qorder: seq<Handle>, walked: seq<Handle>): nat {
    if walked == [] then 0 else
      var q := walked[|walked| - 1];
      TotalShare(cfg, queues, place, total, qorder, walked[..|walked| - 1])
      + if ActiveAt(queues, place, q) then Share(cfg, queues, place, q, total, qorder) else 0
  }

  lemma ShareTimesSum(usable: nat, weight: nat, sum: nat)
    requires sum > 0
    ensures usable * weight / sum * sum <= usable * weight
  {
    assert usable * weight == usable * weight / sum * sum + usable * weight % sum;
  }

  lemma {:induction false} SharesOfSome(cfg: Settings, queues: map<Handle, QueueState>, place: Place, total: nat, qorder: seq<Handle>, walked: seq<Handle>)
    requires ActiveWeight(queues, place, qorder) > 0
    ensures TotalShare(cfg, queues, place, total, qorder, walked) * ActiveWeight(queues, place, qorder)
            <= LowWatermark(cfg, total) * ActiveWeight(queues, place, walked)
  {
    if walked != [] {
      var rest, q := walked[..|walked| - 1], walked[|walked| - 1];
      var sum, usable := ActiveWeight(queues, place, qorder), LowWatermark(cfg, total);
      SharesOfSome(cfg, queues, place, total, qorder, rest);
      if ActiveAt(queues, place, q) {
        hide LowWatermark, QueueWeight;
        var weight := QueueWeight(queues[q]);
        ShareTimesSum(usable, weight, sum);
        AddShare(TotalShare(cfg, queues, place, total, qorder, rest), Share(cfg, queues, place, q, total, qorder), sum,
          usable, ActiveWeight(queues, place, rest), weight);
      }
    }
  }

  lemma AddShare(t: nat, share: nat, sum: nat, usable: nat, weights: nat, weight: nat)
    requires t * sum <= usable * weights && share * sum <= usable * weight
    ensures (t + share) * sum <= usable * (weights + weight)
  {
    assert (t + share) * sum == t * sum + share * sum;
    assert usable * (weights + weight) == usable * weights + usable * weight;
  }

  lemma FactorIsMonotone(a: nat, b: nat, k: nat)
    requires a * k <= b * k && k > 0
    ensures a <= b
  {
    assert a > b ==> a * k > b * k;
  }

  /** The budgets of all active queues of a place together fit under the low watermark. */
  lemma BudgetsFitTogether(cfg: Settings, queues: map<Handle, QueueState>, place: Place, total: nat, qorder: seq<Handle>)
    requires ActiveWeight(queues, place, qorder) > 0
    ensures TotalShare(cfg, queues, place, total, qorder, qorder) <= LowWatermark(cfg, total)
    ensures forall m: Memory, q, order :: m.queues == queues && ActiveAt(queues, place, q) ==>
              QueueBudget(cfg, m, place, q, total, order, qorder) <= Share(cfg, queues, place, q, total, qorder)
  {
    SharesOfSome(cfg, queues, place, total, qorder, qorder);
    FactorIsMonotone(TotalShare(cfg, queues, place, total, qorder, qorder), LowWatermark(cfg, total), ActiveWeight(queues, place, qorder));
  }
}
