/** When the outcome of suspending or resuming a queue depends on the order in which the tables
    are walked: unowned regions are stamped along the walk, and the stamps decide who is moved. */
module AdmissionOrder {
  import opened Options
  import opened Sequences
  import opened Admission
  import opened Walks
  import opened AdmissionTheorems
  import opened AdmissionEviction

  /** A region keeps its timestamp or gets one of the transfer's own. */
  predicate KeptOrNew(m: Memory, after: Memory, p: Ptr)
    requires p in m.regions && p in after.regions
  {
    var t := after.regions[p].lastTouch;
    m.clock <= after.clock && (t == m.regions[p].lastTouch || m.clock < t <= after.clock)
  }

  /** New timestamps are in the order of the moves. */
  lemma {:induction false} MovedStamps(purpose: Purpose, m: Memory, chosen: seq<Ptr>, refused: set<Ptr>, need: nat, i: nat, j: nat)
    requires Distinct(chosen) && TouchesOk(m) && (forall p :: p in chosen ==> p in m.regions) && i <= j < |chosen|
    ensures var after := Moved(purpose, m, chosen, refused, need).m;
            && KeptOrNew(m, after, chosen[i]) && KeptOrNew(m, after, chosen[j])
            && (i < j && after.regions[chosen[i]].lastTouch > m.clock && after.regions[chosen[j]].lastTouch > m.clock
                ==> after.regions[chosen[i]].lastTouch < after.regions[chosen[j]].lastTouch)
  {
    var rest, p := chosen[..|chosen| - 1], chosen[|chosen| - 1];
    assert chosen == rest + [p];
    StampIsOld(m, p);
    DistinctPrefix(chosen);
    MovedLast(purpose, m, chosen, refused, need);
    ClockAdvances(purpose, m, rest, refused, need);
    hide TouchesOk, Distinct, Moved;
    if j < |rest| {
      MovedStamps(purpose, m, rest, refused, need, i, j);
    } else if i < |rest| {
      MovedStamps(purpose, m, rest, refused, need, i, i);
    }
  }

  /** What the last region of the list adds to a transfer of the others. */
  lemma MovedLast(purpose: Purpose, m: Memory, chosen: seq<Ptr>, refused: set<Ptr>, need: nat)
    requires Distinct(chosen) && chosen != [] && forall p :: p in chosen ==> p in m.regions
    ensures var rest, p := chosen[..|chosen| - 1], chosen[|chosen| - 1];
            var before, after := Moved(purpose, m, rest, refused, need).m, Moved(purpose, m, chosen, refused, need).m;
            && before.regions[p] == m.regions[p] && before.clock <= after.clock
            && (forall q :: q in m.regions && q != p ==> after.regions[q] == before.regions[q])
            && (after.regions[p] == m.regions[p] || (after.regions[p].lastTouch == after.clock && after.clock > before.clock))
  {
    DistinctPrefix(chosen);
    hide Distinct;
    OthersStay(purpose, m, chosen[..|chosen| - 1], refused, need, chosen[|chosen| - 1]);
  }

  lemma {:induction false} ClockAdvances(purpose: Purpose, m: Memory, chosen: seq<Ptr>, refused: set<Ptr>, need: nat)
    requires forall p :: p in chosen ==> p in m.regions
    ensures m.clock <= Moved(purpose, m, chosen, refused, need).m.clock
  {
    if chosen != [] { ClockAdvances(purpose, m, chosen[..|chosen| - 1], refused, need); }
  }

  /** The same about a whole transfer: of two regions that both get a new timestamp, the one that
      comes first gets the earlier one. */
  lemma TransferStamps(purpose: Purpose, m: Memory, place: Place, queue: Handle, order: seq<Ptr>, refused: set<Ptr>, need: nat, p: Ptr, q: Ptr)
    requires TouchesOk(m) && Enumerates(order, m.regions.Keys)
    requires p in m.regions && q in m.regions && Precedes(purpose, m, p, q)
    ensures var after := Transfer(purpose, m, place, queue, order, refused, need).m;
            && KeptOrNew(m, after, p) && KeptOrNew(m, after, q)
            && (after.regions[p].lastTouch > m.clock && after.regions[q].lastTouch > m.clock
                ==> after.regions[p].lastTouch < after.regions[q].lastTouch)
  {
    var c := Choice(purpose, m, place, queue, order);
    ChoiceIs(purpose, m, place, queue, order);
    PrecedesIsTotalOrder(purpose, m, p, q, p);
    ClockAdvances(purpose, m, c, refused, need);
    StampIsOld(m, p);
    StampIsOld(m, q);
    hide Choice, Moved, TouchesOk, Enumerates, Precedes, Eligible, Distinct;
    if p !in c { OthersStay(purpose, m, c, refused, need, p); }
    if q !in c { OthersStay(purpose, m, c, refused, need, q); }
    if p in c {
      var i :| 0 <= i < |c| && c[i] == p;
      MovedStamps(purpose, m, c, refused, need, i, i);
      if q in c {
        var j :| 0 <= j < |c| && c[j] == q;
        assert i < j;
        MovedStamps(purpose, m, c, refused, need, i, j);
      }
    } else if q in c {
      var j :| 0 <= j < |c| && c[j] == q;
      MovedStamps(purpose, m, c, refused, need, j, j);
    }
  }

  lemma StampIsOld(m: Memory, p: Ptr)
    requires TouchesOk(m) && p in m.regions
    ensures m.regions[p].lastTouch <= m.clock
  {
  }

  /** Two memories in which two regions have each other's place in the order never come out alike,
      whatever is moved. */
  lemma TransferDiffers(purpose: Purpose, a: Memory, b: Memory, place: Place, queue: Handle, order: seq<Ptr>, other: seq<Ptr>,
                        refused: set<Ptr>, need: nat, need': nat, p: Ptr, q: Ptr)
    requires TouchesOk(a) && TouchesOk(b) && Enumerates(order, a.regions.Keys) && Enumerates(other, b.regions.Keys)
    requires a.clock == b.clock && p in a.regions && q in a.regions && p in b.regions && q in b.regions
    requires a.regions[p].lastTouch != b.regions[p].lastTouch && a.regions[q].lastTouch != b.regions[q].lastTouch
    requires Precedes(purpose, a, p, q) && Precedes(purpose, b, q, p)
    ensures Transfer(purpose, a, place, queue, order, refused, need).m != Transfer(purpose, b, place, queue, other, refused, need').m
  {
    TransferStamps(purpose, a, place, queue, order, refused, need, p, q);
    TransferStamps(purpose, b, place, queue, other, refused, need', q, p);
    StampIsOld(a, p);
    StampIsOld(a, q);
    StampIsOld(b, p);
    StampIsOld(b, q);
    hide Transfer, TouchesOk, Enumerates, Precedes;
  }

  /** A region that the next queue suspended or resumed at its place adopts. */
  predicate Unowned(m: Memory, place: Place, p: Ptr) {
    p in m.regions && m.regions[p].place == place && m.regions[p].owner == 0
  }

  ghost predicate AtMostOneUnowned(m: Memory, place: Place) {
    forall p, q :: Unowned(m, place, p) && Unowned(m, place, q) ==> p == q
  }

  function AdoptedBy(m: Memory, queue: Handle, p: Ptr, clock: nat): Region
    requires p in m.regions
  {
    m.regions[p].(owner := queue, lastTouch := clock)
  }

  /** Of `p` and `q` the memory `a` has stamped `p` first and `b` has stamped `q` first; nothing else differs. */
  ghost predicate Crossed(m: Memory, queue: Handle, p: Ptr, q: Ptr, a: Memory, b: Memory) {
    && p in m.regions && q in m.regions && p != q && a.regions.Keys == m.regions.Keys && b.regions.Keys == m.regions.Keys
    && a.clock == b.clock && a.queues == b.queues
    && a.regions[p] == AdoptedBy(m, queue, p, m.clock + 1) && a.regions[q] == AdoptedBy(m, queue, q, m.clock + 2)
    && b.regions[q] == AdoptedBy(m, queue, q, m.clock + 1) && b.regions[p] == AdoptedBy(m, queue, p, m.clock + 2)
    && forall x :: x in m.regions && x != p && x != q ==> a.regions[x] == b.regions[x]
  }

  lemma AdoptedPair(m: Memory, place: Place, queue: Handle, p: Ptr, q: Ptr)
    requires queue != 0 && Unowned(m, place, p) && Unowned(m, place, q) && p != q
    ensures var a := Adopted(m, place, queue, [p, q]);
            && a.clock == m.clock + 2
            && a.regions == m.regions[p := AdoptedBy(m, queue, p, m.clock + 1)][q := AdoptedBy(m, queue, q, m.clock + 2)]
  {
    assert [p, q][..1] == [p] && [p][..0] == [];
    assert Adopted(m, place, queue, [p]) == WithTouch(m, p, m.regions[p].(owner := queue));
  }

  lemma CrossedPair(m: Memory, place: Place, queue: Handle, p: Ptr, q: Ptr)
    requires queue != 0 && Unowned(m, place, p) && Unowned(m, place, q) && p != q
    ensures Crossed(m, queue, p, q, Adopted(m, place, queue, [p, q]), Adopted(m, place, queue, [q, p]))
  {
    AdoptedPair(m, place, queue, p, q);
    AdoptedPair(m, place, queue, q, p);
    hide Adopted;
  }

  function NextAdopted(m: Memory, place: Place, queue: Handle, x: Ptr): Memory {
    if Unowned(m, place, x) then WithTouch(m, x, m.regions[x].(owner := queue)) else m
  }

  lemma LastAdopted(m: Memory, place: Place, queue: Handle, rest: seq<Ptr>, x: Ptr)
    requires queue != 0 && (forall p :: p in rest ==> p in m.regions) && x in m.regions
    ensures var before, after := Adopted(m, place, queue, rest), Adopted(m, place, queue, rest + [x]);
            after == NextAdopted(before, place, queue, x)
  {
    assert (rest + [x])[..|rest|] == rest;
  }

  lemma CrossedStays(m: Memory, place: Place, queue: Handle, p: Ptr, q: Ptr, a: Memory, b: Memory, x: Ptr)
    requires Crossed(m, queue, p, q, a, b) && x in m.regions && x != p && x != q
    ensures Crossed(m, queue, p, q, NextAdopted(a, place, queue, x), NextAdopted(b, place, queue, x))
  {
  }

  /** Two unowned regions at the head of a walk are stamped in its order, and nothing else differs. */
  lemma {:induction false} AdoptedInOrder(m: Memory, place: Place, queue: Handle, p: Ptr, q: Ptr, rest: seq<Ptr>)
    requires queue != 0 && Unowned(m, place, p) && Unowned(m, place, q) && p != q && p !in rest && q !in rest
    requires forall x :: x in rest ==> x in m.regions
    ensures Crossed(m, queue, p, q, Adopted(m, place, queue, [p, q] + rest), Adopted(m, place, queue, [q, p] + rest))
  {
    if rest == [] {
      assert [p, q] + rest == [p, q] && [q, p] + rest == [q, p];
      CrossedPair(m, place, queue, p, q);
    } else {
      var shorter, x := rest[..|rest| - 1], rest[|rest| - 1];
      assert rest == shorter + [x] && x in rest;
      var w, v := [p, q] + shorter, [q, p] + shorter;
      assert [p, q] + rest == w + [x] && [q, p] + rest == v + [x];
      AdoptedInOrder(m, place, queue, p, q, shorter);
      hide *;
      CrossedStays(m, place, queue, p, q, Adopted(m, place, queue, w), Adopted(m, place, queue, v), x);
      LastAdopted(m, place, queue, w, x);
      LastAdopted(m, place, queue, v, x);
    }
  }

  lemma CrossedPrecede(purpose: Purpose, m: Memory, queue: Handle, p: Ptr, q: Ptr, a: Memory, b: Memory)
    requires Crossed(m, queue, p, q, a, b)
    ensures if purpose.Eviction? then Precedes(purpose, a, p, q) && Precedes(purpose, b, q, p)
            else Precedes(purpose, a, q, p) && Precedes(purpose, b, p, q)
  {
  }

  /** Then whatever is moved afterwards, the two walks come out differently. */
  lemma OutcomeDiffers(purpose: Purpose, m: Memory, place: Place, queue: Handle, p: Ptr, q: Ptr, rest: seq<Ptr>, refused: set<Ptr>,
                       need: nat, need': nat)
    requires TouchesOk(m) && queue != 0
    requires Unowned(m, place, p) && Unowned(m, place, q) && p != q && p !in rest && q !in rest
    requires Enumerates([p, q] + rest, m.regions.Keys) && Enumerates([q, p] + rest, m.regions.Keys)
    requires forall x :: x in rest ==> x in m.regions
    ensures var order, other := [p, q] + rest, [q, p] + rest;
            Transfer(purpose, Adopted(m, place, queue, order), place, queue, order, refused, need).m
            != Transfer(purpose, Adopted(m, place, queue, other), place, queue, other, refused, need').m
  {
    var order, other := [p, q] + rest, [q, p] + rest;
    AdoptedInOrder(m, place, queue, p, q, rest);
    AdoptedKeepsTouches(m, place, queue, order);
    AdoptedKeepsTouches(m, place, queue, other);
    var a, b := Adopted(m, place, queue, order), Adopted(m, place, queue, other);
    CrossedPrecede(purpose, m, queue, p, q, a, b);
    hide TouchesOk, Enumerates, Adopted, Transfer, Precedes, Unowned;
    if purpose.Eviction? {
      TransferDiffers(purpose, a, b, place, queue, order, other, refused, need, need', p, q);
    } else {
      TransferDiffers(purpose, a, b, place, queue, order, other, refused, need, need', q, p);
    }
  }

  /** With one unowned region at most, the walk does not matter. */
  lemma {:induction false} AdoptedOne(m: Memory, place: Place, queue: Handle, walked: seq<Ptr>, u: Ptr)
    requires queue != 0 && Distinct(walked) && (forall p :: p in walked ==> p in m.regions)
    requires forall p :: p in walked && Unowned(m, place, p) ==> p == u
    ensures Adopted(m, place, queue, walked)
            == if u in walked && Unowned(m, place, u) then WithTouch(m, u, m.regions[u].(owner := queue)) else m
  {
    if walked != [] {
      var rest, p := walked[..|walked| - 1], walked[|walked| - 1];
      assert walked == rest + [p];
      AdoptedOne(m, place, queue, rest, u);
      assert p in walked && p !in rest && forall x :: x in walked <==> x in rest || x == p;
    }
  }

  lemma AdoptionIsOrderFree(m: Memory, place: Place, queue: Handle, order: seq<Ptr>, other: seq<Ptr>)
    requires Enumerates(order, m.regions.Keys) && Enumerates(other, m.regions.Keys)
    requires queue == 0 || AtMostOneUnowned(m, place)
    ensures Adopted(m, place, queue, order) == Adopted(m, place, queue, other)
  {
    if queue != 0 {
      var u := if exists p :: Unowned(m, place, p) then var p :| Unowned(m, place, p); p else 0;
      AdoptedOne(m, place, queue, order, u);
      AdoptedOne(m, place, queue, other, u);
    }
  }

  /** Every table can be walked. */
  lemma {:induction false} SomeWalk(keys: set<Ptr>) returns (walk: seq<Ptr>)
    ensures Enumerates(walk, keys)
    decreases |keys|
  {
    walk := [];
    if keys != {} {
      var k :| k in keys;
      var rest := SomeWalk(keys - {k});
      walk := [k] + rest;
    }
  }

  /** Two walks that begin with the same two keys in either order. */
  lemma TwoWalks(keys: set<Ptr>, p: Ptr, q: Ptr) returns (rest: seq<Ptr>)
    requires p in keys && q in keys && p != q
    ensures Enumerates([p, q] + rest, keys) && Enumerates([q, p] + rest, keys)
    ensures p !in rest && q !in rest && forall x :: x in rest ==> x in keys
  {
    rest := SomeWalk(keys - {p, q});
  }

  predicate SuspendReturnsEarly(backend: Backend, place: Place) {
    !backend.usable || place.context == 0 || !backend.canQuery || !backend.canEvict
  }

  ghost predicate SuspendedAlike(m: Memory, cfg: Settings, backend: Backend, place: Place, queue: Handle, reading: Reading, refused: set<Ptr>) {
    forall order, other :: Enumerates(order, m.regions.Keys) && Enumerates(other, m.regions.Keys) ==>
      Suspended(m, cfg, backend, place, queue, order, reading, refused) == Suspended(m, cfg, backend, place, queue, other, reading, refused)
  }

  /** A suspension comes out the same for all walks exactly if it returns early, is made for no
      queue, or finds at most one unowned region at the place. */
  lemma SuspensionIsOrderFreeIff(m: Memory, cfg: Settings, backend: Backend, place: Place, queue: Handle, reading: Reading, refused: set<Ptr>)
    requires TouchesOk(m)
    ensures SuspendedAlike(m, cfg, backend, place, queue, reading, refused)
            <==> SuspendReturnsEarly(backend, place) || queue == 0 || AtMostOneUnowned(m, place)
  {
    hide TouchesOk, Enumerates, Suspended, AtMostOneUnowned;
    if SuspendReturnsEarly(backend, place) {
      EarlySuspension(m, cfg, backend, place, queue, reading, refused);
    } else if queue == 0 || AtMostOneUnowned(m, place) {
      forall order, other | Enumerates(order, m.regions.Keys) && Enumerates(other, m.regions.Keys)
        ensures Suspended(m, cfg, backend, place, queue, order, reading, refused) == Suspended(m, cfg, backend, place, queue, other, reading, refused)
      {
        SuspendedTheSame(m, cfg, backend, place, queue, order, other, reading, refused);
      }
    } else {
      var p, q := TwoUnowned(m, place);
      var rest := TwoWalks(m.regions.Keys, p, q);
      SuspendedOtherwise(m, cfg, backend, place, queue, p, q, rest, reading, refused);
    }
  }

  lemma EarlySuspension(m: Memory, cfg: Settings, backend: Backend, place: Place, queue: Handle, reading: Reading, refused: set<Ptr>)
    requires SuspendReturnsEarly(backend, place)
    ensures SuspendedAlike(m, cfg, backend, place, queue, reading, refused)
  {
    hide Enumerates;
  }

  lemma TwoUnowned(m: Memory, place: Place) returns (p: Ptr, q: Ptr)
    requires !AtMostOneUnowned(m, place)
    ensures Unowned(m, place, p) && Unowned(m, place, q) && p != q
  {
    p, q :| Unowned(m, place, p) && Unowned(m, place, q) && p != q;
  }

  lemma SuspendedTheSame(m: Memory, cfg: Settings, backend: Backend, place: Place, queue: Handle, order: seq<Ptr>, other: seq<Ptr>,
                         reading: Reading, refused: set<Ptr>)
    requires TouchesOk(m) && Enumerates(order, m.regions.Keys) && Enumerates(other, m.regions.Keys)
    requires queue == 0 || AtMostOneUnowned(m, place)
    ensures Suspended(m, cfg, backend, place, queue, order, reading, refused) == Suspended(m, cfg, backend, place, queue, other, reading, refused)
  {
    DeactivationKeeps(m, place, queue);
    AdoptionIsOrderFree(Deactivated(m, place, queue), place, queue, order, other);
    BeforeEvictionKeepsTouches(m, place, queue, order);
    EvictionIsOrderFree(cfg, BeforeEviction(m, place, queue, order), place, queue, order, other, reading, refused);
  }

  lemma SuspendedOtherwise(m: Memory, cfg: Settings, backend: Backend, place: Place, queue: Handle, p: Ptr, q: Ptr, rest: seq<Ptr>,
                           reading: Reading, refused: set<Ptr>)
    requires TouchesOk(m) && !SuspendReturnsEarly(backend, place) && queue != 0
    requires Unowned(m, place, p) && Unowned(m, place, q) && p != q && p !in rest && q !in rest
    requires Enumerates([p, q] + rest, m.regions.Keys) && Enumerates([q, p] + rest, m.regions.Keys)
    ensures Suspended(m, cfg, backend, place, queue, [p, q] + rest, reading, refused)
            != Suspended(m, cfg, backend, place, queue, [q, p] + rest, reading, refused)
  {
    forall x | x in rest ensures x in m.regions { assert x in [p, q] + rest; }
    DeactivationKeeps(m, place, queue);
    hide TouchesOk, Enumerates, Adopted, Transfer, EvictionNeed, Deactivated, Unowned;
    var order, other := [p, q] + rest, [q, p] + rest;
    var start, start' := BeforeEviction(m, place, queue, order), BeforeEviction(m, place, queue, other);
    OutcomeDiffers(Eviction, Deactivated(m, place, queue), place, queue, p, q, rest, refused,
      EvictionNeed(cfg, start, place, order, reading), EvictionNeed(cfg, start', place, other, reading));
  }

  lemma DeactivationKeeps(m: Memory, place: Place, queue: Handle)
    ensures var d := Deactivated(m, place, queue);
            d.regions == m.regions && (TouchesOk(m) ==> TouchesOk(d)) && forall p :: Unowned(d, place, p) == Unowned(m, place, p)
  {
    if TouchesOk(m) { QueuesDoNotMatter(m, Deactivated(m, place, queue).queues, m.clock); }
  }

  // ----- resuming -----

  lemma {:induction false} WeightsSplit(queues: map<Handle, QueueState>, place: Place, a: seq<Handle>, b: seq<Handle>)
    ensures ActiveWeight(queues, place, a + b) == ActiveWeight(queues, place, a) + ActiveWeight(queues, place, b)
  {
    if b == [] {
      assert a + b == a;
    } else {
      assert (a + b)[..|a + b| - 1] == a + b[..|b| - 1];
      WeightsSplit(queues, place, a, b[..|b| - 1]);
    }
  }

  lemma WeightWithout(queues: map<Handle, QueueState>, place: Place, t: seq<Handle>, k: nat)
    requires k < |t|
    ensures ActiveWeight(queues, place, t) == ActiveWeight(queues, place, Without(t, k)) + ActiveWeight(queues, place, [t[k]])
  {
    var a, b := t[..k], t[k + 1..];
    assert t == a + [t[k]] + b;
    WeightsSplit(queues, place, a + [t[k]], b);
    WeightsSplit(queues, place, a, [t[k]]);
    WeightsSplit(queues, place, a, b);
  }

  /** The weights of the active queues add up the same for all walks. */
  lemma {:induction false} WeightsAreOrderFree(queues: map<Handle, QueueState>, place: Place, s: seq<Handle>, t: seq<Handle>)
    requires Distinct(s) && Distinct(t) && forall q :: q in s <==> q in t
    ensures ActiveWeight(queues, place, s) == ActiveWeight(queues, place, t)
    decreases |s|
  {
    if s == [] {
      HasMember(t);
    } else {
      var last := |s| - 1;
      assert s[last] in s;
      var k :| 0 <= k < |t| && t[k] == s[last];
      hide ActiveWeight, Distinct, Without;
      WithoutOne(s, last);
      WithoutOne(t, k);
      WeightWithout(queues, place, s, last);
      WeightWithout(queues, place, t, k);
      ShorterWithout(s, last);
      WeightsAreOrderFree(queues, place, Without(s, last), Without(t, k));
    }
  }

  /** Once the queue has adopted its place, the outcome of a resumption is the same however both
      tables are walked. */
  lemma PrefetchIsOrderFree(cfg: Settings, m: Memory, place: Place, queue: Handle, order: seq<Ptr>, other: seq<Ptr>,
                            qorder: seq<Handle>, qother: seq<Handle>, reading: Reading, refused: set<Ptr>)
    requires TouchesOk(m) && Enumerates(order, m.regions.Keys) && Enumerates(other, m.regions.Keys)
    requires Enumerates(qorder, m.queues.Keys) && Enumerates(qother, m.queues.Keys)
    ensures Transfer(Prefetching, m, place, queue, order, refused, PrefetchNeed(cfg, m, place, queue, order, qorder, reading))
            == Transfer(Prefetching, m, place, queue, other, refused, PrefetchNeed(cfg, m, place, queue, other, qother, reading))
  {
    PrefetchNeedIsOrderFree(cfg, m, place, queue, order, other, qorder, qother, reading);
    ChoiceIsOrderFree(Prefetching, m, place, queue, order, other);
    hide Choice, TouchesOk, Moved, Enumerates, PrefetchNeed;
  }

  lemma PrefetchNeedIsOrderFree(cfg: Settings, m: Memory, place: Place, queue: Handle, order: seq<Ptr>, other: seq<Ptr>,
                                qorder: seq<Handle>, qother: seq<Handle>, reading: Reading)
    requires Enumerates(order, m.regions.Keys) && Enumerates(other, m.regions.Keys)
    requires Enumerates(qorder, m.queues.Keys) && Enumerates(qother, m.queues.Keys)
    ensures PrefetchNeed(cfg, m, place, queue, order, qorder, reading) == PrefetchNeed(cfg, m, place, queue, other, qother, reading)
  {
    BytesAreOrderFree(m.regions, QueueHot(place, queue), order, other);
    BytesAreOrderFree(m.regions, QueueResident(place, queue), order, other);
    WeightsAreOrderFree(m.queues, place, qorder, qother);
    hide Enumerates, Distinct, Bytes, ActiveWeight, LowWatermark, MbLimit, Capped, QueueWeight, ActiveAt;
  }

  predicate ResumeReturnsEarly(backend: Backend, place: Place, queue: Handle) {
    !backend.usable || place.context == 0 || queue == 0 || !backend.canQuery || !backend.canPrefetch
  }

  /** The walks over the regions and over the queues, to which the resumed one belongs. */
  ghost predicate WalksOf(m: Memory, queue: Handle, order: seq<Ptr>, qorder: seq<Handle>) {
    Enumerates(order, m.regions.Keys) && Enumerates(qorder, m.queues.Keys + {queue})
  }

  ghost predicate ResumedAlike(m: Memory, cfg: Settings, backend: Backend, place: Place, queue: Handle, reading: Reading, refused: set<Ptr>) {
    forall order, qorder, other, qother :: WalksOf(m, queue, order, qorder) && WalksOf(m, queue, other, qother) ==>
      Resumed(m, cfg, backend, place, queue, order, qorder, reading, refused)
      == Resumed(m, cfg, backend, place, queue, other, qother, reading, refused)
  }

  /** A resumption comes out the same for all walks exactly if it returns early or finds at most one
      unowned region at the place. */
  lemma ResumptionIsOrderFreeIff(m: Memory, cfg: Settings, backend: Backend, place: Place, queue: Handle, reading: Reading, refused: set<Ptr>)
    requires TouchesOk(m)
    ensures ResumedAlike(m, cfg, backend, place, queue, reading, refused)
            <==> ResumeReturnsEarly(backend, place, queue) || AtMostOneUnowned(m, place)
  {
    hide TouchesOk, Enumerates, Resumed, AtMostOneUnowned;
    if ResumeReturnsEarly(backend, place, queue) {
      EarlyResumption(m, cfg, backend, place, queue, reading, refused);
    } else if AtMostOneUnowned(m, place) {
      forall order, qorder, other, qother | WalksOf(m, queue, order, qorder) && WalksOf(m, queue, other, qother)
        ensures Resumed(m, cfg, backend, place, queue, order, qorder, reading, refused)
                == Resumed(m, cfg, backend, place, queue, other, qother, reading, refused)
      {
        ResumedTheSame(m, cfg, backend, place, queue, order, qorder, other, qother, reading, refused);
      }
    } else {
      var p, q := TwoUnowned(m, place);
      var rest := TwoWalks(m.regions.Keys, p, q);
      var qorder := SomeWalk(m.queues.Keys + {queue});
      ResumedOtherwise(m, cfg, backend, place, queue, p, q, rest, qorder, reading, refused);
      assert WalksOf(m, queue, [p, q] + rest, qorder) && WalksOf(m, queue, [q, p] + rest, qorder);
    }
  }

  lemma EarlyResumption(m: Memory, cfg: Settings, backend: Backend, place: Place, queue: Handle, reading: Reading, refused: set<Ptr>)
    requires ResumeReturnsEarly(backend, place, queue)
    ensures ResumedAlike(m, cfg, backend, place, queue, reading, refused)
  {
    hide Enumerates;
  }

  lemma ActivationKeeps(m: Memory, place: Place, queue: Handle)
    ensures var d := Activated(m, place, queue);
            && d.regions == m.regions && d.queues.Keys == m.queues.Keys + {queue}
            && (TouchesOk(m) ==> TouchesOk(d)) && forall p :: Unowned(d, place, p) == Unowned(m, place, p)
  {
    if TouchesOk(m) { QueuesDoNotMatter(m, Activated(m, place, queue).queues, m.clock + 1); }
  }

  lemma ResumedTheSame(m: Memory, cfg: Settings, backend: Backend, place: Place, queue: Handle, order: seq<Ptr>, qorder: seq<Handle>,
                       other: seq<Ptr>, qother: seq<Handle>, reading: Reading, refused: set<Ptr>)
    requires TouchesOk(m) && WalksOf(m, queue, order, qorder) && WalksOf(m, queue, other, qother) && AtMostOneUnowned(m, place)
    ensures Resumed(m, cfg, backend, place, queue, order, qorder, reading, refused)
            == Resumed(m, cfg, backend, place, queue, other, qother, reading, refused)
  {
    ActivationKeeps(m, place, queue);
    AdoptionIsOrderFree(Activated(m, place, queue), place, queue, order, other);
    BeforePrefetchKeepsTouches(m, place, queue, order);
    PrefetchIsOrderFree(cfg, BeforePrefetch(m, place, queue, order), place, queue, order, other, qorder, qother, reading, refused);
  }

  lemma ResumedOtherwise(m: Memory, cfg: Settings, backend: Backend, place: Place, queue: Handle, p: Ptr, q: Ptr, rest: seq<Ptr>,
                         qorder: seq<Handle>, reading: Reading, refused: set<Ptr>)
    requires TouchesOk(m) && !ResumeReturnsEarly(backend, place, queue)
    requires Unowned(m, place, p) && Unowned(m, place, q) && p != q && p !in rest && q !in rest
    requires Enumerates([p, q] + rest, m.regions.Keys) && Enumerates([q, p] + rest, m.regions.Keys)
    requires Enumerates(qorder, m.queues.Keys + {queue})
    ensures Resumed(m, cfg, backend, place, queue, [p, q] + rest, qorder, reading, refused)
            != Resumed(m, cfg, backend, place, queue, [q, p] + rest, qorder, reading, refused)
  {
    forall x | x in rest ensures x in m.regions { assert x in [p, q] + rest; }
    ActivationKeeps(m, place, queue);
    hide TouchesOk, Enumerates, Adopted, Transfer, PrefetchNeed, Activated, Unowned;
    var order, other := [p, q] + rest, [q, p] + rest;
    var start, start' := BeforePrefetch(m, place, queue, order), BeforePrefetch(m, place, queue, other);
    OutcomeDiffers(Prefetching, Activated(m, place, queue), place, queue, p, q, rest, refused,
      PrefetchNeed(cfg, start, place, queue, order, qorder, reading), PrefetchNeed(cfg, start', place, queue, other, qorder, reading));
  }

  // ----- the victim is a matter of the walk -----

  const PLACE := Place(1, 1, 0)
  const BACKEND := Backend(true, true, true, true)
  const DEFAULTS := Settings(None, None, None, None, None, None)
  const PAIR := [Register(BACKEND, 1, 100, PLACE, 0), Register(BACKEND, 2, 100, PLACE, 0)]

  /** Two regions of a place hold 200 bytes together, and nobody owns them. */
  ghost predicate IsPair(m: Memory) {
    && TouchesOk(m) && m.regions.Keys == {1, 2}
    && forall p :: p in m.regions ==> m.regions[p].place == PLACE && m.regions[p].size == 100 && m.regions[p].owner == 0 && m.regions[p].resident
  }

  lemma PairIsReachable()
    ensures Run(PAIR, DEFAULTS).Some? && IsPair(Run(PAIR, DEFAULTS).value)
  {
    assert PAIR[..1] == [PAIR[0]] && PAIR[..1][..0] == [];
    assert Run(PAIR[..1], DEFAULTS) == Some(Memory(map[1 := Region(PLACE, 100, 0, true, 1)], map[], 1));
    assert Run(PAIR, DEFAULTS) == Some(Memory(map[1 := Region(PLACE, 100, 0, true, 1), 2 := Region(PLACE, 100, 0, true, 2)], map[], 2));
    hide Run;
    TouchesAreUnique(PAIR, DEFAULTS);
  }

  /** Two regions registered without an owner under pressure: whichever the walk names first is the
      one victim. */
  lemma FirstOfTheWalkIsTheVictim(first: Ptr)
    requires first in {1, 2}
    ensures Run(PAIR, DEFAULTS).Some?
    ensures var m, second := Run(PAIR, DEFAULTS).value, 3 - first;
            Enumerates([first, second], m.regions.Keys) &&
            var after := Suspended(m, DEFAULTS, BACKEND, PLACE, 7, [first, second], Reading(20, 220), {});
            !after.regions[first].resident && after.regions[second].resident
  {
    PairIsReachable();
    hide Run, Suspended, PAIR, DEFAULTS, TouchesOk, PLACE, BACKEND;
    SuspendedPair(Run(PAIR, DEFAULTS).value, first, 3 - first);
  }

  /** The same two once queue 7 has adopted them. */
  ghost predicate IsOwnedPair(m: Memory, first: Ptr, second: Ptr) {
    && TouchesOk(m) && first != second && m.regions.Keys == {first, second}
    && m.regions[first].lastTouch < m.regions[second].lastTouch
    && forall p :: p in m.regions ==> m.regions[p].place == PLACE && m.regions[p].size == 100 && m.regions[p].owner == 7 && m.regions[p].resident
  }

  lemma AdoptsPair(m: Memory, first: Ptr, second: Ptr)
    requires IsPair(m) && first != second && first in {1, 2} && second in {1, 2}
    ensures IsOwnedPair(Adopted(m, PLACE, 7, [first, second]), first, second)
  {
    assert Unowned(m, PLACE, first) && Unowned(m, PLACE, second);
    AdoptedKeepsTouches(m, PLACE, 7, [first, second]);
    AdoptedPair(m, PLACE, 7, first, second);
    hide Adopted, TouchesOk, PLACE, Unowned;
  }

  lemma SuspendedPair(m: Memory, first: Ptr, second: Ptr)
    requires IsPair(m) && first != second && first in {1, 2} && second in {1, 2}
    ensures var after := Suspended(m, DEFAULTS, BACKEND, PLACE, 7, [first, second], Reading(20, 220), {});
            !after.regions[first].resident && after.regions[second].resident
  {
    var start := SuspendsPair(m, first, second);
    hide *;
    VictimOfTwo(start, first, second);
  }

  lemma SuspendsPair(m: Memory, first: Ptr, second: Ptr) returns (start: Memory)
    requires IsPair(m) && first != second && first in {1, 2} && second in {1, 2}
    ensures var order := [first, second];
            && Enumerates(order, m.regions.Keys) && IsOwnedPair(start, first, second)
            && Suspended(m, DEFAULTS, BACKEND, PLACE, 7, order, Reading(20, 220), {})
               == Transfer(Eviction, start, PLACE, 7, order, {}, EvictionNeed(DEFAULTS, start, PLACE, order, Reading(20, 220))).m
  {
    var order := [first, second];
    DeactivatedPair(m);
    hide *;
    AdoptsPair(Deactivated(m, PLACE, 7), first, second);
    start := Adopted(Deactivated(m, PLACE, 7), PLACE, 7, order);
    WalksPair(m, first, second);
    SuspendedIs(m, DEFAULTS, BACKEND, PLACE, 7, order, Reading(20, 220), {});
  }

  lemma DeactivatedPair(m: Memory)
    requires IsPair(m)
    ensures IsPair(Deactivated(m, PLACE, 7)) && Deactivated(m, PLACE, 7).regions.Keys == {1, 2}
    ensures !SuspendReturnsEarly(BACKEND, PLACE)
  {
    DeactivationKeeps(m, PLACE, 7);
    hide TouchesOk, Deactivated;
  }

  lemma WalksPair(m: Memory, first: Ptr, second: Ptr)
    requires IsPair(m) && first != second && first in {1, 2} && second in {1, 2}
    ensures Enumerates([first, second], m.regions.Keys)
  {
    hide TouchesOk;
  }

  lemma SuspendedIs(m: Memory, cfg: Settings, backend: Backend, place: Place, queue: Handle, order: seq<Ptr>,
                    reading: Reading, refused: set<Ptr>)
    requires Enumerates(order, m.regions.Keys) && !SuspendReturnsEarly(backend, place)
    ensures forall p :: p in order ==> p in Deactivated(m, place, queue).regions
    ensures var start := Adopted(Deactivated(m, place, queue), place, queue, order);
            Suspended(m, cfg, backend, place, queue, order, reading, refused)
            == Transfer(Eviction, start, place, queue, order, refused, EvictionNeed(cfg, start, place, order, reading)).m
  {
    hide Adopted, Transfer, EvictionNeed;
  }

  /** Two resident regions of a place hold 200 bytes where 165 are wanted: the older one goes. */
  lemma VictimOfTwo(m: Memory, first: Ptr, second: Ptr)
    requires IsOwnedPair(m, first, second)
    ensures var order := [first, second];
            var after := Transfer(Eviction, m, PLACE, 7, order, {}, EvictionNeed(DEFAULTS, m, PLACE, order, Reading(20, 220))).m;
            !after.regions[first].resident && after.regions[second].resident
  {
    var order := [first, second];
    ChoiceIs(Eviction, m, PLACE, 7, order);
    SortedIsUnique(Eviction, m, Choice(Eviction, m, PLACE, 7, order), order);
    NeedOfTwo(m, first, second);
    hide Choice, TouchesOk, SortedBy, EvictionNeed, PLACE, DEFAULTS, Eligible;
    assert order[..1] == [first] && [first][..0] == [];
    assert Moved(Eviction, m, [first], {}, 35).moved == 100;
  }

  lemma NeedOfTwo(m: Memory, first: Ptr, second: Ptr)
    requires first in m.regions && second in m.regions
    requires forall p :: p in m.regions ==> var r := m.regions[p]; r.place == PLACE && r.size == 100 && r.resident
    ensures EvictionNeed(DEFAULTS, m, PLACE, [first, second], Reading(20, 220)) == 35
  {
    assert [first, second][..1] == [first] && [first][..0] == [];
    assert Bytes(m.regions, TrackedResident(PLACE), [first]) == 100;
  }
}
