/** Memory admission: which memory regions stay on a device when queues are suspended and resumed. */
module Admission {
  import opened Options
  import opened Walks

  type Ptr = nat
  type Handle = nat

  const PRIORITY_MIN := -255
  const PRIORITY_DEFAULT := 0
  const PRIORITY_MAX := 255
  const SIZE_RANGE := 0x1_0000_0000_0000_0000

  datatype Region = Region(place: Place, size: nat, owner: Handle, resident: bool, lastTouch: nat)

  /** The memory a region or a queue belongs to. */
  datatype Place = Place(backend: nat, context: nat, device: int)

  datatype QueueState = QueueState(place: Place, priority: int, active: bool, lastActive: nat)

  const NOWHERE := Place(0, 0, 0)
  const NEW_QUEUE := QueueState(NOWHERE, PRIORITY_DEFAULT, false, 0)

  /** What the environment variables say, where they hold a number. */
  datatype Settings = Settings(high: Option<int>, highCompat: Option<int>, low: Option<int>, lowCompat: Option<int>,
                               evictLimitMb: Option<int>, prefetchLimitMb: Option<int>)

  datatype Memory = Memory(regions: map<Ptr, Region>, queues: map<Handle, QueueState>, clock: nat)

  function OrElse(o: Option<int>, fallback: int): int {
    if o.Some? then o.value else fallback
  }

  function Percent(primary: Option<int>, compat: Option<int>, fallback: int): int {
    var v := OrElse(primary, OrElse(compat, fallback));
    if v <= 0 || v >= 100 then fallback else v
  }

  function HighPercent(cfg: Settings): int { Percent(cfg.high, cfg.highCompat, 85) }

  function LowPercent(cfg: Settings): int {
    var high, low := HighPercent(cfg), Percent(cfg.low, cfg.lowCompat, 75);
    if low >= high then (if high - 10 > 1 then high - 10 else 1) else low
  }

  function HighWatermark(cfg: Settings, total: nat): nat { total * HighPercent(cfg) / 100 }

  function LowWatermark(cfg: Settings, total: nat): nat { total * LowPercent(cfg) / 100 }

  /** A limit in bytes; zero stands for no limit. */
  function MbLimit(mb: Option<int>, fallback: int): nat {
    var v := OrElse(mb, fallback);
    if v <= 0 then 0 else v * 0x10_0000
  }

  function Capped(need: nat, limit: nat): nat {
    if limit != 0 && limit < need then limit else need
  }

  /** However the percentages are set, the low watermark is not above the high one. */
  lemma WatermarksAreOrdered(cfg: Settings, total: nat)
    ensures 0 < LowPercent(cfg) <= HighPercent(cfg) < 100
    ensures LowWatermark(cfg, total) <= HighWatermark(cfg, total) <= total
  {
    var l, h := LowPercent(cfg), HighPercent(cfg);
    assert total * l <= total * h <= total * 100;
  }

  /** Timestamps are unique and none is in the future. */
  ghost predicate TouchesOk(m: Memory) {
    && (forall p :: p in m.regions ==> m.regions[p].lastTouch <= m.clock && m.regions[p].size > 0)
    && (forall p, q :: p in m.regions && q in m.regions && p != q ==> m.regions[p].lastTouch != m.regions[q].lastTouch)
  }

  function WithTouch(m: Memory, p: Ptr, r: Region): Memory {
    m.(regions := m.regions[p := r.(lastTouch := m.clock + 1)], clock := m.clock + 1)
  }

  /** Unowned regions of a place fall to a queue, one after the other. */
  function Adopted(m: Memory, place: Place, queue: Handle, walked: seq<Ptr>): (r: Memory)
    requires forall p :: p in walked ==> p in m.regions
    ensures r.regions.Keys == m.regions.Keys && r.queues == m.queues
  {
    if queue == 0 || walked == [] then m else
      var before, p := Adopted(m, place, queue, walked[..|walked| - 1]), walked[|walked| - 1];
      var region := before.regions[p];
      if region.place == place && region.owner == 0 then WithTouch(before, p, region.(owner := queue)) else before
  }

  /** The regions whose bytes are added up: the resident ones of a place, the resident ones of a
      queue, or all of a queue. */
  datatype Selection = TrackedResident(place: Place) | QueueResident(place: Place, queue: Handle) | QueueHot(place: Place, queue: Handle)

  predicate Selected(sel: Selection, r: Region) {
    && r.place == sel.place && (sel.QueueHot? || r.resident)
    && (sel.TrackedResident? || r.owner == sel.queue)
  }

  function Bytes(regions: map<Ptr, Region>, sel: Selection, walked: seq<Ptr>): nat {
    if walked == [] then 0 else
      var p := walked[|walked| - 1];
      Bytes(regions, sel, walked[..|walked| - 1]) + if p in regions && Selected(sel, regions[p]) then regions[p].size else 0
  }

  /** Whether the owner of a region is an active queue, and its priority. */
  predicate OwnerActive(queues: map<Handle, QueueState>, r: Region) {
    r.owner in queues && queues[r.owner].active
  }

  function OwnerPriority(queues: map<Handle, QueueState>, r: Region): int {
    if r.owner in queues then queues[r.owner].priority else PRIORITY_DEFAULT
  }

  /** Which of two regions is evicted first. */
  predicate GoesBefore(queues: map<Handle, QueueState>, a: Region, b: Region) {
    if OwnerActive(queues, a) != OwnerActive(queues, b) then !OwnerActive(queues, a)
    else if OwnerPriority(queues, a) != OwnerPriority(queues, b) then OwnerPriority(queues, a) < OwnerPriority(queues, b)
    else if a.lastTouch != b.lastTouch then a.lastTouch < b.lastTouch
    else a.size > b.size
  }

  /** Which of two regions is prefetched first: the one touched last. */
  predicate FresherThan(a: Region, b: Region) {
    if a.lastTouch != b.lastTouch then a.lastTouch > b.lastTouch else a.size > b.size
  }

  datatype Purpose = Eviction | Prefetching

  predicate Precedes(purpose: Purpose, m: Memory, a: Ptr, b: Ptr)
    requires a in m.regions && b in m.regions
  {
    if purpose.Eviction? then GoesBefore(m.queues, m.regions[a], m.regions[b]) else FresherThan(m.regions[a], m.regions[b])
  }

  ghost predicate SortedBy(purpose: Purpose, m: Memory, s: seq<Ptr>) {
    && (forall p :: p in s ==> p in m.regions)
    && (forall i, j :: 0 <= i < j < |s| ==> Precedes(purpose, m, s[i], s[j]))
  }

  /** With unique timestamps both comparisons are strict total orders. */
  lemma PrecedesIsTotalOrder(purpose: Purpose, m: Memory, a: Ptr, b: Ptr, c: Ptr)
    requires TouchesOk(m) && a in m.regions && b in m.regions && c in m.regions
    ensures !Precedes(purpose, m, a, a)
    ensures a != b ==> (Precedes(purpose, m, a, b) <==> !Precedes(purpose, m, b, a))
    ensures Precedes(purpose, m, a, b) && Precedes(purpose, m, b, c) ==> Precedes(purpose, m, a, c)
  {
  }

  /** What the choice is made from: resident regions of the place for eviction, absent regions of
      the queue for prefetching. */
  predicate Eligible(purpose: Purpose, m: Memory, place: Place, queue: Handle, p: Ptr) {
    && p in m.regions && m.regions[p].place == place
    && (if purpose.Eviction? then m.regions[p].resident else m.regions[p].owner == queue && !m.regions[p].resident)
  }

  function Collected(purpose: Purpose, m: Memory, place: Place, queue: Handle, walked: seq<Ptr>): seq<Ptr> {
    if walked == [] then [] else
      var p := walked[|walked| - 1];
      Collected(purpose, m, place, queue, walked[..|walked| - 1])
      + if Eligible(purpose, m, place, queue, p) then [p] else []
  }

  function Inserted(purpose: Purpose, m: Memory, s: seq<Ptr>, p: Ptr): seq<Ptr>
    requires p in m.regions && forall q :: q in s ==> q in m.regions
  {
    if s == [] || Precedes(purpose, m, p, s[0]) then [p] + s else [s[0]] + Inserted(purpose, m, s[1..], p)
  }

  function Sorted(purpose: Purpose, m: Memory, s: seq<Ptr>): (r: seq<Ptr>)
    requires forall q :: q in s ==> q in m.regions
    ensures forall q :: q in r ==> q in m.regions
  {
    if s == [] then [] else
      var rest := Sorted(purpose, m, s[..|s| - 1]);
      InsertedHolds(purpose, m, rest, s[|s| - 1]);
      Inserted(purpose, m, rest, s[|s| - 1])
  }

  lemma {:induction false} InsertedHolds(purpose: Purpose, m: Memory, s: seq<Ptr>, p: Ptr)
    requires p in m.regions && forall q :: q in s ==> q in m.regions
    ensures forall q :: q in Inserted(purpose, m, s, p) <==> q in s || q == p
  {
    if s != [] && !Precedes(purpose, m, p, s[0]) {
      InsertedHolds(purpose, m, s[1..], p);
      assert s == [s[0]] + s[1..];
    }
  }

  /** What a walk over the chosen regions has done so far. */
  datatype Progress = Progress(m: Memory, moved: nat)

  /** Moves regions off or onto the device until enough bytes have moved; the backend refuses some. */
  function Moved(purpose: Purpose, m: Memory, chosen: seq<Ptr>, refused: set<Ptr>, need: nat): (r: Progress)
    requires forall p :: p in chosen ==> p in m.regions
    ensures r.m.regions.Keys == m.regions.Keys && r.m.queues == m.queues
  {
    if chosen == [] then Progress(m, 0) else
      var before, p := Moved(purpose, m, chosen[..|chosen| - 1], refused, need), chosen[|chosen| - 1];
      if before.moved >= need || p in refused then before else
        var region := before.m.regions[p];
        Progress(WithTouch(before.m, p, region.(resident := purpose.Prefetching?)), before.moved + region.size)
  }

  /** Whether the backend can be used at all, and what it can do. */
  datatype Backend = Backend(usable: bool, canQuery: bool, canEvict: bool, canPrefetch: bool)

  /** What the driver answers when asked for the free and the total memory of a place. */
  datatype Reading = NoReading | Reading(free: nat, total: nat)

  function QueueOf(m: Memory, queue: Handle): QueueState {
    if queue in m.queues then m.queues[queue] else NEW_QUEUE
  }

  function Max(a: int, b: int): int { if a > b then a else b }

  /** The bytes in use: what the driver says, which wraps around when it reports more free than
      total memory, or what is tracked, whichever is more. */
  function UsedBytes(m: Memory, place: Place, order: seq<Ptr>, reading: Reading): nat
    requires reading.Reading?
  {
    Max((reading.total - reading.free) % SIZE_RANGE, Bytes(m.regions, TrackedResident(place), order))
  }

  /** How many bytes to evict: above the high watermark, down to the low one, at most the limit. */
  function EvictionNeed(cfg: Settings, m: Memory, place: Place, order: seq<Ptr>, reading: Reading): nat {
    if reading.NoReading? || reading.total == 0 then 0 else
      var used, low := UsedBytes(m, place, order, reading), LowWatermark(cfg, reading.total);
      if used <= HighWatermark(cfg, reading.total) then 0
      else Capped(if used > low then used - low else 0, MbLimit(cfg.evictLimitMb, 4096))
  }

  function Deactivated(m: Memory, place: Place, queue: Handle): Memory {
    m.(queues := m.queues[queue := QueueOf(m, queue).(place := place, active := false)])
  }

  function Activated(m: Memory, place: Place, queue: Handle): Memory {
    var q := QueueOf(m, queue).(place := place, active := true, lastActive := m.clock + 1);
    Memory(m.regions, m.queues[queue := q], m.clock + 1)
  }

  /** The memory when the eviction starts: the queue is inactive and has adopted its place. */
  function BeforeEviction(m: Memory, place: Place, queue: Handle, order: seq<Ptr>): (r: Memory)
    requires Enumerates(order, m.regions.Keys)
    ensures r.regions.Keys == m.regions.Keys
  {
    Adopted(Deactivated(m, place, queue), place, queue, order)
  }

  function Choice(purpose: Purpose, m: Memory, place: Place, queue: Handle, order: seq<Ptr>): (r: seq<Ptr>)
    ensures forall p :: p in r ==> p in m.regions
  {
    CollectedHolds(purpose, m, place, queue, order);
    Sorted(purpose, m, Collected(purpose, m, place, queue, order))
  }

  lemma {:induction false} CollectedHolds(purpose: Purpose, m: Memory, place: Place, queue: Handle, walked: seq<Ptr>)
    ensures forall p :: p in Collected(purpose, m, place, queue, walked) <==> p in walked && Eligible(purpose, m, place, queue, p)
  {
    if walked != [] {
      CollectedHolds(purpose, m, place, queue, walked[..|walked| - 1]);
      assert walked == walked[..|walked| - 1] + [walked[|walked| - 1]];
    }
  }

  /** Moves the eligible regions in their order until `need` bytes have moved. */
  function Transfer(purpose: Purpose, m: Memory, place: Place, queue: Handle, order: seq<Ptr>, refused: set<Ptr>, need: nat): (r: Progress)
    ensures r.m.regions.Keys == m.regions.Keys && r.m.queues == m.queues
  {
    Moved(purpose, m, Choice(purpose, m, place, queue, order), refused, need)
  }

  function Suspended(m: Memory, cfg: Settings, backend: Backend, place: Place, queue: Handle, order: seq<Ptr>,
                     reading: Reading, refused: set<Ptr>): Memory
    requires Enumerates(order, m.regions.Keys)
  {
    if !backend.usable || place.context == 0 || !backend.canQuery || !backend.canEvict then m else
      var start := BeforeEviction(m, place, queue, order);
      Transfer(Eviction, start, place, queue, order, refused, EvictionNeed(cfg, start, place, order, reading)).m
  }

  /** Priorities count from one. */
  function QueueWeight(q: QueueState): nat {
    Max(1, q.priority - PRIORITY_MIN + 1)
  }

  predicate ActiveAt(queues: map<Handle, QueueState>, place: Place, q: Handle) {
    q in queues && queues[q].active && queues[q].place == place
  }

  function ActiveWeight(queues: map<Handle, QueueState>, place: Place, walked: seq<Handle>): nat {
    if walked == [] then 0 else
      var q := walked[|walked| - 1];
      ActiveWeight(queues, place, walked[..|walked| - 1]) + if ActiveAt(queues, place, q) then QueueWeight(queues[q]) else 0
  }

  /** The share of the usable memory a queue gets by its weight among the active ones. */
  function Share(cfg: Settings, queues: map<Handle, QueueState>, place: Place, queue: Handle, total: nat, qorder: seq<Handle>): nat {
    var sum := ActiveWeight(queues, place, qorder);
    if sum == 0 then LowWatermark(cfg, total)
    else LowWatermark(cfg, total) * (if ActiveAt(queues, place, queue) then QueueWeight(queues[queue]) else 1) / sum
  }

  function QueueBudget(cfg: Settings, m: Memory, place: Place, queue: Handle, total: nat, order: seq<Ptr>, qorder: seq<Handle>): nat {
    var share := Share(cfg, m.queues, place, queue, total, qorder);
    var hot := Bytes(m.regions, QueueHot(place, queue), order);
    if ActiveWeight(m.queues, place, qorder) != 0 && hot != 0 && hot < share then hot else share
  }

  function PrefetchNeed(cfg: Settings, m: Memory, place: Place, queue: Handle, order: seq<Ptr>, qorder: seq<Handle>, reading: Reading): nat {
    if reading.NoReading? || reading.total == 0 then 0 else
      var budget := QueueBudget(cfg, m, place, queue, reading.total, order, qorder);
      var resident := Bytes(m.regions, QueueResident(place, queue), order);
      if resident >= budget then 0 else Capped(budget - resident, MbLimit(cfg.prefetchLimitMb, 1024))
  }

  /** The memory when the prefetching starts: the queue is active and has adopted its place. */
  function BeforePrefetch(m: Memory, place: Place, queue: Handle, order: seq<Ptr>): (r: Memory)
    requires Enumerates(order, m.regions.Keys)
    ensures r.regions.Keys == m.regions.Keys
  {
    Adopted(Activated(m, place, queue), place, queue, order)
  }

  function Resumed(m: Memory, cfg: Settings, backend: Backend, place: Place, queue: Handle, order: seq<Ptr>, qorder: seq<Handle>,
                   reading: Reading, refused: set<Ptr>): Memory
    requires Enumerates(order, m.regions.Keys)
  {
    if !backend.usable || place.context == 0 || queue == 0 || !backend.canQuery || !backend.canPrefetch then m else
      var start := BeforePrefetch(m, place, queue, order);
      Transfer(Prefetching, start, place, queue, order, refused, PrefetchNeed(cfg, start, place, queue, order, qorder, reading)).m
  }

  function Registered(m: Memory, backend: Backend, p: Ptr, size: nat, place: Place, owner: Handle): Memory {
    if !backend.usable || p == 0 || size == 0 || place.context == 0 then m
    else WithTouch(m, p, Region(place, size, owner, true, 0))
  }

  function Unregistered(m: Memory, backend: Backend, backendId: nat, p: Ptr): Memory {
    if !backend.usable || p !in m.regions || m.regions[p].place.backend != backendId then m
    else m.(regions := m.regions - {p})
  }

  predicate Holds(m: Memory, place: Place, p: Ptr, address: nat) {
    p in m.regions && m.regions[p].place == place && p <= address < p + m.regions[p].size
  }

  /** The first region of the walk that holds an address. */
  function FirstHolding(m: Memory, place: Place, address: nat, walked: seq<Ptr>): Option<Ptr> {
    if walked == [] then None
    else if Holds(m, place, walked[0], address) then Some(walked[0])
    else FirstHolding(m, place, address, walked[1..])
  }

  function Touched(m: Memory, backend: Backend, place: Place, address: nat, owner: Handle, order: seq<Ptr>): Memory {
    if !backend.usable || address == 0 || owner == 0 then m else
      var p := FirstHolding(m, place, address, order);
      if p.Some? && p.value in m.regions then WithTouch(m, p.value, m.regions[p.value].(owner := owner)) else m
  }

  function Prioritized(m: Memory, queue: Handle, priority: int): Memory {
    if queue == 0 then m else
      var p := if priority < PRIORITY_MIN then PRIORITY_MIN else if priority > PRIORITY_MAX then PRIORITY_MAX else priority;
      m.(queues := m.queues[queue := QueueOf(m, queue).(priority := p)])
  }

  function Disowned(regions: map<Ptr, Region>, queue: Handle, walked: seq<Ptr>): map<Ptr, Region> {
    map p | p in regions :: if p in walked && regions[p].owner == queue then regions[p].(owner := 0) else regions[p]
  }

  function Removed(m: Memory, queue: Handle, order: seq<Ptr>): Memory {
    if queue == 0 then m else m.(queues := m.queues - {queue}, regions := Disowned(m.regions, queue, order))
  }
}
