/** What memory admission guarantees about every run, and about one eviction or prefetch. */
module AdmissionTheorems {
  import opened Sequences
  import opened Options
  import opened Admission
  import opened Walks

  /** The operations of the manager, each with what the outside world answers during it. */
  datatype Operation =
    | Register(backend: Backend, p: Ptr, size: nat, place: Place, owner: Handle)
    | Unregister(backend: Backend, backendId: nat, p: Ptr)
    | Touch(backend: Backend, place: Place, address: nat, owner: Handle, order: seq<Ptr>)
    | SetPriority(queue: Handle, priority: int)
    | Remove(queue: Handle, order: seq<Ptr>)
    | Suspend(backend: Backend, place: Place, queue: Handle, order: seq<Ptr>, reading: Reading, refused: set<Ptr>)
    | Resume(backend: Backend, place: Place, queue: Handle, order: seq<Ptr>, qorder: seq<Handle>, reading: Reading, refused: set<Ptr>)

  ghost predicate Possible(m: Memory, op: Operation) {
    match op
    case Touch(_, _, _, _, order) => Enumerates(order, m.regions.Keys)
    case Remove(_, order) => Enumerates(order, m.regions.Keys)
    case Suspend(_, _, _, order, _, _) => Enumerates(order, m.regions.Keys)
    case Resume(_, _, _, order, qorder, _, _) => Enumerates(order, m.regions.Keys)
    case _ => true
  }

  ghost function Apply(m: Memory, cfg: Settings, op: Operation): Memory
    requires Possible(m, op)
  {
    match op
    case Register(b, p, size, place, owner) => Registered(m, b, p, size, place, owner)
    case Unregister(b, id, p) => Unregistered(m, b, id, p)
    case Touch(b, place, address, owner, order) => Touched(m, b, place, address, owner, order)
    case SetPriority(queue, priority) => Prioritized(m, queue, priority)
    case Remove(queue, order) => Removed(m, queue, order)
    case Suspend(b, place, queue, order, reading, refused) => Suspended(m, cfg, b, place, queue, order, reading, refused)
    case Resume(b, place, queue, order, qorder, reading, refused) =>
      Resumed(m, cfg, b, place, queue, order, qorder, reading, refused)
  }

  /** The memory after some operations; nothing if one was given an order in which its table
      cannot be walked. */
  ghost function Run(ops: seq<Operation>, cfg: Settings): Option<Memory> {
    if ops == [] then Some(Memory(map[], map[], 0)) else
      var before := Run(ops[..|ops| - 1], cfg);
      if before.None? || !Possible(before.value, ops[|ops| - 1]) then None
      else Some(Apply(before.value, cfg, ops[|ops| - 1]))
  }

  lemma WithTouchKeepsTouches(m: Memory, p: Ptr, r: Region)
    requires TouchesOk(m) && r.size > 0
    ensures TouchesOk(WithTouch(m, p, r))
  {
  }

  lemma SizesArePositive(m: Memory, p: Ptr)
    requires TouchesOk(m) && p in m.regions
    ensures m.regions[p].size > 0
  {
  }

  lemma {:induction false} AdoptedKeepsTouches(m: Memory, place: Place, queue: Handle, walked: seq<Ptr>)
    requires TouchesOk(m) && forall p :: p in walked ==> p in m.regions
    ensures TouchesOk(Adopted(m, place, queue, walked))
  {
    hide TouchesOk, WithTouch;
    if queue != 0 && walked != [] {
      var rest, p := walked[..|walked| - 1], walked[|walked| - 1];
      AdoptedKeepsTouches(m, place, queue, rest);
      var before := Adopted(m, place, queue, rest);
      SizesArePositive(before, p);
      WithTouchKeepsTouches(before, p, before.regions[p].(owner := queue));
    }
  }

  lemma {:induction false} MovedKeepsTouches(purpose: Purpose, m: Memory, chosen: seq<Ptr>, refused: set<Ptr>, need: nat)
    requires TouchesOk(m) && forall p :: p in chosen ==> p in m.regions
    ensures TouchesOk(Moved(purpose, m, chosen, refused, need).m)
  {
    hide TouchesOk, WithTouch;
    if chosen != [] {
      var rest, p := chosen[..|chosen| - 1], chosen[|chosen| - 1];
      MovedKeepsTouches(purpose, m, rest, refused, need);
      var before := Moved(purpose, m, rest, refused, need).m;
      SizesArePositive(before, p);
      WithTouchKeepsTouches(before, p, before.regions[p].(resident := purpose.Prefetching?));
    }
  }

  /** Nothing is moved when nothing is needed. */
  lemma {:induction false} ZeroMoves(purpose: Purpose, m: Memory, chosen: seq<Ptr>, refused: set<Ptr>)
    requires forall p :: p in chosen ==> p in m.regions
    ensures Moved(purpose, m, chosen, refused, 0) == Progress(m, 0)
  {
    if chosen != [] { ZeroMoves(purpose, m, chosen[..|chosen| - 1], refused); }
  }

  lemma QueuesDoNotMatter(m: Memory, queues: map<Handle, QueueState>, clock: nat)
    requires TouchesOk(m) && clock >= m.clock
    ensures TouchesOk(Memory(m.regions, queues, clock))
  {
  }

  lemma BeforeEvictionKeepsTouches(m: Memory, place: Place, queue: Handle, order: seq<Ptr>)
    requires TouchesOk(m) && Enumerates(order, m.regions.Keys)
    ensures TouchesOk(BeforeEviction(m, place, queue, order))
  {
    hide TouchesOk, QueueOf;
    QueuesDoNotMatter(m, Deactivated(m, place, queue).queues, m.clock);
    AdoptedKeepsTouches(Deactivated(m, place, queue), place, queue, order);
  }

  lemma SuspendKeepsTouches(m: Memory, cfg: Settings, b: Backend, place: Place, queue: Handle, order: seq<Ptr>,
                            reading: Reading, refused: set<Ptr>)
    requires TouchesOk(m) && Enumerates(order, m.regions.Keys)
    ensures TouchesOk(Suspended(m, cfg, b, place, queue, order, reading, refused))
  {
    BeforeEvictionKeepsTouches(m, place, queue, order);
    hide TouchesOk, EvictionNeed, Choice, BeforeEviction, Enumerates;
    var start := BeforeEviction(m, place, queue, order);
    MovedKeepsTouches(Eviction, start, Choice(Eviction, start, place, queue, order), refused,
      EvictionNeed(cfg, start, place, order, reading));
  }

  lemma BeforePrefetchKeepsTouches(m: Memory, place: Place, queue: Handle, order: seq<Ptr>)
    requires TouchesOk(m) && Enumerates(order, m.regions.Keys)
    ensures TouchesOk(BeforePrefetch(m, place, queue, order))
  {
    hide TouchesOk, QueueOf;
    QueuesDoNotMatter(m, Activated(m, place, queue).queues, m.clock + 1);
    AdoptedKeepsTouches(Activated(m, place, queue), place, queue, order);
  }

  lemma ResumeKeepsTouches(m: Memory, cfg: Settings, b: Backend, place: Place, queue: Handle, order: seq<Ptr>,
                           qorder: seq<Handle>, reading: Reading, refused: set<Ptr>)
    requires TouchesOk(m) && Enumerates(order, m.regions.Keys)
    ensures TouchesOk(Resumed(m, cfg, b, place, queue, order, qorder, reading, refused))
  {
    BeforePrefetchKeepsTouches(m, place, queue, order);
    hide TouchesOk, PrefetchNeed, Choice, BeforePrefetch, Enumerates;
    var start := BeforePrefetch(m, place, queue, order);
    MovedKeepsTouches(Prefetching, start, Choice(Prefetching, start, place, queue, order), refused,
      PrefetchNeed(cfg, start, place, queue, order, qorder, reading));
  }

  lemma OperationKeepsTouches(m: Memory, cfg: Settings, op: Operation)
    requires TouchesOk(m) && Possible(m, op)
    ensures TouchesOk(Apply(m, cfg, op))
  {
    hide Suspended, Resumed;
    match op {
      case Suspend(b, place, queue, order, reading, refused) =>
        SuspendKeepsTouches(m, cfg, b, place, queue, order, reading, refused);
      case Resume(b, place, queue, order, qorder, reading, refused) =>
        ResumeKeepsTouches(m, cfg, b, place, queue, order, qorder, reading, refused);
      case _ =>
    }
  }

  /** In every run all timestamps differ, so the order of victims never hangs on anything else. */
  lemma {:induction false} TouchesAreUnique(ops: seq<Operation>, cfg: Settings)
    requires Run(ops, cfg).Some?
    ensures TouchesOk(Run(ops, cfg).value)
  {
    if ops != [] {
      TouchesAreUnique(ops[..|ops| - 1], cfg);
      OperationKeepsTouches(Run(ops[..|ops| - 1], cfg).value, cfg, ops[|ops| - 1]);
    }
  }

  lemma {:induction false} InsertedIsSorted(purpose: Purpose, m: Memory, s: seq<Ptr>, p: Ptr)
    requires TouchesOk(m) && SortedBy(purpose, m, s) && p in m.regions && p !in s
    ensures SortedBy(purpose, m, Inserted(purpose, m, s, p))
  {
    hide Precedes, TouchesOk;
    InsertedHolds(purpose, m, s, p);
    if s == [] {
    } else if Precedes(purpose, m, p, s[0]) {
      forall i | 0 <= i < |s| ensures Precedes(purpose, m, p, s[i]) {
        PrecedesIsTotalOrder(purpose, m, p, s[0], s[i]);
      }
    } else {
      PrecedesIsTotalOrder(purpose, m, p, s[0], p);
      assert s[0] in s;
      InsertedIsSorted(purpose, m, s[1..], p);
      InsertedHolds(purpose, m, s[1..], p);
      var rest := Inserted(purpose, m, s[1..], p);
      forall i | 0 <= i < |rest| ensures Precedes(purpose, m, s[0], rest[i]) {
        assert rest[i] in rest;
      }
    }
  }

  /** Sorting yields the same regions in the right order. */
  lemma {:induction false} SortedIsSorted(purpose: Purpose, m: Memory, s: seq<Ptr>)
    requires TouchesOk(m) && Distinct(s) && forall q :: q in s ==> q in m.regions
    ensures SortedBy(purpose, m, Sorted(purpose, m, s))
    ensures forall q :: q in Sorted(purpose, m, s) <==> q in s
  {
    hide Precedes, TouchesOk;
    if s != [] {
      var rest, p := s[..|s| - 1], s[|s| - 1];
      assert s == rest + [p];
      SortedIsSorted(purpose, m, rest);
      assert p !in rest;
      InsertedIsSorted(purpose, m, Sorted(purpose, m, rest), p);
      InsertedHolds(purpose, m, Sorted(purpose, m, rest), p);
    }
  }

  lemma SortedIsDistinct(purpose: Purpose, m: Memory, s: seq<Ptr>)
    requires TouchesOk(m) && SortedBy(purpose, m, s)
    ensures Distinct(s)
  {
    hide Precedes, TouchesOk;
    forall i, j | 0 <= i < j < |s| ensures s[i] != s[j] {
      PrecedesIsTotalOrder(purpose, m, s[i], s[i], s[i]);
    }
  }

  /** There is only one way to sort. */
  lemma {:induction false} SortedIsUnique(purpose: Purpose, m: Memory, s: seq<Ptr>, t: seq<Ptr>)
    requires TouchesOk(m) && SortedBy(purpose, m, s) && SortedBy(purpose, m, t)
    requires forall p :: p in s <==> p in t
    ensures s == t
  {
    hide Precedes, TouchesOk;
    if s == [] {
      HasMember(t);
    } else {
      assert s[0] in s && s[0] in t;
      var k :| 0 <= k < |t| && t[k] == s[0];
      assert t[0] in t && t[0] in s;
      var j :| 0 <= j < |s| && s[j] == t[0];
      if k > 0 { PrecedesIsTotalOrder(purpose, m, s[0], t[0], s[0]); }
      assert s[0] == t[0];
      SortedIsDistinct(purpose, m, s);
      SortedIsDistinct(purpose, m, t);
      assert s == [s[0]] + s[1..] && t == [t[0]] + t[1..];
      forall p ensures p in s[1..] <==> p in t[1..] {
        assert p in s <==> p == s[0] || p in s[1..];
        assert p in t <==> p == t[0] || p in t[1..];
      }
      SortedIsUnique(purpose, m, s[1..], t[1..]);
    }
  }
}
