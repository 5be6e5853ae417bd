/** The MCS queue lock, one shared access per step, for any number of threads that each
    use one lock at a time, under sequential consistency. */
module McsLock {
  import opened Options

  /** Where a thread is: outside, in `lock`, holding the lock, or in `unlock`. */
  datatype Pc =
    | Outside
    | ClearingFlag | ClearingNext | Exchanging | Linking(pred: nat) | Spinning
    | Critical
    | TestingNext | Swapping | AwaitingNext | Granting

  /** `flag[t]` and `next[t]` are thread t's node. `order` is the history of the exchanges
      on the tail, `released` how many of those threads have given the lock back. */
  datatype State = State(tail: Option<nat>, flag: seq<bool>, next: seq<Option<nat>>, pc: seq<Pc>,
                         order: seq<nat>, released: nat)

  function Initial(n: nat): State {
    State(None, seq(n, _ => false), seq(n, _ => None), seq(n, _ => Outside), [], 0)
  }

  predicate WellFormed(s: State) {
    && |s.flag| == |s.pc| && |s.next| == |s.pc|
    && (s.tail.Some? ==> s.tail.value < |s.pc|)
    && (forall i :: 0 <= i < |s.next| && s.next[i].Some? ==> s.next[i].value < |s.pc|)
    && (forall i :: 0 <= i < |s.pc| && s.pc[i].Linking? ==> s.pc[i].pred < |s.pc|)
  }

  /** The next access of thread `t`. A thread that spins in vain stays where it is. */
  function Step(s: State, t: nat): (s': State)
    requires WellFormed(s) && t < |s.pc|
    ensures WellFormed(s') && |s'.pc| == |s.pc|
  {
    match s.pc[t]
    case Outside => s.(pc := s.pc[t := ClearingFlag])
    case ClearingFlag => s.(flag := s.flag[t := false], pc := s.pc[t := ClearingNext])
    case ClearingNext => s.(next := s.next[t := None], pc := s.pc[t := Exchanging])
    case Exchanging =>
      s.(tail := Some(t), order := s.order + [t],
         pc := s.pc[t := if s.tail.None? then Critical else Linking(s.tail.value)])
    case Linking(p) => s.(next := s.next[p := Some(t)], pc := s.pc[t := Spinning])
    case Spinning => if s.flag[t] then s.(pc := s.pc[t := Critical]) else s
    case Critical => s.(pc := s.pc[t := TestingNext])
    case TestingNext => s.(pc := s.pc[t := if s.next[t].None? then Swapping else Granting])
    case Swapping =>
      if s.tail == Some(t) then s.(tail := None, released := s.released + 1, pc := s.pc[t := Outside])
      else s.(pc := s.pc[t := AwaitingNext])
    case AwaitingNext => if s.next[t].None? then s else s.(pc := s.pc[t := Granting])
    case Granting =>
      if s.next[t].None? then s
      else s.(flag := s.flag[s.next[t].value := true],
              released := s.released + 1, pc := s.pc[t := Outside])
  }

  /** Between its exchange and its release a thread is in the queue. */
  predicate InQueue(pc: Pc) {
    !pc.Outside? && !pc.ClearingFlag? && !pc.ClearingNext? && !pc.Exchanging?
  }

  /** Between `lock` and `unlock`, or inside `unlock`. */
  predicate Owns(pc: Pc) {
    pc.Critical? || pc.TestingNext? || pc.Swapping? || pc.AwaitingNext? || pc.Granting?
  }

  function Queue(s: State): seq<nat>
    requires s.released <= |s.order|
  {
    s.order[s.released..]
  }

  ghost predicate QueueOk(s: State, q: seq<nat>) {
    && (forall i :: 0 <= i < |q| ==> q[i] < |s.pc| && InQueue(s.pc[q[i]]))
    && (forall i, j :: 0 <= i < j < |q| ==> q[i] != q[j])
    && (forall t :: 0 <= t < |s.pc| && InQueue(s.pc[t]) ==> t in q)
    && s.tail == (if q == [] then None else Some(q[|q| - 1]))
  }

  /** What the node at position `i` of the queue holds: only the head has been granted the
      lock, and a node points to its successor as soon as that one has linked itself. */
  ghost predicate NodeOk(s: State, q: seq<nat>, i: nat)
    requires WellFormed(s) && i < |q| && forall j :: 0 <= j < |q| ==> q[j] < |s.pc|
  {
    var pc := s.pc[q[i]];
    && (i == 0 ==> Owns(pc) || (pc.Spinning? && s.flag[q[i]]))
    && (i > 0 ==> !s.flag[q[i]] && (pc.Spinning? || pc == Linking(q[i - 1])))
    && s.next[q[i]] == (if i == |q| - 1 || s.pc[q[i + 1]].Linking? then None else Some(q[i + 1]))
    && (pc.AwaitingNext? ==> |q| > 1)
    && (pc.Granting? ==> |q| > 1 && s.next[q[i]].Some?)
  }

  ghost predicate NodesOk(s: State, q: seq<nat>)
    requires WellFormed(s) && forall j :: 0 <= j < |q| ==> q[j] < |s.pc|
  {
    forall i: nat :: i < |q| ==> NodeOk(s, q, i)
  }

  /** A thread about to swap the tail has cleared its node. */
  predicate FreshNode(s: State, t: nat)
    requires WellFormed(s) && t < |s.pc|
  {
    && (s.pc[t].ClearingNext? || s.pc[t].Exchanging? ==> !s.flag[t])
    && (s.pc[t].Exchanging? ==> s.next[t].None?)
  }

  ghost predicate FreshNodesOk(s: State)
    requires WellFormed(s)
  {
    forall t: nat :: t < |s.pc| ==> FreshNode(s, t)
  }

  ghost predicate Inv(s: State) {
    && WellFormed(s) && s.released <= |s.order| && QueueOk(s, Queue(s)) && NodesOk(s, Queue(s)) && FreshNodesOk(s)
  }

  lemma InitialInv(n: nat)
    ensures Inv(Initial(n))
  {
  }

  /** Where thread `t` stands in the queue. */
  lemma Position(s: State, t: nat, q: seq<nat>) returns (i: nat)
    requires WellFormed(s) && QueueOk(s, q) && NodesOk(s, q) && t < |s.pc| && InQueue(s.pc[t])
    ensures i < |q| && q[i] == t && NodeOk(s, q, i)
    ensures Owns(s.pc[t]) ==> i == 0
  {
    i :| 0 <= i < |q| && q[i] == t;
    assert NodeOk(s, q, i);
  }

  lemma QueueStays(s: State, s': State, t: nat, q: seq<nat>)
    requires QueueOk(s, q) && t < |s.pc| && |s'.pc| == |s.pc| && s'.pc == s.pc[t := s'.pc[t]]
    requires InQueue(s'.pc[t]) == InQueue(s.pc[t]) && s'.tail == s.tail
    ensures QueueOk(s', q)
  {
  }

  lemma QueueGrows(s: State, s': State, t: nat, q: seq<nat>)
    requires QueueOk(s, q) && t < |s.pc| && |s'.pc| == |s.pc| && s'.pc == s.pc[t := s'.pc[t]]
    requires !InQueue(s.pc[t]) && InQueue(s'.pc[t]) && s'.tail == Some(t)
    ensures QueueOk(s', q + [t])
  {
    var q' := q + [t];
    forall u | 0 <= u < |s'.pc| && InQueue(s'.pc[u]) ensures u in q' {
      if u != t { assert u in q; }
    }
  }

  lemma QueueShrinks(s: State, s': State, q: seq<nat>)
    requires QueueOk(s, q) && q != [] && |s'.pc| == |s.pc| && s'.pc == s.pc[q[0] := s'.pc[q[0]]]
    requires !InQueue(s'.pc[q[0]]) && s'.tail == if |q| == 1 then None else s.tail
    ensures QueueOk(s', q[1..])
  {
    forall u | 0 <= u < |s'.pc| && InQueue(s'.pc[u]) ensures u in q[1..] {
      assert u in q && u != q[0];
    }
  }

  /** Before its exchange a thread only touches its own node, which nobody else can reach. */
  lemma NodesIgnoreOutsiders(s: State, t: nat, q: seq<nat>)
    requires WellFormed(s) && QueueOk(s, q) && NodesOk(s, q) && t < |s.pc|
    requires s.pc[t].Outside? || s.pc[t].ClearingFlag? || s.pc[t].ClearingNext?
    ensures NodesOk(Step(s, t), q)
  {
    assert t !in q;
    forall i: nat | i < |q| ensures NodeOk(Step(s, t), q, i) {
      assert NodeOk(s, q, i);
    }
  }

  lemma NodesAfterExchange(s: State, t: nat, q: seq<nat>)
    requires WellFormed(s) && QueueOk(s, q) && NodesOk(s, q) && FreshNodesOk(s)
    requires t < |s.pc| && s.pc[t].Exchanging?
    ensures NodesOk(Step(s, t), q + [t])
  {
    var q' := q + [t];
    assert t !in q && FreshNode(s, t);
    forall i: nat | i < |q'| ensures NodeOk(Step(s, t), q', i) {
      if i < |q| { assert NodeOk(s, q, i); }
    }
  }

  /** The only node a linking thread writes is its predecessor's. */
  lemma NodesAfterLinking(s: State, t: nat, q: seq<nat>)
    requires WellFormed(s) && QueueOk(s, q) && NodesOk(s, q)
    requires t < |s.pc| && s.pc[t].Linking?
    ensures NodesOk(Step(s, t), q)
  {
    var k := Position(s, t, q);
    forall i: nat | i < |q| ensures NodeOk(Step(s, t), q, i) {
      assert NodeOk(s, q, i);
    }
  }

  /** Spinning threads and the holder only move their own counter. */
  lemma NodesAfterMove(s: State, t: nat, q: seq<nat>)
    requires WellFormed(s) && QueueOk(s, q) && NodesOk(s, q) && t < |s.pc|
    requires s.pc[t].Spinning? || s.pc[t].Critical? || s.pc[t].TestingNext? || s.pc[t].AwaitingNext?
          || (s.pc[t].Swapping? && s.tail != Some(t))
    ensures NodesOk(Step(s, t), q)
  {
    var k := Position(s, t, q);
    forall i: nat | i < |q| ensures NodeOk(Step(s, t), q, i) {
      assert NodeOk(s, q, i);
    }
  }

  /** A handover writes the flag of the second in line and of nobody else. */
  lemma NodesAfterHandover(s: State, t: nat, q: seq<nat>)
    requires WellFormed(s) && QueueOk(s, q) && NodesOk(s, q) && t < |s.pc| && s.pc[t].Granting?
    ensures |q| > 1 && q[0] == t && s.next[t] == Some(q[1])
    ensures NodesOk(Step(s, t), q[1..])
  {
    var k := Position(s, t, q);
    assert NodeOk(s, q, 1);
    forall i: nat | i < |q| - 1 ensures NodeOk(Step(s, t), q[1..], i) {
      assert NodeOk(s, q, i + 1);
    }
  }

  /** No thread in the queue ever points to a thread outside it. */
  lemma PointersStayInQueue(s: State, t: nat)
    requires Inv(s) && t < |s.pc|
    ensures s.pc[t].Linking? ==> InQueue(s.pc[s.pc[t].pred])
    ensures s.pc[t].Granting? && s.next[t].Some? ==> InQueue(s.pc[s.next[t].value])
  {
    if InQueue(s.pc[t]) {
      var k := Position(s, t, Queue(s));
    }
  }

  lemma FreshNodesStay(s: State, t: nat)
    requires Inv(s) && t < |s.pc|
    ensures FreshNodesOk(Step(s, t))
  {
    PointersStayInQueue(s, t);
    hide NodesOk, QueueOk;
    forall u: nat | u < |s.pc| ensures FreshNode(Step(s, t), u) {
      assert FreshNode(s, u);
    }
  }

  lemma KeepsExchange(s: State, t: nat)
    requires Inv(s) && t < |s.pc| && s.pc[t].Exchanging?
    ensures Inv(Step(s, t))
  {
    hide NodesOk, QueueOk, FreshNodesOk, WellFormed, FreshNode;
    var s', q := Step(s, t), Queue(s);
    assert Queue(s') == q + [t];
    FreshNodesStay(s, t);
    NodesAfterExchange(s, t, q);
    QueueGrows(s, s', t, q);
    EmptyQueue(s, q);
  }

  lemma EmptyQueue(s: State, q: seq<nat>)
    requires QueueOk(s, q)
    ensures s.tail.None? <==> q == []
  {
  }

  lemma KeepsRelease(s: State, t: nat)
    requires Inv(s) && t < |s.pc| && s.pc[t].Swapping? && s.tail == Some(t)
    ensures Inv(Step(s, t))
  {
    var s', q := Step(s, t), Queue(s);
    var k := Position(s, t, q);
    assert |q| == 1;
    FreshNodesStay(s, t);
    QueueShrinks(s, s', q);
    assert Queue(s') == q[1..] == [];
  }

  lemma KeepsHandover(s: State, t: nat)
    requires Inv(s) && t < |s.pc| && s.pc[t].Granting?
    ensures Inv(Step(s, t))
  {
    hide NodesOk, FreshNodesOk;
    var s', q := Step(s, t), Queue(s);
    NodesAfterHandover(s, t, q);
    FreshNodesStay(s, t);
    assert Queue(s') == q[1..];
    QueueShrinks(s, s', q);
  }

  lemma KeepsOthers(s: State, t: nat)
    requires Inv(s) && t < |s.pc| && !s.pc[t].Exchanging? && !s.pc[t].Granting?
    requires !(s.pc[t].Swapping? && s.tail == Some(t))
    ensures Inv(Step(s, t))
  {
    var s', q := Step(s, t), Queue(s);
    hide NodesOk, QueueOk, FreshNodesOk;
    FreshNodesStay(s, t);
    assert Queue(s') == q;
    QueueStays(s, s', t, q);
    if s.pc[t].Outside? || s.pc[t].ClearingFlag? || s.pc[t].ClearingNext? {
      NodesIgnoreOutsiders(s, t, q);
    } else if s.pc[t].Linking? {
      NodesAfterLinking(s, t, q);
    } else {
      NodesAfterMove(s, t, q);
    }
  }

  lemma StepKeepsInv(s: State, t: nat)
    requires Inv(s) && t < |s.pc|
    ensures Inv(Step(s, t))
  {
    hide NodesOk, QueueOk, FreshNodesOk, WellFormed;
    if s.pc[t].Exchanging? {
      KeepsExchange(s, t);
    } else if s.pc[t].Granting? {
      KeepsHandover(s, t);
    } else if s.pc[t].Swapping? && s.tail == Some(t) {
      KeepsRelease(s, t);
    } else {
      KeepsOthers(s, t);
    }
  }

  predicate Threads(n: nat, run: seq<nat>) {
    forall i :: 0 <= i < |run| ==> run[i] < n
  }

  /** The state after `n` threads have made the accesses that `run` lists, in that order. */
  function After(n: nat, run: seq<nat>): (s: State)
    requires Threads(n, run)
    ensures WellFormed(s) && |s.pc| == n
  {
    if run == [] then Initial(n) else Step(After(n, run[..|run| - 1]), run[|run| - 1])
  }

  /** The threads that came to hold the lock, in the order they did. */
  function Acquisitions(n: nat, run: seq<nat>): seq<nat>
    requires Threads(n, run)
  {
    if run == [] then [] else
      var s, t := After(n, run[..|run| - 1]), run[|run| - 1];
      Acquisitions(n, run[..|run| - 1])
        + if !Owns(s.pc[t]) && Owns(Step(s, t).pc[t]) then [t] else []
  }

  lemma {:induction false} RunKeepsInv(n: nat, run: seq<nat>)
    requires Threads(n, run)
    ensures Inv(After(n, run))
  {
    if run == [] {
      InitialInv(n);
    } else {
      RunKeepsInv(n, run[..|run| - 1]);
      StepKeepsInv(After(n, run[..|run| - 1]), run[|run| - 1]);
    }
  }

  /** However the accesses of however many threads interleave, at most one thread is between
      `lock` and `unlock`, and it is the one longest in the queue. */
  lemma MutualExclusion(n: nat, run: seq<nat>, t: nat)
    requires Threads(n, run) && t < n && Owns(After(n, run).pc[t])
    ensures var s := After(n, run); s.released < |s.order| && s.order[s.released] == t
    ensures forall u :: 0 <= u < n && Owns(After(n, run).pc[u]) ==> u == t
  {
    RunKeepsInv(n, run);
    var s := After(n, run);
    var i := Position(s, t, Queue(s));
    forall u | 0 <= u < n && Owns(s.pc[u]) ensures u == t {
      var j := Position(s, u, Queue(s));
    }
  }

  /** Whether the head of the queue has noticed that the lock is its own. */
  predicate HeadOwns(s: State)
    requires WellFormed(s)
  {
    s.released < |s.order| && s.order[s.released] < |s.pc| && Owns(s.pc[s.order[s.released]])
  }

  /** Those who have acquired the lock, read off the order of the exchanges. */
  function Acquired(s: State): seq<nat>
    requires WellFormed(s) && s.released <= |s.order|
  {
    s.order[..if HeadOwns(s) then s.released + 1 else s.released]
  }

  lemma OwnerIsHead(s: State, t: nat)
    requires Inv(s) && t < |s.pc| && InQueue(s.pc[t])
    ensures s.released < |s.order| && s.order[s.released] < |s.pc|
    ensures Owns(s.pc[t]) || (s.pc[t].Spinning? && s.flag[t]) ==> s.order[s.released] == t
  {
    var q := Queue(s);
    var i := Position(s, t, q);
  }

  lemma EmptyTail(s: State)
    requires Inv(s)
    ensures s.tail.None? <==> s.released == |s.order|
    ensures s.tail.Some? ==> s.order[|s.order| - 1] == s.tail.value
    ensures s.released < |s.order| ==> s.order[s.released] < |s.pc| && InQueue(s.pc[s.order[s.released]])
  {
    EmptyQueue(s, Queue(s));
  }

  lemma ExchangeAcquires(s: State, t: nat)
    requires Inv(s) && t < |s.pc| && s.pc[t].Exchanging?
    ensures Acquired(Step(s, t)) == Acquired(s) + if Owns(Step(s, t).pc[t]) then [t] else []
  {
    EmptyTail(s);
    hide NodesOk, QueueOk, FreshNodesOk, WellFormed, Inv;
    var s' := Step(s, t);
    assert s'.order == s.order + [t];
  }

  lemma ReleaseAcquires(s: State, t: nat)
    requires Inv(s) && t < |s.pc|
    requires s.pc[t].Granting? || (s.pc[t].Swapping? && s.tail == Some(t))
    ensures Acquired(Step(s, t)) == Acquired(s) && !Owns(Step(s, t).pc[t])
  {
    OwnerIsHead(s, t);
    if s.pc[t].Granting? {
      HandoverFinds(s, t);
    } else {
      KeepsRelease(s, t);
      EmptyTail(Step(s, t));
    }
    hide NodesOk, QueueOk, FreshNodesOk, WellFormed, Inv;
  }

  lemma OtherAcquires(s: State, t: nat)
    requires Inv(s) && t < |s.pc| && !s.pc[t].Exchanging? && !s.pc[t].Granting?
    requires !(s.pc[t].Swapping? && s.tail == Some(t))
    ensures Acquired(Step(s, t)) == Acquired(s) + if !Owns(s.pc[t]) && Owns(Step(s, t).pc[t]) then [t] else []
  {
    EmptyTail(s);
    if InQueue(s.pc[t]) { OwnerIsHead(s, t); }
    hide NodesOk, QueueOk, FreshNodesOk, WellFormed, Inv;
  }

  lemma StepAcquires(s: State, t: nat)
    requires Inv(s) && t < |s.pc|
    ensures Step(s, t).released <= |Step(s, t).order|
    ensures Acquired(Step(s, t)) == Acquired(s) + if !Owns(s.pc[t]) && Owns(Step(s, t).pc[t]) then [t] else []
  {
    StepKeepsInv(s, t);
    hide NodesOk, QueueOk, FreshNodesOk, WellFormed, Acquired;
    if s.pc[t].Exchanging? {
      ExchangeAcquires(s, t);
    } else if s.pc[t].Granting? || (s.pc[t].Swapping? && s.tail == Some(t)) {
      ReleaseAcquires(s, t);
    } else {
      OtherAcquires(s, t);
    }
  }

  /** First come, first served: the lock is acquired in the order of the tail exchanges. */
  lemma {:induction false} AcquiredInExchangeOrder(n: nat, run: seq<nat>)
    requires Threads(n, run)
    ensures var s := After(n, run);
            s.released <= |s.order|
            && Acquisitions(n, run) == s.order[..if HeadOwns(s) then s.released + 1 else s.released]
  {
    RunKeepsInv(n, run);
    if run != [] {
      RunKeepsInv(n, run[..|run| - 1]);
      AcquiredInExchangeOrder(n, run[..|run| - 1]);
      StepAcquires(After(n, run[..|run| - 1]), run[|run| - 1]);
    }
  }

  /** An unlocker gives the lock back to nobody exactly when nobody exchanged the tail after it. */
  lemma ReleaseToNobodyIffAlone(n: nat, run: seq<nat>, t: nat)
    requires Threads(n, run) && t < n && After(n, run).pc[t].Swapping?
    ensures var s := After(n, run);
            Step(s, t).pc[t].Outside? <==> |s.order| == s.released + 1
  {
    RunKeepsInv(n, run);
    var s := After(n, run);
    var i := Position(s, t, Queue(s));
  }

  lemma HandoverFinds(s: State, t: nat)
    requires Inv(s) && t < |s.pc| && (s.pc[t].AwaitingNext? || s.pc[t].Granting?)
    ensures s.released + 1 < |s.order| && s.order[s.released] == t
    ensures s.next[t].Some? ==> s.next[t].value == s.order[s.released + 1] && s.pc[s.next[t].value].Spinning?
    ensures s.pc[t].Granting? ==> s.next[t].Some?
  {
    var q := Queue(s);
    var i := Position(s, t, q);
    assert NodeOk(s, q, 1);
  }

  /** An unlocker that found a later tail waits for its direct successor in exchange order,
      and hands the lock to that thread: it is the one that leaves its spin loop next. */
  lemma HandoverIsToTheSuccessor(n: nat, run: seq<nat>, t: nat)
    requires Threads(n, run) && t < n
    requires After(n, run).pc[t].AwaitingNext? || After(n, run).pc[t].Granting?
    ensures var s := After(n, run);
            s.released + 1 < |s.order| && s.order[s.released] == t
            && (s.next[t].Some? ==> s.next[t].value == s.order[s.released + 1])
    ensures var s := After(n, run);
            s.pc[t].Granting? ==>
              var s' := Step(s, t);
              && s'.pc[t].Outside? && s'.released == s.released + 1
              && s'.pc[s'.order[s'.released]].Spinning? && s'.flag[s'.order[s'.released]]
              && Step(s', s'.order[s'.released]).pc[s'.order[s'.released]].Critical?
  {
    RunKeepsInv(n, run);
    HandoverFinds(After(n, run), t);
    hide NodesOk, QueueOk, FreshNodesOk, WellFormed, Queue, After;
  }

  /** The protocol never gets stuck: while anyone waits, someone in the queue can move. */
  lemma SomeoneCanMove(n: nat, run: seq<nat>)
    requires Threads(n, run)
    requires var s := After(n, run); s.released < |s.order|
    ensures exists t: nat :: t < n && InQueue(After(n, run).pc[t]) && Step(After(n, run), t) != After(n, run)
  {
    RunKeepsInv(n, run);
    var s := After(n, run);
    var q := Queue(s);
    var t := q[0];
    assert NodeOk(s, q, 0);
    if Step(s, t) == s {
      assert s.pc[t].AwaitingNext?;
      assert NodeOk(s, q, 1);
      assert Step(s, q[1]).pc[q[1]].Spinning?;
    }
  }

  /** The lock with the nodes of its threads, changed in place one shared access at a time. */
  class MCSLock {
    var tail: Option<nat>
    const flag: array<bool>
    const next: array<Option<nat>>
    const pc: array<Pc>
    ghost var order: seq<nat>
    ghost var released: nat

    ghost function View(): State
      reads this, flag, next, pc
    {
      State(tail, flag[..], next[..], pc[..], order, released)
    }

    constructor (n: nat)
      ensures View() == Initial(n) && fresh(flag) && fresh(next) && fresh(pc)
      ensures Inv(View())
    {
      tail, order, released := None, [], 0;
      flag := new bool[n](_ => false);
      next := new Option<nat>[n](_ => None);
      pc := new Pc[n](_ => Outside);
      new;
      assert View() == Initial(n);
      InitialInv(n);
    }

    /** Thread `t` makes its next access, inside `lock` or inside `unlock`. */
    method Access(t: nat)
      requires Inv(View()) && t < pc.Length
      modifies this, flag, next, pc
      ensures View() == Step(old(View()), t) && Inv(View())
    {
      ghost var s := View();
      match pc[t] {
        case Outside =>
          pc[t] := ClearingFlag;
        case ClearingFlag =>
          flag[t] := false;
          pc[t] := ClearingNext;
        case ClearingNext =>
          next[t] := None;
          pc[t] := Exchanging;
        case Exchanging =>
          order := order + [t];
          if tail.None? {
            pc[t] := Critical;
          } else {
            pc[t] := Linking(tail.value);
          }
          tail := Some(t);
        case Linking(pred) =>
          next[pred] := Some(t);
          pc[t] := Spinning;
        case Spinning =>
          if flag[t] { pc[t] := Critical; }
        case Critical =>
          pc[t] := TestingNext;
        case TestingNext =>
          pc[t] := if next[t].None? then Swapping else Granting;
        case Swapping =>
          if tail == Some(t) {
            tail, released := None, released + 1;
            pc[t] := Outside;
          } else {
            pc[t] := AwaitingNext;
          }
        case AwaitingNext =>
          if next[t].Some? { pc[t] := Granting; }
        case Granting =>
          if next[t].Some? {
            flag[next[t].value] := true;
            released := released + 1;
            pc[t] := Outside;
          }
      }
      assert View() == Step(s, t);
      StepKeepsInv(s, t);
    }
  }
}
