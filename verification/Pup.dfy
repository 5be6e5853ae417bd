/** The process utilization policy: processes take turns in a run queue, each for a time slice
    according to its share, and what a process leaves unused is saved for its next turn. */
module Pup {
  import opened Options
  import opened Mirror
  import opened Policies
  import opened Walks

  const UTILIZATION_MIN := 0
  const UTILIZATION_DEFAULT := 100
  const UTILIZATION_MAX := 100
  const TIMESLICE_MIN := 100
  const TIMESLICE_DEFAULT := 5000
  const TIMESLICE_MAX := 100000
  const DISTANT_PAST := -0x8000_0000_0000_0000

  datatype RunEntry = RunEntry(pid: Pid, ready: bool, running: bool, budget: int)

  predicate Alive(m: Mirror, pid: Pid) {
    pid in m.procs && (m.procs[pid].running != {} || m.procs[pid].parked != {})
  }

  predicate ProcessReady(m: Mirror, pid: Pid) {
    pid in m.procs && exists h :: h in m.procs[pid].running + m.procs[pid].parked && h in m.xqs && m.xqs[h].ready
  }

  /** Entries of processes that are gone or have no queues leave; the others learn if they are ready. */
  function Purged(q: seq<RunEntry>, m: Mirror): seq<RunEntry> {
    if q == [] then [] else
      var last := q[|q| - 1];
      Purged(q[..|q| - 1], m) + if Alive(m, last.pid) then [last.(ready := ProcessReady(m, last.pid))] else []
  }

  predicate PidsDistinct(q: seq<RunEntry>) {
    forall i, j :: 0 <= i < j < |q| ==> q[i].pid != q[j].pid
  }

  function Pids(q: seq<RunEntry>): set<Pid> {
    set i | 0 <= i < |q| :: q[i].pid
  }

  /** Processes that have queues and are not in the run queue join at its end. */
  function Joined(q: seq<RunEntry>, m: Mirror, walked: seq<Pid>): seq<RunEntry> {
    if walked == [] then q else
      var before, pid := Joined(q, m, walked[..|walked| - 1]), walked[|walked| - 1];
      if Alive(m, pid) && pid !in Pids(before) then before + [RunEntry(pid, ProcessReady(m, pid), false, 0)] else before
  }

  function Util(utils: map<Pid, int>, pid: Pid): int {
    if pid in utils then utils[pid] else UTILIZATION_DEFAULT
  }

  function TotalUtil(q: seq<RunEntry>, utils: map<Pid, int>): int {
    if q == [] then 0 else TotalUtil(q[..|q| - 1], utils) + Util(utils, q[|q| - 1].pid)
  }

  /** The share of a process in a round of average time slices. */
  function Budget(q: seq<RunEntry>, utils: map<Pid, int>, average: int, pid: Pid): int {
    var total := TotalUtil(q, utils);
    if total == 0 then 0 else average * |q| * Util(utils, pid) / total
  }

  /** A saved budget with a new share added: what exceeds one share decays by a tenth first. */
  function Grow(budget: int, share: int): int {
    (if budget > share then share + (budget - share) * 9 / 10 else budget) + share
  }

  predicate AnyReady(q: seq<RunEntry>) {
    exists i :: 0 <= i < |q| && q[i].ready
  }

  function FirstReady(q: seq<RunEntry>): nat
    requires AnyReady(q)
  {
    if q[0].ready then 0 else 1 + FirstReady(q[1..])
  }

  lemma {:induction false} FirstReadyIs(q: seq<RunEntry>)
    requires AnyReady(q)
    ensures FirstReady(q) < |q| && q[FirstReady(q)].ready
    ensures forall i :: 0 <= i < |q| && q[i].ready ==> FirstReady(q) <= i
  {
    if !q[0].ready {
      var k :| 0 <= k < |q| && q[k].ready;
      assert q[1..][k - 1].ready;
      FirstReadyIs(q[1..]);
      forall i | 0 <= i < |q| && q[i].ready ensures FirstReady(q) <= i {
        assert q[1..][i - 1].ready;
      }
    }
  }

  function Skipped(q: seq<RunEntry>, utils: map<Pid, int>, average: int): seq<RunEntry>
    requires q != []
  {
    q[1..] + [RunEntry(q[0].pid, false, false, Grow(q[0].budget, Budget(q, utils, average, q[0].pid)))]
  }

  lemma SkippingNearsReady(q: seq<RunEntry>, utils: map<Pid, int>, average: int)
    requires AnyReady(q) && !q[0].ready
    ensures AnyReady(Skipped(q, utils, average))
    ensures FirstReady(Skipped(q, utils, average)) < FirstReady(q)
  {
    var s := Skipped(q, utils, average);
    FirstReadyIs(q);
    assert s[FirstReady(q) - 1].ready;
    FirstReadyIs(s);
  }

  /** Processes that are not ready pass their turn, keep their budget and get a share on top. */
  function SkipToReady(q: seq<RunEntry>, utils: map<Pid, int>, average: int): seq<RunEntry>
    requires AnyReady(q)
    decreases FirstReady(q)
  {
    if q[0].ready then q else
      SkippingNearsReady(q, utils, average);
      SkipToReady(Skipped(q, utils, average), utils, average)
  }

  /** The process at the front gives up its turn and saves the rest of its time slice. */
  function Yielded(q: seq<RunEntry>, sliceEnd: int, now: int): seq<RunEntry>
    requires q != []
  {
    q[1..] + [RunEntry(q[0].pid, q[0].ready, false, if sliceEnd > now then sliceEnd - now else 0)]
  }

  function MarkedRunning(q: seq<RunEntry>, pid: Pid): seq<RunEntry> {
    seq(|q|, i requires 0 <= i < |q| => q[i].(running := q[i].pid == pid))
  }

  lemma {:induction false} SkipEndsReady(q: seq<RunEntry>, utils: map<Pid, int>, average: int)
    requires AnyReady(q)
    ensures var s := SkipToReady(q, utils, average); |s| == |q| && s[0].ready
    decreases FirstReady(q)
  {
    if !q[0].ready {
      SkippingNearsReady(q, utils, average);
      SkipEndsReady(Skipped(q, utils, average), utils, average);
    }
  }

  datatype Turn = Stay | Switch(queue: seq<RunEntry>, slice: int)

  /** What a round decides once the run queue is up to date: to let things be, or to give the
      front of a rotated queue a time slice. */
  function Decide(q: seq<RunEntry>, utils: map<Pid, int>, average: int, sliceEnd: int, now: int): Turn {
    if q == [] || !AnyReady(q) then Stay
    else if q[0].running && sliceEnd > now && q[0].ready then Stay
    else
      var yielded := if q[0].running then Yielded(q, sliceEnd, now) else q;
      YieldKeepsReady(q, sliceEnd, now);
      SkipEndsReady(yielded, utils, average);
      var s := SkipToReady(yielded, utils, average);
      Switch(s, Grow(s[0].budget, Budget(s, utils, average, s[0].pid)))
  }

  lemma YieldKeepsReady(q: seq<RunEntry>, sliceEnd: int, now: int)
    requires AnyReady(q)
    ensures AnyReady(Yielded(q, sliceEnd, now))
  {
    var k :| 0 <= k < |q| && q[k].ready;
    var y := Yielded(q, sliceEnd, now);
    assert y[if k == 0 then |q| - 1 else k - 1].ready;
  }

  /** The run queue a round works on. */
  function Refreshed(q: seq<RunEntry>, m: Mirror, order: seq<Pid>): seq<RunEntry> {
    Joined(Purged(q, m), m, order)
  }

  function KnownUtils(utils: map<Pid, int>, m: Mirror): map<Pid, int> {
    map p | p in utils && p in m.procs :: utils[p]
  }

  /** Of the processes in `pids` only `pid` runs. */
  function Exclusive(xqs: map<Handle, XQueueStatus>, pids: set<Pid>, pid: Pid): map<Handle, XQueueStatus> {
    map h | h in xqs :: if xqs[h].pid in pids then xqs[h].(suspended := xqs[h].pid != pid) else xqs[h]
  }

  lemma PidIn(q: seq<RunEntry>, i: nat)
    requires i < |q|
    ensures q[i].pid in Pids(q)
  {
  }

  lemma MarkingKeepsPids(q: seq<RunEntry>, pid: Pid)
    ensures Pids(MarkedRunning(q, pid)) == Pids(q)
    ensures PidsDistinct(q) ==> PidsDistinct(MarkedRunning(q, pid))
  {
    assert forall i :: 0 <= i < |q| ==> MarkedRunning(q, pid)[i].pid == q[i].pid;
  }

  lemma StartSwitch(m: Mirror, q: seq<RunEntry>, pid: Pid)
    requires MirrorOk(m)
    ensures m == Rebuilt(m, Exclusive(m.xqs, Pids(q[..0]), pid))
  {
    hide MirrorOk;
    RebuiltIsOnly(m, m);
    assert Exclusive(m.xqs, {}, pid) == m.xqs;
    assert Pids(q[..0]) == {};
  }

  /** Flagging the queues of one more process is one more step towards exclusivity. */
  lemma FlagOneProcess(m: Mirror, n: Mirror, done: set<Pid>, p: Pid, pid: Pid)
    requires MirrorOk(n) && p in n.procs && p !in done && n.xqs == Exclusive(m.xqs, done, pid)
    ensures Exclusive(m.xqs, done + {p}, pid)
            == if p == pid then Flagged(n.xqs, n.procs[p].parked, false) else Flagged(n.xqs, n.procs[p].running, true)
  {
    var after := if p == pid then Flagged(n.xqs, n.procs[p].parked, false) else Flagged(n.xqs, n.procs[p].running, true);
    forall h | h in m.xqs ensures after[h] == Exclusive(m.xqs, done + {p}, pid)[h] {
      assert h in n.procs[p].parked <==> n.xqs[h].pid == p && n.xqs[h].suspended;
      assert h in n.procs[p].running <==> n.xqs[h].pid == p && !n.xqs[h].suspended;
    }
  }

  /** Dealing with one more process of the run queue. */
  lemma SwitchStep(m: Mirror, n: Mirror, q: seq<RunEntry>, i: nat, pid: Pid)
    requires i < |q| && q[i].pid in m.procs && PidsDistinct(q) && MirrorOk(n)
    requires n == Rebuilt(m, Exclusive(m.xqs, Pids(q[..i]), pid))
    ensures var p := q[i].pid;
            && p in n.procs
            && Rebuilt(n, if p == pid then Flagged(n.xqs, n.procs[p].parked, false) else Flagged(n.xqs, n.procs[p].running, true))
               == Rebuilt(m, Exclusive(m.xqs, Pids(q[..i + 1]), pid))
  {
    var p := q[i].pid;
    assert Pids(q[..i + 1]) == Pids(q[..i]) + {p};
    assert p !in Pids(q[..i]);
    hide MirrorOk, Exclusive, Flagged, Pids;
    FlagOneProcess(m, n, Pids(q[..i]), p, pid);
    RebuiltTwice(m, n.xqs, Exclusive(m.xqs, Pids(q[..i + 1]), pid));
  }

  /** The utilizations while those in `left` are still to be looked at. */
  function Remembered(utils: map<Pid, int>, m: Mirror, left: seq<Pid>): map<Pid, int> {
    map p | p in utils && (p in left || p in m.procs) :: utils[p]
  }

  lemma ForgetsLast(utils: map<Pid, int>, m: Mirror, order: seq<Pid>)
    requires Enumerates(order, utils.Keys)
    ensures Remembered(utils, m, order[0..]) == utils && Remembered(utils, m, order[|order|..]) == KnownUtils(utils, m)
  {
    assert order[0..] == order && order[|order|..] == [];
  }

  lemma ForgetOne(utils: map<Pid, int>, m: Mirror, order: seq<Pid>, i: nat)
    requires Enumerates(order, utils.Keys) && i < |order|
    ensures Remembered(utils, m, order[i + 1..])
            == if order[i] in m.procs then Remembered(utils, m, order[i..]) else Remembered(utils, m, order[i..]) - {order[i]}
  {
    assert order[i..] == [order[i]] + order[i + 1..];
    assert forall p :: p in order[i..] <==> p == order[i] || p in order[i + 1..];
    assert order[i] !in order[i + 1..];
  }

  class ProcessUtilizationPartitionPolicy {
    const scheduler: LocalScheduler
    var runQueue: seq<RunEntry>
    var utils: map<Pid, int>
    var pidInQueue: set<Pid>
    var timesliceEnd: int
    var timesliceAverage: int

    ghost predicate Valid()
      reads this
    {
      pidInQueue == Pids(runQueue) && PidsDistinct(runQueue)
    }

    constructor (scheduler: LocalScheduler)
      ensures this.scheduler == scheduler && runQueue == [] && utils == map[]
      ensures timesliceEnd == DISTANT_PAST && timesliceAverage == TIMESLICE_DEFAULT && Valid()
    {
      this.scheduler, runQueue, utils, pidInQueue := scheduler, [], map[], {};
      timesliceEnd, timesliceAverage := DISTANT_PAST, TIMESLICE_DEFAULT;
    }

    method RecvUtilizationHint(pid: Pid, util: int)
      modifies `utils
      ensures utils == if pid != 0 && UTILIZATION_MIN <= util <= UTILIZATION_MAX then old(utils)[pid := util] else old(utils)
    {
      if pid == 0 { return; }
      if util < UTILIZATION_MIN || util > UTILIZATION_MAX { return; }
      utils := utils[pid := util];
    }

    method RecvTimesliceHint(timeslice: int)
      modifies `timesliceAverage
      ensures timesliceAverage == if TIMESLICE_MIN <= timeslice <= TIMESLICE_MAX then timeslice else old(timesliceAverage)
    {
      if timeslice < TIMESLICE_MIN || timeslice > TIMESLICE_MAX { return; }
      timesliceAverage := timeslice;
    }

    method GetBudgetUs(pid: Pid) returns (share: int)
      ensures share == Budget(runQueue, utils, timesliceAverage, pid)
    {
      var total, i := 0, 0;
      while i < |runQueue|
        invariant i <= |runQueue| && total == TotalUtil(runQueue[..i], utils)
      {
        assert runQueue[..i + 1][..i] == runQueue[..i];
        total := total + if runQueue[i].pid in utils then utils[runQueue[i].pid] else UTILIZATION_DEFAULT;
        i := i + 1;
      }
      assert runQueue[..i] == runQueue;
      if total == 0 { return 0; }
      var own := if pid in utils then utils[pid] else UTILIZATION_DEFAULT;
      share := timesliceAverage * |runQueue| * own / total;
    }

    /** Whether some queue of the set is known to be ready. */
    method SomeReady(queues: set<Handle>) returns (ready: bool)
      ensures ready <==> exists h :: h in queues && h in scheduler.xqs && scheduler.xqs[h].ready
    {
      var rest := queues;
      while rest != {}
        invariant rest <= queues
        invariant forall h :: h in queues - rest ==> !(h in scheduler.xqs && scheduler.xqs[h].ready)
      {
        var h: Handle :| h in rest;
        if h in scheduler.xqs && scheduler.xqs[h].ready { return true; }
        rest := rest - {h};
      }
      ready := false;
    }

    method IsProcessReady(pid: Pid) returns (ready: bool)
      requires pid in scheduler.procs
      ensures ready == ProcessReady(scheduler.View(), pid)
    {
      ready := SomeReady(scheduler.procs[pid].running);
      if ready { return; }
      ready := SomeReady(scheduler.procs[pid].parked);
    }

    method ForgetDestroyed(order: seq<Pid>)
      requires Enumerates(order, utils.Keys)
      modifies `utils
      ensures utils == KnownUtils(old(utils), scheduler.View())
    {
      ghost var known, m := utils, scheduler.View();
      var i := 0;
      ForgetsLast(known, m, order);
      while i < |order|
        invariant i <= |order| && utils == Remembered(known, m, order[i..])
      {
        ForgetOne(known, m, order, i);
        if order[i] !in scheduler.procs { utils := utils - {order[i]}; }
        i := i + 1;
      }
    }

    /** Removes the entries of processes without queues, and learns of the others whether they are ready. */
    method PurgeRunQueue() returns (anyReady: bool)
      requires Valid()
      modifies `runQueue, `pidInQueue
      ensures Valid() && runQueue == Purged(old(runQueue), scheduler.View())
      ensures anyReady == AnyReady(runQueue)
    {
      hide Purged, ProcessReady, Pids, PidsDistinct;
      anyReady := false;
      ghost var q, m := runQueue, scheduler.View();
      var i := 0;
      ghost var k := 0;
      StartPurge(q, m);
      while i < |runQueue|
        invariant i <= |runQueue| && k <= |q| && |runQueue| - i == |q| - k && Valid()
        invariant runQueue[..i] == Purged(q[..k], m) && runQueue[i..] == q[k..]
        invariant anyReady == AnyReady(runQueue[..i])
        decreases |q| - k
      {
        var e := runQueue[i];
        assert e == q[k] && q[k + 1..] == runQueue[i + 1..];
        PurgeStep(q, m, k);
        if e.pid !in scheduler.procs
           || (scheduler.procs[e.pid].running == {} && scheduler.procs[e.pid].parked == {}) {
          RemoveEntry(runQueue, i);
          runQueue := runQueue[..i] + runQueue[i + 1..];
          pidInQueue := pidInQueue - {e.pid};
        } else {
          var ready := IsProcessReady(e.pid);
          MarkEntry(runQueue, i, ready);
          AnyReadyAppend(runQueue[..i], e.(ready := ready));
          runQueue := runQueue[i := e.(ready := ready)];
          assert runQueue[..i + 1] == runQueue[..i] + [e.(ready := ready)];
          anyReady := anyReady || ready;
          i := i + 1;
        }
        k := k + 1;
      }
      assert q[..k] == q && runQueue[..i] == runQueue;
    }

    /** Adds an entry for every process that has queues and none yet. */
    method JoinNewProcesses(order: seq<Pid>, anyBefore: bool) returns (anyReady: bool)
      requires Valid() && anyBefore == AnyReady(runQueue) && Enumerates(order, scheduler.procs.Keys)
      modifies `runQueue, `pidInQueue
      ensures Valid() && runQueue == Joined(old(runQueue), scheduler.View(), order) && anyReady == AnyReady(runQueue)
    {
      hide ProcessReady, PidsDistinct, Pids, AnyReady;
      anyReady := anyBefore;
      var i := 0;
      while i < |order|
        invariant i <= |order| && Valid() && anyReady == AnyReady(runQueue)
        invariant runQueue == Joined(old(runQueue), scheduler.View(), order[..i])
      {
        var pid := order[i];
        WalkedApart(order, scheduler.procs.Keys, i);
        assert order[..i + 1][..i] == order[..i];
        i := i + 1;
        var p := scheduler.procs[pid];
        if (p.running == {} && p.parked == {}) || pid in pidInQueue { continue; }
        var ready := IsProcessReady(pid);
        var e := RunEntry(pid, ready, false, 0);
        AppendEntry(runQueue, e);
        AnyReadyAppend(runQueue, e);
        anyReady := anyReady || ready;
        runQueue := runQueue + [e];
        pidInQueue := pidInQueue + {pid};
      }
      assert order[..i] == order;
    }

    /** Moves processes that are not ready to the end until a ready one is at the front. */
    method SkipUnready()
      requires AnyReady(runQueue) && Valid()
      modifies `runQueue
      ensures Valid() && runQueue == SkipToReady(old(runQueue), utils, timesliceAverage) && runQueue != [] && runQueue[0].ready
    {
      hide AnyReady, Budget, FirstReady, Pids, PidsDistinct;
      ghost var goal := SkipToReady(runQueue, utils, timesliceAverage);
      ReadyIsNotEmpty(runQueue);
      while !runQueue[0].ready
        invariant Valid() && AnyReady(runQueue) && runQueue != [] && SkipToReady(runQueue, utils, timesliceAverage) == goal
        decreases FirstReady(runQueue)
      {
        SkippingNearsReady(runQueue, utils, timesliceAverage);
        RotateEntry(runQueue, Skipped(runQueue, utils, timesliceAverage)[|runQueue| - 1]);
        var pid, budget := runQueue[0].pid, runQueue[0].budget;
        var share := GetBudgetUs(pid);
        if budget > share { budget := share + (budget - share) * 9 / 10; }
        budget := budget + share;
        runQueue := runQueue[1..] + [RunEntry(pid, false, false, budget)];
      }
    }

    /** One round. It does nothing while nobody is ready or the process at the front still has
        time and work; otherwise the front process yields, those that are not ready pass their
        turn, and the first ready one gets its time slice and runs alone. */
    method Sched(procOrder: seq<Pid>, utilOrder: seq<Pid>, now: int) returns (timer: Option<int>)
      requires Valid() && MirrorOk(scheduler.View())
      requires Enumerates(procOrder, scheduler.procs.Keys) && Enumerates(utilOrder, utils.Keys)
      modifies `runQueue, `utils, `pidInQueue, `timesliceEnd, scheduler
      ensures Valid() && MirrorOk(scheduler.View()) && utils == KnownUtils(old(utils), old(scheduler.View()))
      ensures var m := old(scheduler.View());
              var q := Refreshed(old(runQueue), m, procOrder);
              match Decide(q, utils, timesliceAverage, old(timesliceEnd), now)
              case Stay => runQueue == q && timesliceEnd == old(timesliceEnd) && scheduler.View() == m && timer == None
              case Switch(s, slice) =>
                && s != [] && runQueue == MarkedRunning(s, s[0].pid)
                && timesliceEnd == now + slice && timer == Some(timesliceEnd)
                && scheduler.View() == Rebuilt(m, Exclusive(m.xqs, Pids(s), s[0].pid))
    {
      hide MirrorOk, Rebuilt, Exclusive, PidsDistinct, Pids, Enumerates, AnyReady, FirstReady, Budget, SkipToReady, Purged, Joined, KnownUtils, MarkedRunning;
      ghost var m := scheduler.View();
      timer := None;
      ForgetDestroyed(utilOrder);
      var anyReady := PurgeRunQueue();
      anyReady := JoinNewProcesses(procOrder, anyReady);
      ghost var q := runQueue;
      RefreshedAreKnown(old(runQueue), m, procOrder);
      if runQueue == [] || !anyReady { return; }
      YieldKeepsReady(runQueue, timesliceEnd, now);
      if runQueue[0].running {
        var remains := timesliceEnd > now;
        var front := runQueue[0];
        if remains && front.ready { return; }
        var saved := if remains then timesliceEnd - now else 0;
        RotateEntry(runQueue, RunEntry(front.pid, front.ready, false, saved));
        runQueue := runQueue[1..] + [RunEntry(front.pid, front.ready, false, saved)];
      }
      assert runQueue == if q[0].running then Yielded(q, timesliceEnd, now) else q;
      SkipEndsReady(runQueue, utils, timesliceAverage);
      SkipKeepsPids(runQueue, utils, timesliceAverage);
      SkipUnready();
      var pid, budget := runQueue[0].pid, runQueue[0].budget;
      var share := GetBudgetUs(pid);
      if budget > share { budget := share + (budget - share) * 9 / 10; }
      budget := budget + share;
      timesliceEnd := now + budget;
      timer := Some(timesliceEnd);
      SwitchProcess(pid);
    }

    /** Lets the queues of one process run and suspends those of every other one in the run queue. */
    method SwitchProcess(pid: Pid)
      requires Valid() && MirrorOk(scheduler.View()) && Pids(runQueue) <= scheduler.procs.Keys
      modifies `runQueue, scheduler
      ensures Valid() && runQueue == MarkedRunning(old(runQueue), pid)
      ensures MirrorOk(scheduler.View())
      ensures scheduler.View() == Rebuilt(old(scheduler.View()), Exclusive(old(scheduler.xqs), Pids(old(runQueue)), pid))
    {
      hide MirrorOk, Rebuilt, Flagged, Exclusive, PidsDistinct, Pids;
      ghost var m, q := scheduler.View(), runQueue;
      StartSwitch(m, q, pid);
      var i := 0;
      while i < |runQueue|
        invariant i <= |runQueue| == |q| && MirrorOk(scheduler.View())
        invariant scheduler.View() == Rebuilt(m, Exclusive(m.xqs, Pids(q[..i]), pid))
        invariant forall j :: 0 <= j < |q| ==> runQueue[j] == if j < i then q[j].(running := q[j].pid == pid) else q[j]
      {
        var e := runQueue[i];
        PidIn(q, i);
        SwitchStep(m, scheduler.View(), q, i, pid);
        if e.pid == pid {
          SetEach(scheduler, scheduler.procs[e.pid].parked, false);
          runQueue := runQueue[i := e.(running := true)];
        } else {
          SetEach(scheduler, scheduler.procs[e.pid].running, true);
          runQueue := runQueue[i := e.(running := false)];
        }
        i := i + 1;
      }
      assert q[..i] == q;
      assert runQueue == MarkedRunning(q, pid);
      MarkingKeepsPids(q, pid);
    }
  }

  /** Moving the front entry to the end changes neither the processes nor that each has one entry. */
  lemma RotateEntry(q: seq<RunEntry>, e: RunEntry)
    requires q != [] && e.pid == q[0].pid
    ensures Pids(q[1..] + [e]) == Pids(q)
    ensures PidsDistinct(q) ==> PidsDistinct(q[1..] + [e])
  {
    var r := q[1..] + [e];
    assert r[|q| - 1] == e;
    forall p ensures p in Pids(r) <==> p in Pids(q) {
      if p in Pids(q) {
        var j :| 0 <= j < |q| && q[j].pid == p;
        assert r[if j == 0 then |q| - 1 else j - 1].pid == p;
      }
      if p in Pids(r) {
        var j :| 0 <= j < |r| && r[j].pid == p;
        assert q[if j == |q| - 1 then 0 else j + 1].pid == p;
      }
    }
  }

  lemma {:induction false} SkipKeepsPids(q: seq<RunEntry>, utils: map<Pid, int>, average: int)
    requires AnyReady(q)
    ensures Pids(SkipToReady(q, utils, average)) == Pids(q)
    decreases FirstReady(q)
  {
    if !q[0].ready {
      SkippingNearsReady(q, utils, average);
      RotateEntry(q, Skipped(q, utils, average)[|q| - 1]);
      SkipKeepsPids(Skipped(q, utils, average), utils, average);
    }
  }

  lemma {:induction false} PurgedAreAlive(q: seq<RunEntry>, m: Mirror)
    ensures forall i :: 0 <= i < |Purged(q, m)| ==> Alive(m, Purged(q, m)[i].pid)
  {
    if q != [] {
      PurgedAreAlive(q[..|q| - 1], m);
    }
  }

  lemma {:induction false} JoinedAreAlive(q: seq<RunEntry>, m: Mirror, walked: seq<Pid>)
    requires forall i :: 0 <= i < |q| ==> Alive(m, q[i].pid)
    ensures forall i :: 0 <= i < |Joined(q, m, walked)| ==> Alive(m, Joined(q, m, walked)[i].pid)
  {
    if walked != [] {
      JoinedAreAlive(q, m, walked[..|walked| - 1]);
    }
  }

  /** The refreshed run queue only has processes that have queues. */
  lemma RefreshedAreKnown(q: seq<RunEntry>, m: Mirror, order: seq<Pid>)
    ensures forall i :: 0 <= i < |Refreshed(q, m, order)| ==> Alive(m, Refreshed(q, m, order)[i].pid)
    ensures Pids(Refreshed(q, m, order)) <= m.procs.Keys
  {
    PurgedAreAlive(q, m);
    JoinedAreAlive(Purged(q, m), m, order);
  }

  lemma ReadyIsNotEmpty(q: seq<RunEntry>)
    requires AnyReady(q)
    ensures q != []
  {
  }

  lemma StartPurge(q: seq<RunEntry>, m: Mirror)
    ensures Purged(q[..0], m) == [] && q[0..] == q
  {
  }

  lemma PurgeStep(q: seq<RunEntry>, m: Mirror, k: nat)
    requires k < |q|
    ensures Purged(q[..k + 1], m)
            == Purged(q[..k], m) + if Alive(m, q[k].pid) then [q[k].(ready := ProcessReady(m, q[k].pid))] else []
  {
    assert q[..k + 1][..k] == q[..k];
  }

  lemma RemoveEntry(q: seq<RunEntry>, i: nat)
    requires PidsDistinct(q) && i < |q|
    ensures PidsDistinct(q[..i] + q[i + 1..]) && Pids(q[..i] + q[i + 1..]) == Pids(q) - {q[i].pid}
  {
    var r := q[..i] + q[i + 1..];
    forall p ensures p in Pids(r) <==> p in Pids(q) - {q[i].pid} {
      if p in Pids(r) {
        var j :| 0 <= j < |r| && r[j].pid == p;
        assert q[if j < i then j else j + 1].pid == p;
      }
      if p in Pids(q) - {q[i].pid} {
        var j :| 0 <= j < |q| && q[j].pid == p;
        assert r[if j < i then j else j - 1].pid == p;
      }
    }
  }

  lemma MarkEntry(q: seq<RunEntry>, i: nat, ready: bool)
    requires PidsDistinct(q) && i < |q|
    ensures PidsDistinct(q[i := q[i].(ready := ready)]) && Pids(q[i := q[i].(ready := ready)]) == Pids(q)
  {
    var r := q[i := q[i].(ready := ready)];
    assert forall j :: 0 <= j < |q| ==> r[j].pid == q[j].pid;
  }

  lemma AppendEntry(q: seq<RunEntry>, e: RunEntry)
    requires PidsDistinct(q) && e.pid !in Pids(q)
    ensures PidsDistinct(q + [e]) && Pids(q + [e]) == Pids(q) + {e.pid}
  {
    var r := q + [e];
    assert r[|q|] == e;
    forall p ensures p in Pids(r) <==> p in Pids(q) + {e.pid} {
      if p in Pids(q) {
        var j :| 0 <= j < |q| && q[j].pid == p;
        assert r[j].pid == p;
      }
    }
  }

  lemma AnyReadyAppend(q: seq<RunEntry>, e: RunEntry)
    ensures AnyReady(q + [e]) <==> AnyReady(q) || e.ready
  {
    var r := q + [e];
    assert r[|q|] == e;
    if AnyReady(q) {
      var j :| 0 <= j < |q| && q[j].ready;
      assert r[j].ready;
    }
  }
}
