/** What the process utilization policy guarantees over whole runs. */
module PupTheorems {
  import opened Options
  import opened Mirror
  import opened Policies
  import opened Walks
  import opened Pup

  /** The scheduler together with the policy; `last` is when the last round was. */
  datatype System = System(m: Mirror, q: seq<RunEntry>, utils: map<Pid, int>, average: int, sliceEnd: int, last: int)

  datatype Input =
    | Take(event: Event, now: int)
    | UtilizationHint(pid: Pid, util: int)
    | TimesliceHint(timeslice: int)
    | Round(order: seq<Pid>, now: int)

  function TurnOf(s: System, order: seq<Pid>, now: int): Turn {
    Decide(Refreshed(s.q, s.m, order), KnownUtils(s.utils, s.m), s.average, s.sliceEnd, now)
  }

  function AfterRound(s: System, order: seq<Pid>, now: int): System {
    var s1 := s.(q := Refreshed(s.q, s.m, order), utils := KnownUtils(s.utils, s.m), last := now);
    match TurnOf(s, order, now)
    case Stay => s1
    case Switch(q, slice) =>
      if q == [] then s1
      else s1.(q := MarkedRunning(q, q[0].pid), sliceEnd := now + slice,
               m := Rebuilt(s.m, Exclusive(s.m.xqs, Pids(q), q[0].pid)))
  }

  ghost function StepOf(s: System, input: Input): Option<System> {
    match input
    case Take(e, now) => if Accepts(s.m, e) then Some(s.(m := Heard(s.m, e, now))) else None
    case UtilizationHint(pid, util) =>
      Some(if pid != 0 && UTILIZATION_MIN <= util <= UTILIZATION_MAX then s.(utils := s.utils[pid := util]) else s)
    case TimesliceHint(timeslice) =>
      Some(if TIMESLICE_MIN <= timeslice <= TIMESLICE_MAX then s.(average := timeslice) else s)
    case Round(order, now) =>
      if Enumerates(order, s.m.procs.Keys) && now >= s.last then Some(AfterRound(s, order, now)) else None
  }

  /** The system after some inputs; nothing if the scheduler stopped on the way, if the clock went
      back, or if a round was given an order in which its table cannot be walked. */
  ghost function SystemAfter(inputs: seq<Input>): Option<System> {
    if inputs == [] then Some(System(Empty(), [], map[], TIMESLICE_DEFAULT, DISTANT_PAST, DISTANT_PAST)) else
      var before := SystemAfter(inputs[..|inputs| - 1]);
      if before.None? then None else StepOf(before.value, inputs[|inputs| - 1])
  }

  predicate OnlyFrontRuns(q: seq<RunEntry>) {
    forall i :: 0 < i < |q| ==> !q[i].running
  }

  predicate UtilsOk(utils: map<Pid, int>) {
    forall p :: p in utils ==> UTILIZATION_MIN <= utils[p] <= UTILIZATION_MAX
  }

  ghost predicate SystemOk(s: System) {
    && MirrorOk(s.m) && PidsDistinct(s.q) && OnlyFrontRuns(s.q)
    && UtilsOk(s.utils) && TIMESLICE_MIN <= s.average <= TIMESLICE_MAX
  }

  /** Where the entry at `i` ends up when the queue is purged. */
  function Kept(q: seq<RunEntry>, m: Mirror, i: nat): nat
    requires i <= |q|
  {
    |Purged(q[..i], m)|
  }

  lemma {:induction false} PurgedPosition(q: seq<RunEntry>, m: Mirror, i: nat)
    requires i < |q| && Alive(m, q[i].pid)
    ensures Kept(q, m, i) < |Purged(q, m)| && Kept(q, m, i) <= i
    ensures Purged(q, m)[Kept(q, m, i)] == q[i].(ready := ProcessReady(m, q[i].pid))
  {
    hide Alive, ProcessReady;
    var rest := q[..|q| - 1];
    if i == |q| - 1 {
      PurgedShrinks(rest, m);
    } else {
      assert rest[..i] == q[..i];
      PurgedPosition(rest, m, i);
    }
  }

  lemma {:induction false} PurgedShrinks(q: seq<RunEntry>, m: Mirror)
    ensures |Purged(q, m)| <= |q|
  {
    hide Alive, ProcessReady;
    if q != [] { PurgedShrinks(q[..|q| - 1], m); }
  }

  lemma {:induction false} PurgedOrigin(q: seq<RunEntry>, m: Mirror, a: nat) returns (i: nat)
    requires a < |Purged(q, m)|
    ensures i < |q| && Alive(m, q[i].pid) && Kept(q, m, i) == a
    ensures Purged(q, m)[a] == q[i].(ready := ProcessReady(m, q[i].pid))
  {
    hide Alive, ProcessReady;
    var rest := q[..|q| - 1];
    if a < |Purged(rest, m)| {
      i := PurgedOrigin(rest, m, a);
      assert rest[..i] == q[..i];
    } else {
      i := |q| - 1;
    }
  }

  lemma {:induction false} KeptIsMonotone(q: seq<RunEntry>, m: Mirror, i: nat, j: nat)
    requires i <= j <= |q|
    ensures Kept(q, m, i) <= Kept(q, m, j)
    decreases j
  {
    hide Alive, ProcessReady;
    if i < j {
      assert q[..j][..j - 1] == q[..j - 1];
      KeptIsMonotone(q, m, i, j - 1);
    }
  }

  /** Joining only appends entries of other processes, none of them running. */
  lemma {:induction false} JoinedExtends(q: seq<RunEntry>, m: Mirror, walked: seq<Pid>)
    requires PidsDistinct(q)
    ensures var j := Joined(q, m, walked);
            && |q| <= |j| && j[..|q|] == q && PidsDistinct(j)
            && forall i :: |q| <= i < |j| ==>
                 j[i] == RunEntry(j[i].pid, ProcessReady(m, j[i].pid), false, 0) && j[i].pid !in Pids(q) && j[i].pid in walked
    ensures forall p :: p in walked && Alive(m, p) ==> p in Pids(Joined(q, m, walked))
  {
    hide Alive, ProcessReady;
    if walked != [] {
      var rest, pid := walked[..|walked| - 1], walked[|walked| - 1];
      assert walked == rest + [pid];
      JoinedExtends(q, m, rest);
      var before := Joined(q, m, rest);
      if Alive(m, pid) && pid !in Pids(before) {
        AppendEntry(before, RunEntry(pid, ProcessReady(m, pid), false, 0));
        forall p | p in Pids(q) ensures p in Pids(before) {
          var i :| 0 <= i < |q| && q[i].pid == p;
          assert before[i] == q[i];
        }
      }
    }
  }

  lemma PurgedKeepsShape(q: seq<RunEntry>, m: Mirror)
    requires PidsDistinct(q)
    ensures PidsDistinct(Purged(q, m))
    ensures OnlyFrontRuns(q) ==> OnlyFrontRuns(Purged(q, m))
  {
    hide Purged, Alive, ProcessReady, Kept;
    var r := Purged(q, m);
    forall a, b | 0 <= a < b < |r|
      ensures r[a].pid != r[b].pid && (OnlyFrontRuns(q) ==> !r[b].running)
    {
      var i := PurgedOrigin(q, m, a);
      var j := PurgedOrigin(q, m, b);
      if j <= i { KeptIsMonotone(q, m, j, i); }
    }
    if OnlyFrontRuns(q) {
      forall b | 0 < b < |r| ensures !r[b].running {
        assert r[0].pid != r[b].pid;
      }
    }
  }

  /** After refreshing, each process has one entry, nobody but the front runs, and every entry
      says whether its process is ready; the processes are exactly those that have queues. */
  lemma RefreshedKeepsShape(q: seq<RunEntry>, m: Mirror, order: seq<Pid>)
    requires PidsDistinct(q) && OnlyFrontRuns(q) && Enumerates(order, m.procs.Keys)
    ensures var r := Refreshed(q, m, order);
            && PidsDistinct(r) && OnlyFrontRuns(r)
            && (forall i :: 0 <= i < |r| ==> r[i].ready == ProcessReady(m, r[i].pid) && Alive(m, r[i].pid))
            && (forall p :: Alive(m, p) ==> p in Pids(r))
  {
    RefreshedAreKnown(q, m, order);
    hide Purged, ProcessReady, Kept, Joined;
    var p, r := Purged(q, m), Refreshed(q, m, order);
    PurgedKeepsShape(q, m);
    JoinedExtends(p, m, order);
    forall i | 0 <= i < |r| ensures r[i].ready == ProcessReady(m, r[i].pid) && (i > 0 ==> !r[i].running) {
      if i < |p| {
        var k := PurgedOrigin(q, m, i);
        assert r[i] == r[..|p|][i];
      }
    }
  }

  predicate NoneRuns(q: seq<RunEntry>) {
    forall i :: 0 <= i < |q| ==> !q[i].running
  }

  lemma {:induction false} SkipKeepsShape(q: seq<RunEntry>, utils: map<Pid, int>, average: int)
    requires AnyReady(q) && PidsDistinct(q) && NoneRuns(q)
    ensures var s := SkipToReady(q, utils, average);
            PidsDistinct(s) && NoneRuns(s) && |s| == |q| && Pids(s) == Pids(q) && s[0].ready
    decreases FirstReady(q)
  {
    if !q[0].ready {
      hide Pids, PidsDistinct, Budget, FirstReady, AnyReady;
      SkippingNearsReady(q, utils, average);
      RotateEntry(q, Skipped(q, utils, average)[|q| - 1]);
      SkipKeepsShape(Skipped(q, utils, average), utils, average);
    }
  }

  /** The queue before the skipping: the front has yielded if it was running. */
  function Offered(q: seq<RunEntry>, sliceEnd: int, now: int): seq<RunEntry>
    requires q != []
  {
    if q[0].running then Yielded(q, sliceEnd, now) else q
  }

  lemma OfferedKeepsShape(q: seq<RunEntry>, sliceEnd: int, now: int)
    requires AnyReady(q) && PidsDistinct(q) && OnlyFrontRuns(q)
    ensures var o := Offered(q, sliceEnd, now);
            AnyReady(o) && PidsDistinct(o) && NoneRuns(o) && Pids(o) == Pids(q) && |o| == |q|
  {
    YieldKeepsReady(q, sliceEnd, now);
    RotateEntry(q, Yielded(q, sliceEnd, now)[|q| - 1]);
    hide Pids;
  }

  /** A switch takes the queue of all processes, rotated so that a ready one is at the front. */
  lemma SwitchShape(q: seq<RunEntry>, utils: map<Pid, int>, average: int, sliceEnd: int, now: int)
    requires PidsDistinct(q) && OnlyFrontRuns(q)
    requires Decide(q, utils, average, sliceEnd, now).Switch?
    ensures AnyReady(q) && AnyReady(Offered(q, sliceEnd, now))
    ensures var s := Decide(q, utils, average, sliceEnd, now).queue;
            && s == SkipToReady(Offered(q, sliceEnd, now), utils, average)
            && s != [] && PidsDistinct(s) && NoneRuns(s) && Pids(s) == Pids(q) && s[0].ready
            && PidsDistinct(MarkedRunning(s, s[0].pid)) && OnlyFrontRuns(MarkedRunning(s, s[0].pid))
            && Pids(MarkedRunning(s, s[0].pid)) == Pids(q) && MarkedRunning(s, s[0].pid)[0].running
  {
    OfferedKeepsShape(q, sliceEnd, now);
    SkipKeepsShape(Offered(q, sliceEnd, now), utils, average);
    var s := Decide(q, utils, average, sliceEnd, now).queue;
    MarkingKeepsPids(s, s[0].pid);
  }

  lemma RoundKeepsMirror(s: System, order: seq<Pid>, now: int)
    requires MirrorOk(s.m)
    ensures MirrorOk(AfterRound(s, order, now).m) && AfterRound(s, order, now).m.procs.Keys == s.m.procs.Keys
  {
    var turn := TurnOf(s, order, now);
    if turn.Switch? && turn.queue != [] {
      RebuiltIsOk(s.m, Exclusive(s.m.xqs, Pids(turn.queue), turn.queue[0].pid));
    }
  }

  lemma RoundKeepsSystem(s: System, order: seq<Pid>, now: int)
    requires SystemOk(s) && Enumerates(order, s.m.procs.Keys)
    ensures SystemOk(AfterRound(s, order, now))
  {
    hide MirrorOk, PidsDistinct, OnlyFrontRuns, Refreshed, Decide, Enumerates, MarkedRunning, Rebuilt, Exclusive;
    RoundKeepsMirror(s, order, now);
    RefreshedKeepsShape(s.q, s.m, order);
    if TurnOf(s, order, now).Switch? {
      SwitchShape(Refreshed(s.q, s.m, order), KnownUtils(s.utils, s.m), s.average, s.sliceEnd, now);
    }
  }

  /** In every run, each process has at most one entry and only the front one can be running. */
  lemma {:induction false} RunQueueKeepsShape(inputs: seq<Input>)
    requires SystemAfter(inputs).Some?
    ensures SystemOk(SystemAfter(inputs).value)
  {
    if inputs == [] {
      assert MirrorOk(Empty()) by { RunKeepsMirror([]); }
    } else {
      RunQueueKeepsShape(inputs[..|inputs| - 1]);
      hide MirrorOk, PidsDistinct, OnlyFrontRuns, AfterRound, Heard, Enumerates;
      var s := SystemAfter(inputs[..|inputs| - 1]).value;
      match inputs[|inputs| - 1] {
        case Take(e, now) => HeardKeepsMirror(s.m, e, now);
        case UtilizationHint(pid, util) =>
        case TimesliceHint(timeslice) =>
        case Round(order, now) => RoundKeepsSystem(s, order, now);
      }
    }
  }

  /** After a switch exactly the queues of the front process are unsuspended, and it was ready. */
  lemma SwitchIsExclusive(inputs: seq<Input>, order: seq<Pid>, now: int)
    requires SystemAfter(inputs + [Round(order, now)]).Some?
    ensures SystemAfter(inputs).Some?
    ensures var s, s' := SystemAfter(inputs).value, SystemAfter(inputs + [Round(order, now)]).value;
            TurnOf(s, order, now).Switch? ==>
              && s'.q != [] && s'.q[0].running && ProcessReady(s.m, s'.q[0].pid)
              && s'.m.xqs.Keys == s.m.xqs.Keys
              && forall h :: h in s'.m.xqs ==> (s'.m.xqs[h].suspended <==> s'.m.xqs[h].pid != s'.q[0].pid)
  {
    var all := inputs + [Round(order, now)];
    assert all[..|all| - 1] == inputs;
    RunQueueKeepsShape(inputs);
    var s := SystemAfter(inputs).value;
    if TurnOf(s, order, now).Switch? {
      SwitchIsExclusiveNow(s, order, now);
    }
  }

  lemma SwitchIsExclusiveNow(s: System, order: seq<Pid>, now: int)
    requires SystemOk(s) && Enumerates(order, s.m.procs.Keys) && TurnOf(s, order, now).Switch?
    ensures var s' := AfterRound(s, order, now);
            && s'.q != [] && s'.q[0].running && ProcessReady(s.m, s'.q[0].pid)
            && s'.m.xqs.Keys == s.m.xqs.Keys
            && forall h :: h in s'.m.xqs ==> (s'.m.xqs[h].suspended <==> s'.m.xqs[h].pid != s'.q[0].pid)
  {
    hide PidsDistinct, OnlyFrontRuns, Refreshed, Decide, Enumerates, ProcessReady;
    var r := Refreshed(s.q, s.m, order);
    RefreshedKeepsShape(s.q, s.m, order);
    SwitchShape(r, KnownUtils(s.utils, s.m), s.average, s.sliceEnd, now);
    var q := TurnOf(s, order, now).queue;
    FrontIsReady(r, KnownUtils(s.utils, s.m), s.average, s.sliceEnd, now, s.m);
    forall h | h in s.m.xqs ensures s.m.xqs[h].pid in Pids(q) {
      OwnerIsAlive(s.m, h);
    }
  }

  lemma OwnerIsAlive(m: Mirror, h: Handle)
    requires MirrorOk(m) && h in m.xqs
    ensures Alive(m, m.xqs[h].pid)
  {
    var p := m.procs[m.xqs[h].pid];
    assert h in p.running || h in p.parked;
  }

  ghost predicate ReadyIsTrue(q: seq<RunEntry>, m: Mirror) {
    forall i :: 0 <= i < |q| ==> q[i].ready == ProcessReady(m, q[i].pid)
  }

  lemma {:induction false} SkipKeepsReady(q: seq<RunEntry>, utils: map<Pid, int>, average: int, m: Mirror)
    requires AnyReady(q) && ReadyIsTrue(q, m)
    ensures ReadyIsTrue(SkipToReady(q, utils, average), m)
    decreases FirstReady(q)
  {
    hide ProcessReady, Budget, AnyReady, FirstReady;
    ReadyIsNotEmpty(q);
    if !q[0].ready {
      SkippingNearsReady(q, utils, average);
      SkipKeepsReady(Skipped(q, utils, average), utils, average, m);
    }
  }

  lemma FrontIsReady(q: seq<RunEntry>, utils: map<Pid, int>, average: int, sliceEnd: int, now: int, m: Mirror)
    requires PidsDistinct(q) && OnlyFrontRuns(q) && ReadyIsTrue(q, m)
    requires Decide(q, utils, average, sliceEnd, now).Switch?
    ensures var s := Decide(q, utils, average, sliceEnd, now).queue; s != [] && ProcessReady(m, s[0].pid)
  {
    hide ProcessReady;
    SwitchShape(q, utils, average, sliceEnd, now);
    SkipKeepsReady(Offered(q, sliceEnd, now), utils, average, m);
  }
}
