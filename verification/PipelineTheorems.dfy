/** What the pipeline promises, for every reachable state and every run. */
module PipelineTheorems {
  import opened Sequences
  import opened LaunchLog
  import opened Options
  import opened Pipeline
  import opened PipelineInvariant
  import opened PipelineSteps

  ghost predicate Reachable(cfg: Config, s: System) {
    ValidConfig(cfg) && exists run :: Run(cfg, Init(), run) == Some(s)
  }

  lemma ReachableInv(cfg: Config, s: System)
    requires Reachable(cfg, s)
    ensures Inv(cfg, s)
  {
    hide Inv, Enabled, Apply, Run;
    var run :| Run(cfg, Init(), run) == Some(s);
    InitSatisfiesInv(cfg);
    RunKeepsInv(cfg, Init(), run);
  }

  lemma {:induction false} RunConcat(cfg: Config, s: System, a: seq<Label>, b: seq<Label>)
    requires Run(cfg, s, a).Some?
    ensures Run(cfg, s, a + b) == Run(cfg, Run(cfg, s, a).value, b)
    decreases |a|
  {
    hide Enabled, Apply;
    if a == [] {
      assert a + b == b;
    } else {
      assert (a + b)[1..] == a[1..] + b;
      RunConcat(cfg, Apply(cfg, s, a[0]), a[1..], b);
    }
  }

  lemma RunFromReachable(cfg: Config, s: System, run: seq<Label>)
    requires Reachable(cfg, s) && Run(cfg, s, run).Some?
    ensures Reachable(cfg, Run(cfg, s, run).value)
  {
    hide Enabled, Apply;
    var before :| Run(cfg, Init(), before) == Some(s);
    RunConcat(cfg, Init(), before, run);
  }

  lemma StepFromReachable(cfg: Config, s: System, l: Label)
    requires Reachable(cfg, s) && Enabled(cfg, s, l)
    ensures Reachable(cfg, Apply(cfg, s, l))
  {
    hide Enabled, Apply;
    assert Run(cfg, Apply(cfg, s, l), [l][1..]) == Some(Apply(cfg, s, l));
    RunFromReachable(cfg, s, [l]);
  }

  // ----- completion -----

  /** A command that is marked completed and was not dropped has run on the hardware. */
  lemma CompletionIsTruthful(cfg: Config, s: System, h: int)
    requires Reachable(cfg, s) && h in s.cmds.done && h !in s.cmds.dropped
    ensures h in s.dev.trace
  {
    hide Reachable, Run;
    ReachableInv(cfg, s);
  }

  // ----- the logs -----

  function Filter(s: seq<int>, keep: set<int>): seq<int> {
    if s == [] then []
    else if s[|s| - 1] in keep then Filter(s[..|s| - 1], keep) + [s[|s| - 1]]
    else Filter(s[..|s| - 1], keep)
  }

  lemma {:induction false} FilterMembers(s: seq<int>, keep: set<int>)
    ensures forall x :: x in Filter(s, keep) <==> x in s && x in keep
  {
    if s != [] {
      FilterMembers(s[..|s| - 1], keep);
      assert s == s[..|s| - 1] + [s[|s| - 1]];
    }
  }

  lemma {:induction false} FilterIncreasing(s: seq<int>, keep: set<int>)
    requires Increasing(s)
    ensures Increasing(Filter(s, keep))
  {
    if s != [] {
      var front, last := s[..|s| - 1], s[|s| - 1];
      FilterIncreasing(front, keep);
      FilterMembers(front, keep);
      if last in keep { IncreasingAppend(Filter(front, keep), last); }
    }
  }

  lemma LastIsGreatest(s: seq<int>)
    requires Increasing(s) && s != []
    ensures s == s[..|s| - 1] + [s[|s| - 1]] && Increasing(s[..|s| - 1])
    ensures forall x :: x in s ==> x <= s[|s| - 1]
    ensures forall x :: x in s[..|s| - 1] <==> x in s && x < s[|s| - 1]
  {
    var front := s[..|s| - 1];
    forall x | x in s && x < s[|s| - 1]
      ensures x in front
    {
      var i :| 0 <= i < |s| && s[i] == x;
      assert front[i] == x;
    }
  }

  lemma {:induction false} IncreasingIsUnique(a: seq<int>, b: seq<int>)
    requires Increasing(a) && Increasing(b)
    requires forall x :: x in a <==> x in b
    ensures a == b
  {
    HasMember(a);
    HasMember(b);
    if a != [] {
      LastIsGreatest(a);
      LastIsGreatest(b);
      assert a[|a| - 1] in a && b[|b| - 1] in b;
      var x := a[|a| - 1];
      assert x == b[|b| - 1];
      var a', b' := a[..|a| - 1], b[..|b| - 1];
      forall y
        ensures y in a' <==> y in b'
      {
        assert y in a' <==> y in a && y < x;
        assert y in b' <==> y in b && y < x;
      }
      IncreasingIsUnique(a', b');
    }
  }

  /** The in-flight bound, the order of the log, and what the second log is. */
  lemma LogsAreBoundedAndInStep(cfg: Config, s: System)
    requires Reachable(cfg, s)
    ensures |s.worker.log| <= cfg.threshold
    ensures Increasing(s.worker.log)
    ensures s.worker.syncLog == Filter(s.worker.log, s.cmds.synchronizable)
  {
    hide Reachable, Run;
    ReachableInv(cfg, s);
    FilterMembers(s.worker.log, s.cmds.synchronizable);
    FilterIncreasing(s.worker.log, s.cmds.synchronizable);
    IncreasingIsUnique(s.worker.syncLog, Filter(s.worker.log, s.cmds.synchronizable));
  }

  lemma {:induction false} IncreasingSpread(s: seq<int>, i: nat)
    requires Increasing(s) && i < |s|
    ensures s[i] >= s[0] + i
  {
    if i > 0 { IncreasingSpread(s, i - 1); }
  }

  /** A full log is waited on through one command, so that it is not drained, exactly
      if some command in flight is synchronizable. */
  lemma FullLogWaitsOnOneCommand(cfg: Config, s: System)
    requires Reachable(cfg, s) && s.pc.CheckingFull? && |s.worker.log| >= cfg.threshold
    ensures var sync := DoCheckFull(cfg, s).pc.sync;
            && (sync.target.OneCommand? <==> exists x :: x in s.worker.log && x in s.cmds.synchronizable)
            && (sync.target.OneCommand? ==> sync.target.index in s.worker.log && sync.target.index == s.worker.syncLog[0])
  {
    hide Reachable, Run;
    ReachableInv(cfg, s);
    var w := s.worker;
    forall x | x in w.syncLog ensures x >= w.log[0] {
      var i :| 0 <= i < |w.log| && w.log[i] == x;
    }
    SlotCommandIsOldest(w.syncLog, w.log[0]);
    if w.syncLog != [] { assert w.syncLog[0] in w.syncLog; }
  }

  /** If every command can be made synchronizable, then a full log always has such a command. */
  lemma FullLogHasSomethingToWaitOn(cfg: Config, s: System)
    requires Reachable(cfg, s) && AllSynchronizable(s.cmds) && |s.worker.log| >= cfg.threshold
    ensures s.worker.syncLog != [] && s.worker.syncLog[0] >= s.worker.log[0]
  {
    hide Reachable, Run;
    ReachableInv(cfg, s);
    var w := s.worker;
    var n := |w.log|;
    IncreasingSpread(w.log, n - 1);
    assert w.log[0] in w.log && w.log[n - 1] in w.log;
    assert w.log[n - 1] > w.lastSync ==> w.log[n - 1] - w.lastSync < cfg.batchSize;
    assert w.log[0] <= w.lastSync;
    assert w.lastSync in w.syncLog;
    assert w.syncLog[0] in w.log;
  }

  /** At a level that deactivates, no command that is neither deactivatable nor
      idempotent is in flight behind a deactivatable one. */
  lemma LogOrderIsPreemptionSafe(cfg: Config, s: System, i: nat, j: nat)
    requires Reachable(cfg, s) && cfg.level != Block
    requires i < j < |s.worker.log| && s.worker.log[i] in s.cmds.deactivatable
    ensures s.worker.log[j] in s.cmds.deactivatable || s.worker.log[j] in s.cmds.idempotent
  {
    hide Reachable, Run;
    ReachableInv(cfg, s);
    assert s.worker.log[i] in s.worker.log && s.worker.log[j] in s.worker.log;
  }

  /** When a launch waits for commands in flight before it looks at the bound: exactly at a level that
      deactivates, for a command that is neither deactivatable nor idempotent, and behind one that
      is deactivatable. */
  lemma LaunchWaitsIff(cfg: Config, s: System)
    requires Reachable(cfg, s) && s.pc.Entering?
    ensures Enabled(cfg, s, Enter)
    ensures Apply(cfg, s, Enter).pc.Draining?
            <==> && cfg.level != Block && s.pc.held !in s.cmds.deactivatable && s.pc.held !in s.cmds.idempotent
                 && exists x :: x in s.worker.log && x in s.cmds.deactivatable
    ensures Apply(cfg, s, Enter).pc.Draining? || Apply(cfg, s, Enter).pc == CheckingFull(s.pc.held)
  {
    hide Reachable, Run;
    ReachableInv(cfg, s);
    hide FeedInv, AuxInv, ThreadInv, DeviceInv, PastInv, ControlOk;
    ScanBackIsRight(s.worker.log, |s.worker.log|, s.cmds.deactivatable, s.cmds.synchronizable, None);
    hide ScanBack;
  }

  /** A batch synchronization waits for the oldest synchronizable command in flight, and is given up
      exactly if there is none. */
  lemma BatchSyncWaitsOnOldest(cfg: Config, s: System)
    requires Reachable(cfg, s) && s.pc.AuxEntering? && s.pc.id < |s.aux.made| && s.aux.made[s.pc.id].kind == BatchSync
    ensures Enabled(cfg, s, AuxEnter)
    ensures var pc := Apply(cfg, s, AuxEnter).pc;
            if exists x :: x in s.worker.log && x in s.cmds.synchronizable
            then && pc.AuxSyncing? && pc.sync.target.OneCommand?
                 && var c := pc.sync.target.index;
                    && c in s.worker.log && c in s.cmds.synchronizable
                    && forall x :: x in s.worker.log && x in s.cmds.synchronizable ==> c <= x
            else pc == Fetching
  {
    hide Reachable, Run;
    ReachableInv(cfg, s);
    hide FeedInv, AuxInv, ThreadInv, DeviceInv, PastInv, ControlOk;
    HasMember(s.worker.syncLog);
  }

  /** What the worker gets from an empty buffer: after a hardware or host function command a batch
      synchronization, after that a wait-all, which covers everything submitted so far; after a
      wait-all nothing, and the queue is idle. */
  lemma EmptyBufferIs(cfg: Config, s: System)
    requires Reachable(cfg, s) && s.pc.Fetching? && s.buf.queue == []
    ensures Enabled(cfg, s, Fetch)
    ensures var t, last := Apply(cfg, s, Fetch), s.buf.last;
            var kind := if last.HwRef? || last.id >= |s.aux.made| then HostFunction else s.aux.made[last.id].kind;
            if kind == WaitAll then t.pc == WaitingForCommand && !t.buf.ready && t.aux == s.aux
            else t.pc == AuxEntering(|s.aux.made|)
                 && t.aux.made == s.aux.made + [Aux(if kind == BatchSync then WaitAll else BatchSync, s.cmds.count)]
                 && t.buf.last == AuxRef(|s.aux.made|)
  {
    hide Reachable, Run;
    ReachableInv(cfg, s);
    hide LogInv, FeedInv, ThreadInv, DeviceInv, PastInv, ControlOk;
  }

  // ----- launching and pausing -----

  /** In a run without a dropping resume in which only the worker synchronizes, every
      launch is made while the worker runs. */
  lemma LaunchesAreMadeWhileRunning(cfg: Config, s: System, i: nat)
    requires Reachable(cfg, s) && !s.seen.drop && !s.seen.appSync && i < |s.launches|
    ensures s.launches[i].state == Running
  {
    hide Reachable, Run;
    ReachableInv(cfg, s);
  }

  /** Between calls the worker is paused exactly while the queue is suspended, and the hardware
      deactivated exactly then at a level that deactivates. */
  lemma SuspensionTakesHold(cfg: Config, s: System)
    requires Reachable(cfg, s) && s.ctl.pc.NoCall?
    ensures s.worker.state.Paused? <==> s.ctl.suspended
    ensures s.dev.off <==> s.ctl.suspended && cfg.level != Block
  {
    hide Reachable, Run;
    ReachableInv(cfg, s);
    hide LogInv, FeedInv, AuxInv, ThreadInv, DeviceInv, PastInv;
  }

  lemma OnlyThreeStepsLaunch(cfg: Config, s: System, l: Label)
    requires Enabled(cfg, s, l) && l != WorkerCheck && l != WorkerRelock && l != LaunchAwaited
    ensures Apply(cfg, s, l).launches == s.launches
  {
    hide PopThrough, CutPoint, ScanLog, IsWaitAll;
  }

  lemma NoPauseAfterReturn(cfg: Config, s: System)
    requires Inv(cfg, s) && WorkerSyncing(s) && s.pc.sync.phase.OnHardware?
    requires s.pc.sync.phase.pauses == s.worker.pauseCount
    ensures !s.worker.state.Paused?
  {
    hide LogInv, FeedInv, AuxInv, ThreadInv, DeviceInv, PastInv, ControlOk;
    WorkerSyncFact(cfg, s);
  }

  predicate PausedLaunch(s: System, s': System) {
    |s'.launches| > |s.launches| && s'.launches[|s.launches|].state == Paused
  }

  /** A launch is made while the worker is paused exactly when the worker, waiting for a
      slot of a full log, finds the command it waits for already completed. */
  lemma PausedLaunchesAreEarlyReturns(cfg: Config, s: System, l: Label)
    requires Reachable(cfg, s) && Enabled(cfg, s, l)
    ensures PausedLaunch(s, Apply(cfg, s, l))
            <==> (&& l == WorkerCheck && s.worker.state == Paused
                  && s.pc.Draining? && s.pc.full && s.pc.sync.target.OneCommand?
                  && s.pc.sync.target.index in s.cmds.done && s.worker.dropIdx < s.pc.held)
  {
    hide Reachable, Run;
    ReachableInv(cfg, s);
    hide Inv;
    match l
    case WorkerCheck =>
    case WorkerRelock =>
      if s.pc.sync.phase.pauses == s.worker.pauseCount { NoPauseAfterReturn(cfg, s); }
    case LaunchAwaited =>
    case _ => OnlyThreeStepsLaunch(cfg, s, l);
  }

  /** Launches are made in submission order, each command at most once, and never of a
      command that a dropping resume has already dropped. */
  lemma LaunchesAreInOrder(cfg: Config, s: System, i: nat, j: nat)
    requires Reachable(cfg, s) && i < j < |s.launches|
    ensures s.launches[i].index < s.launches[j].index
    ensures s.launches[j].dropIdx < s.launches[j].index
  {
    hide Reachable, Run;
    ReachableInv(cfg, s);
  }

  /** The assertions of the synchronization code hold: what a thread waits for is
      synchronizable and has been launched, unless it is already completed. */
  lemma SyncAssertionsHold(cfg: Config, s: System)
    requires Reachable(cfg, s)
    ensures WorkerSyncing(s) && s.pc.sync.target.OneCommand? ==>
              && s.pc.sync.target.index in s.cmds.synchronizable
              && (s.pc.sync.target.index in s.cmds.launched || s.pc.sync.target.index in s.cmds.done)
    ensures forall t :: t in s.apps ==>
              && s.apps[t].target.OneCommand?
              && s.apps[t].target.index in s.cmds.synchronizable
              && (s.apps[t].target.index in s.cmds.launched || s.apps[t].target.index in s.cmds.done)
  {
    hide Reachable, Run;
    ReachableInv(cfg, s);
  }

  // ----- the ready state -----

  /** When `Dequeue` declares the queue idle, nothing is left anywhere. */
  lemma IdleIsTruthful(cfg: Config, s: System)
    requires Reachable(cfg, s) && Enabled(cfg, s, Fetch)
    requires s.buf.ready && !Apply(cfg, s, Fetch).buf.ready && !s.seen.drop
    ensures s.buf.queue == [] && s.worker.log == [] && s.worker.syncLog == []
    ensures forall h :: 1 <= h <= s.cmds.count ==> h in s.cmds.done
    ensures forall id: nat :: id < |s.aux.made| && s.aux.made[id].kind != BatchSync ==> id in s.aux.done
  {
    hide Reachable, Run;
    ReachableInv(cfg, s);
    hide DeviceInv, ThreadInv;
    assert s.buf.queue == [] && s.buf.last.id in s.aux.done;
    assert AllDone(s.cmds, s.cmds.count);
    HasMember(s.worker.log);
    HasMember(s.worker.syncLog);
  }

  /** Ready and idle events alternate, starting with ready, and the buffer makes up at
      most two commands between two enqueues. */
  lemma ReadyEventsAlternate(cfg: Config, s: System)
    requires Reachable(cfg, s)
    ensures forall i :: 0 <= i < |s.buf.events| ==> (s.buf.events[i] == BecameReady <==> i % 2 == 0)
    ensures s.buf.ready <==> |s.buf.events| % 2 == 1
    ensures s.buf.generated <= 2
  {
    hide Reachable, Run;
    ReachableInv(cfg, s);
  }

  /** The assertion of `EnqueueXQueueWaitAllCommand` holds as long as only hardware and
      wait-all commands have been enqueued. */
  lemma WaitAllAssertion(cfg: Config, s: System)
    requires Reachable(cfg, s) && !s.seen.otherEnqueue
    ensures WaitAllAssertionHolds(s)
  {
    hide Reachable, Run;
    ReachableInv(cfg, s);
  }

  /** A command that is neither a hardware command nor a wait-all is enqueued on an idle queue. */
  predicate EnqueuesOtherWhileIdle(s: System, l: Label) {
    (l == EnqueueHostFunction || l == EnqueueDestroy) && !s.buf.ready
  }

  /** Of all the steps there are, exactly these break it. */
  lemma OtherEnqueueAndWaitAllAssertion(cfg: Config, s: System, l: Label)
    requires Enabled(cfg, s, l) && WaitAllAssertionHolds(s)
    ensures !WaitAllAssertionHolds(Apply(cfg, s, l)) <==> EnqueuesOtherWhileIdle(s, l)
  {
    hide PopThrough, CutPoint, ScanLog, SlotCommand, FirstLost, Check;
  }

  /** Over a whole run: the assertion holds all along if and only if no such command is ever
      enqueued on an idle queue. */
  lemma {:induction false} WaitAllAssertionOverRuns(cfg: Config, s: System, run: seq<Label>)
    requires WaitAllAssertionHolds(s) && Run(cfg, s, run).Some?
    ensures forall k :: 0 <= k <= |run| ==> Run(cfg, s, run[..k]).Some?
    ensures (forall k :: 0 <= k <= |run| ==> WaitAllAssertionHolds(Run(cfg, s, run[..k]).value))
            <==> (forall k :: 0 <= k < |run| ==> !EnqueuesOtherWhileIdle(Run(cfg, s, run[..k]).value, run[k]))
    decreases |run|
  {
    hide Enabled, Apply, WaitAllAssertionHolds, EnqueuesOtherWhileIdle;
    if run != [] {
      var rest := run[..|run| - 1];
      assert run == rest + [run[|run| - 1]];
      PrefixRuns(cfg, s, rest, run[|run| - 1]);
      WaitAllAssertionOverRuns(cfg, s, rest);
      forall k | 0 <= k <= |rest| ensures run[..k] == rest[..k] {
      }
      assert run[..|run|] == run && run[..|rest|] == rest;
      var t := Run(cfg, s, rest).value;
      if WaitAllAssertionHolds(t) { OtherEnqueueAndWaitAllAssertion(cfg, t, run[|run| - 1]); }
      assert rest[..|rest|] == rest;
    }
  }

  /** The last step of a run starts where the rest of it ends. */
  lemma {:induction false} PrefixRuns(cfg: Config, s: System, rest: seq<Label>, l: Label)
    requires Run(cfg, s, rest + [l]).Some?
    ensures Run(cfg, s, rest).Some?
    ensures Enabled(cfg, Run(cfg, s, rest).value, l)
    ensures Run(cfg, s, rest + [l]) == Some(Apply(cfg, Run(cfg, s, rest).value, l))
    decreases |rest|
  {
    hide Enabled, Apply;
    if rest == [] {
      assert [l][1..] == [] && rest + [l] == [l];
    } else {
      assert (rest + [l])[1..] == rest[1..] + [l];
      PrefixRuns(cfg, Apply(cfg, s, rest[0]), rest[1..], l);
    }
  }

  // ----- wait-all commands -----

  /** Nothing a run does changes a command that was made before, or takes back a completion. */
  lemma StepOnlyAdds(cfg: Config, s: System, l: Label)
    requires Enabled(cfg, s, l)
    ensures s.aux.made <= Apply(cfg, s, l).aux.made
    ensures s.aux.done <= Apply(cfg, s, l).aux.done
  {
    hide PopThrough, CutPoint, ScanLog, IsWaitAll, Check;
  }

  lemma StepOnlyCompletes(cfg: Config, s: System, l: Label)
    requires Enabled(cfg, s, l)
    ensures s.cmds.count <= Apply(cfg, s, l).cmds.count
    ensures s.cmds.done <= Apply(cfg, s, l).cmds.done
  {
    hide PopThrough, CutPoint, ScanLog, IsWaitAll, Check;
  }

  lemma {:induction false} RunOnlyAdds(cfg: Config, s: System, run: seq<Label>)
    requires Run(cfg, s, run).Some?
    ensures s.aux.made <= Run(cfg, s, run).value.aux.made
    ensures s.cmds.done <= Run(cfg, s, run).value.cmds.done
    ensures s.aux.done <= Run(cfg, s, run).value.aux.done
    decreases |run|
  {
    hide Enabled, Apply;
    if run != [] {
      StepOnlyAdds(cfg, s, run[0]);
      StepOnlyCompletes(cfg, s, run[0]);
      RunOnlyAdds(cfg, Apply(cfg, s, run[0]), run[1..]);
    }
  }

  /** The command handed out by `EnqueueXQueueWaitAllCommand`, new or reused, is a
      wait-all command that covers everything submitted so far. */
  lemma RequestedCoversAll(cfg: Config, s: System)
    requires Reachable(cfg, s)
    ensures var s', r := DoRequestWaitAll(s), RequestedWaitAll(s);
            IsWaitAll(s'.aux, r) && s'.aux.made[r.id].cover == s.cmds.count
  {
    hide Reachable, Run;
    ReachableInv(cfg, s);
    hide LogInv, FeedInv, ThreadInv, DeviceInv, PastInv, ControlOk;
  }

  /** A coalesced wait-all is as strong as a fresh one: once the command handed out at
      `s` has been completed by the worker, every hardware command submitted before `s`
      is completed. */
  lemma WaitAllWaitsForAll(cfg: Config, s: System, run: seq<Label>, h: int)
    requires Reachable(cfg, s) && Enabled(cfg, s, RequestWaitAll)
    requires Run(cfg, Apply(cfg, s, RequestWaitAll), run).Some?
    requires var t := Run(cfg, Apply(cfg, s, RequestWaitAll), run).value;
             RequestedWaitAll(s).id in t.aux.done && RequestedWaitAll(s).id !in t.aux.dropped
    requires 1 <= h <= s.cmds.count
    ensures h in Run(cfg, Apply(cfg, s, RequestWaitAll), run).value.cmds.done
  {
    var s' := Apply(cfg, s, RequestWaitAll);
    var t := Run(cfg, s', run).value;
    var id := RequestedWaitAll(s).id;
    RequestedCoversAll(cfg, s);
    StepFromReachable(cfg, s, RequestWaitAll);
    RunFromReachable(cfg, s', run);
    RunOnlyAdds(cfg, s', run);
    ReachableInv(cfg, t);
    assert t.aux.made[id] == s'.aux.made[id];
    BarrierFact(t, id);
  }

  lemma BarrierFact(s: System, id: nat)
    requires AuxInv(s.cmds, s.aux, s.buf.queue, s.buf.last, s.pc)
    requires id in s.aux.done && id !in s.aux.dropped && id < |s.aux.made| && s.aux.made[id].kind != BatchSync
    ensures AllDone(s.cmds, s.aux.made[id].cover)
  {
  }

  /** In a run without a dropping resume no command is completed without being waited for. */
  lemma NothingIsDropped(cfg: Config, s: System)
    requires Reachable(cfg, s) && !s.seen.drop
    ensures s.cmds.dropped == {} && s.aux.dropped == {}
  {
    hide Reachable, Run;
    ReachableInv(cfg, s);
  }

  // ----- dropping resumes -----

  /** When a dropping resume finishes, the logs are empty, and every command it covers is
      completed unless the worker holds it or it entered the buffer after it was emptied. */
  lemma DropEmptiesLogs(cfg: Config, s: System, h: int)
    requires Reachable(cfg, s) && Enabled(cfg, s, DropLogs) && 1 <= h <= s.ctl.pc.dropIdx
    ensures var t := Apply(cfg, s, DropLogs);
            && t.worker.log == [] && t.worker.syncLog == [] && t.worker.dropIdx == s.ctl.pc.dropIdx
            && (h in t.cmds.done || (Holds(t.pc) && t.pc.held == h) || HwRef(h) in t.buf.queue)
  {
    hide Reachable, Run;
    ReachableInv(cfg, s);
    KeepsDropLogs(cfg, s);
    hide LogInv, FeedInv, AuxInv, ThreadInv, DeviceInv, ControlOk;
    AnnouncedIndexIsSubmitted(cfg, s);
    hide PastInv;
    EmptyLogCovers(cfg, Apply(cfg, s, DropLogs), h);
  }

  /** What a wait-all completed by a dropping resume is worth: what it covers is completed with
      it if and only if none of that is in flight or in the worker's hands at that moment. */
  lemma DroppedWaitAllIsEarlyIff(cfg: Config, s: System, id: nat)
    requires Reachable(cfg, s) && Enabled(cfg, s, DropBuffer) && AuxRef(id) in s.buf.queue
    ensures var t := Apply(cfg, s, DropBuffer);
            && id < |s.aux.made| && id in t.aux.done
            && (AllDone(t.cmds, s.aux.made[id].cover) <==>
                  && (forall x :: x in s.worker.log ==> x > s.aux.made[id].cover)
                  && (Holds(s.pc) ==> s.pc.held > s.aux.made[id].cover))
  {
    hide Reachable, Run;
    ReachableInv(cfg, s);
    hide ThreadInv, DeviceInv, PastInv, ControlOk, ReadyOk;
    DropIsDroppedBuffer(s);
    var t, cover := Apply(cfg, s, DropBuffer), s.aux.made[id].cover;
    hide DoDropBuffer;
    LiveIsNotDone(cfg, s.cmds, s.worker, s.buf.queue, s.pc);
    if (forall x :: x in s.worker.log ==> x > cover) && (Holds(s.pc) ==> s.pc.held > cover) {
      forall x {:trigger x in t.cmds.done} | 1 <= x <= cover ensures x in t.cmds.done {
        assert x in s.cmds.done || x in s.cmds.launched || HwRef(x) in s.buf.queue;
      }
    }
  }

  /** What is in flight or held is neither done nor in the buffer. */
  lemma LiveIsNotDone(cfg: Config, c: Commands, w: Worker, q: seq<Ref>, pc: WorkerPc)
    requires LogInv(cfg, c, w) && FeedInv(c, q, pc)
    ensures forall x :: x in w.log ==> x >= 1 && x !in c.done && HwRef(x) !in q
    ensures Holds(pc) ==> pc.held >= 1 && pc.held !in c.done && HwRef(pc.held) !in q
  {
  }

  lemma AnnouncedIndexIsSubmitted(cfg: Config, s: System)
    requires Inv(cfg, s) && s.ctl.pc.DroppingLogs?
    ensures s.ctl.pc.dropIdx <= s.cmds.count
  {
    hide LogInv, FeedInv, AuxInv, ThreadInv, DeviceInv, ControlOk;
    assert DropOk(s.cmds, s.worker, s.pc, s.ctl);
  }

  lemma EmptyLogCovers(cfg: Config, s: System, h: int)
    requires LogInv(cfg, s.cmds, s.worker) && FeedInv(s.cmds, s.buf.queue, s.pc)
    requires s.worker.log == [] && 1 <= h <= s.cmds.count
    ensures h in s.cmds.done || (Holds(s.pc) && s.pc.held == h) || HwRef(h) in s.buf.queue
  {
  }

  lemma HeldStays(cfg: Config, s: System, l: Label)
    requires Enabled(cfg, s, l) && l != WorkerCheck && l != WorkerRelock && l != LaunchAwaited && Holds(s.pc)
    ensures Holds(Apply(cfg, s, l).pc)
  {
    hide PopThrough, CutPoint, ScanLog, IsWaitAll;
  }

  lemma HeldIsUnlaunched(cfg: Config, s: System)
    requires Inv(cfg, s) && Holds(s.pc)
    ensures Unlaunched(s.cmds, s.pc.held)
  {
    hide LogInv, AuxInv, ThreadInv, DeviceInv, PastInv, ControlOk;
  }

  /** A dropped command that the worker still holds leaves its hands completed, not launched. */
  lemma HeldIsDropped(cfg: Config, s: System, l: Label)
    requires Reachable(cfg, s) && Enabled(cfg, s, l) && Holds(s.pc) && s.pc.held <= s.worker.dropIdx
    requires !Holds(Apply(cfg, s, l).pc)
    ensures s.pc.held in Apply(cfg, s, l).cmds.done && s.pc.held !in Apply(cfg, s, l).cmds.launched
    ensures Apply(cfg, s, l).launches == s.launches
  {
    hide Reachable, Run;
    ReachableInv(cfg, s);
    HeldIsUnlaunched(cfg, s);
    hide Inv, PopThrough, CutPoint, ScanLog;
    if l != WorkerCheck && l != WorkerRelock && l != LaunchAwaited {
      HeldStays(cfg, s, l);
    }
  }

  lemma StepLaunchesAfterDrop(cfg: Config, s: System, l: Label)
    requires Inv(cfg, s) && Enabled(cfg, s, l)
    ensures s.launches <= Apply(cfg, s, l).launches
    ensures forall i :: |s.launches| <= i < |Apply(cfg, s, l).launches| ==>
              Apply(cfg, s, l).launches[i].index > s.worker.dropIdx
  {
    hide Inv;
    if l != WorkerCheck && l != WorkerRelock && l != LaunchAwaited {
      OnlyThreeStepsLaunch(cfg, s, l);
    }
    hide PopThrough, CutPoint;
  }

  lemma AnnouncedIndexIsLater(cfg: Config, s: System)
    requires Inv(cfg, s) && s.ctl.pc.DroppingLogs?
    ensures s.worker.dropIdx <= s.ctl.pc.dropIdx
  {
    hide LogInv, FeedInv, AuxInv, ThreadInv, DeviceInv, ControlOk;
    assert DropOk(s.cmds, s.worker, s.pc, s.ctl);
  }

  lemma StepDropIndexGrows(cfg: Config, s: System, l: Label)
    requires Inv(cfg, s) && Enabled(cfg, s, l)
    ensures s.worker.dropIdx <= Apply(cfg, s, l).worker.dropIdx
  {
    hide Inv, PopThrough, CutPoint, ScanLog, SlotCommand, FirstLost, Check, IsWaitAll, Exposed, EndsBatch;
    if l == DropLogs {
      AnnouncedIndexIsLater(cfg, s);
    }
  }

  /** Once a dropping resume with index `d` has finished, no command up to `d` is ever launched. */
  lemma {:induction false} DroppedIsNeverLaunched(cfg: Config, s: System, run: seq<Label>, i: nat)
    requires Reachable(cfg, s) && Run(cfg, s, run).Some?
    requires |s.launches| <= i < |Run(cfg, s, run).value.launches|
    ensures Run(cfg, s, run).value.launches[i].index > s.worker.dropIdx
    decreases |run|
  {
    hide Enabled, Apply, Inv;
    if run != [] {
      var t := Apply(cfg, s, run[0]);
      ReachableInv(cfg, s);
      StepFromReachable(cfg, s, run[0]);
      StepLaunchesAfterDrop(cfg, s, run[0]);
      StepDropIndexGrows(cfg, s, run[0]);
      if i < |t.launches| {
        RunKeepsLaunches(cfg, t, run[1..]);
      } else {
        DroppedIsNeverLaunched(cfg, t, run[1..], i);
      }
    }
  }

  lemma {:induction false} RunKeepsLaunches(cfg: Config, s: System, run: seq<Label>)
    requires Reachable(cfg, s) && Run(cfg, s, run).Some?
    ensures s.launches <= Run(cfg, s, run).value.launches
    decreases |run|
  {
    hide Enabled, Apply, Inv;
    if run != [] {
      ReachableInv(cfg, s);
      StepFromReachable(cfg, s, run[0]);
      StepLaunchesAfterDrop(cfg, s, run[0]);
      RunKeepsLaunches(cfg, Apply(cfg, s, run[0]), run[1..]);
    }
  }

  /** While no resume is under way, everything dropped so far has an index up to the
      announced one, so a later submission is not dropped before another dropping resume. */
  lemma DropsReachOnlyTheIndex(cfg: Config, s: System, h: int)
    requires Reachable(cfg, s) && !DropPhase(s.ctl) && h in s.cmds.dropped
    ensures h <= s.worker.dropIdx <= s.cmds.count
  {
    hide Reachable, Run;
    ReachableInv(cfg, s);
  }

  /** The same run with every drop flag cleared. */
  function WithoutDropFlags(run: seq<Label>): (r: seq<Label>)
    ensures |r| == |run|
  {
    if run == [] then [] else
      [if run[0].ResumeBegin? then ResumeBegin(false) else run[0]] + WithoutDropFlags(run[1..])
  }

  lemma BlockIgnoresOneFlag(cfg: Config, s: System, drop: bool)
    requires cfg.level == Block && s.ctl.pc.NoCall? && s.ctl.suspended
    ensures Apply(cfg, s, ResumeBegin(drop)) == Apply(cfg, s, ResumeBegin(false))
  {
  }

  /** At level Block the drop flags of a run have no effect: cleared, it ends in the same state. */
  lemma {:induction false} BlockIgnoresDropFlag(cfg: Config, s: System, run: seq<Label>)
    requires cfg.level == Block
    ensures Run(cfg, s, WithoutDropFlags(run)) == Run(cfg, s, run)
    decreases |run|
  {
    hide Apply;
    if run != [] {
      var l := if run[0].ResumeBegin? then ResumeBegin(false) else run[0];
      assert WithoutDropFlags(run)[0] == l && WithoutDropFlags(run)[1..] == WithoutDropFlags(run[1..]);
      if Enabled(cfg, s, run[0]) {
        if run[0].ResumeBegin? { BlockIgnoresOneFlag(cfg, s, run[0].drop); }
        BlockIgnoresDropFlag(cfg, Apply(cfg, s, run[0]), run[1..]);
      }
    }
  }

  // ----- what the hardware has computed -----

  /** Executing the commands of a trace, one after the other, on some memory. */
  function Execute<M>(trace: seq<int>, effect: (int, M) -> M, m: M): M {
    if trace == [] then m
    else effect(trace[|trace| - 1], Execute(trace[..|trace| - 1], effect, m))
  }

  /** The commands 1 to `n`, in submission order. */
  function Upto(n: nat): (r: seq<int>)
    ensures |r| == n && forall i :: 0 <= i < n ==> r[i] == i + 1
  {
    if n == 0 then [] else Upto(n - 1) + [n]
  }

  /** Idempotent commands write no memory. */
  ghost predicate IdempotentIsNeutral<M(!new)>(effect: (int, M) -> M, idempotent: set<int>) {
    forall h, m :: h in idempotent ==> effect(h, m) == m
  }

  lemma {:induction false} ExecuteIgnoresIdempotent<M(!new)>(trace: seq<int>, keep: set<int>, effect: (int, M) -> M, m: M,
                                                      idempotent: set<int>)
    requires IdempotentIsNeutral(effect, idempotent)
    requires forall h :: h in trace ==> (h in keep <==> h !in idempotent)
    ensures Execute(Filter(trace, keep), effect, m) == Execute(trace, effect, m)
  {
    if trace != [] {
      var front, last := trace[..|trace| - 1], trace[|trace| - 1];
      assert trace == front + [last];
      ExecuteIgnoresIdempotent(front, keep, effect, m, idempotent);
      if last in keep {
        var f := Filter(front, keep);
        assert (f + [last])[..|f|] == f;
      }
    }
  }

  lemma {:induction false} FilterEffectsIncreasing(trace: seq<int>, keep: set<int>, idempotent: set<int>)
    requires EffectsInOrder(trace, idempotent)
    requires forall h :: h in trace ==> (h in keep <==> h !in idempotent)
    ensures Increasing(Filter(trace, keep))
  {
    if trace != [] {
      var front, last := trace[..|trace| - 1], trace[|trace| - 1];
      assert trace == front + [last];
      FilterEffectsIncreasing(front, keep, idempotent);
      FilterMembers(front, keep);
      if last in keep {
        forall x | x in Filter(front, keep)
          ensures x < last
        {
          var i :| 0 <= i < |front| && front[i] == x;
          assert trace[i] == x && trace[|front|] == last;
        }
        IncreasingAppend(Filter(front, keep), last);
      }
    }
  }

  /** As long as no launch has overtaken lost commands, the non-idempotent executions are a
      subsequence of the submission order, each command at most once: no suspension makes
      the hardware run a command with side effects twice or ahead of an earlier one. */
  lemma EffectsAreInSubmissionOrder(cfg: Config, s: System, i: nat, j: nat)
    requires Reachable(cfg, s) && !s.dev.overtaken && i < j < |s.dev.trace|
    requires s.dev.trace[i] !in s.cmds.idempotent && s.dev.trace[j] !in s.cmds.idempotent
    ensures s.dev.trace[i] < s.dev.trace[j]
  {
    hide Reachable, Run;
    ReachableInv(cfg, s);
  }

  /** Suspending and resuming is invisible: once everything submitted has been completed,
      nothing was dropped and no launch overtook lost commands, the hardware has computed
      exactly what one uninterrupted execution in submission order computes, however often
      it was deactivated and whatever it lost and ran again in between. */
  lemma SuspensionIsInvisible<M(!new)>(cfg: Config, s: System, effect: (int, M) -> M, m: M)
    requires Reachable(cfg, s) && !s.seen.drop && !s.dev.overtaken
    requires AllDone(s.cmds, s.cmds.count)
    requires IdempotentIsNeutral(effect, s.cmds.idempotent)
    ensures Execute(s.dev.trace, effect, m) == Execute(Upto(s.cmds.count), effect, m)
  {
    var n, trace, all := s.cmds.count, s.dev.trace, Upto(s.cmds.count);
    var keep := set h | h in all && h !in s.cmds.idempotent;
    TraceIsEverything(cfg, s);
    assert forall h :: h in all <==> 1 <= h <= n by {
      forall h | 1 <= h <= n ensures h in all { assert all[h - 1] == h; }
    }
    FilterEffectsIncreasing(trace, keep, s.cmds.idempotent);
    FilterMembers(trace, keep);
    FilterIncreasing(all, keep);
    FilterMembers(all, keep);
    IncreasingIsUnique(Filter(trace, keep), Filter(all, keep));
    ExecuteIgnoresIdempotent(trace, keep, effect, m, s.cmds.idempotent);
    ExecuteIgnoresIdempotent(all, keep, effect, m, s.cmds.idempotent);
  }

  lemma TraceIsEverything(cfg: Config, s: System)
    requires Reachable(cfg, s) && !s.seen.drop && !s.dev.overtaken && AllDone(s.cmds, s.cmds.count)
    ensures forall h :: h in s.dev.trace <==> 1 <= h <= s.cmds.count
    ensures EffectsInOrder(s.dev.trace, s.cmds.idempotent)
  {
    hide Reachable, Run;
    ReachableInv(cfg, s);
    hide AuxInv, FeedInv, ThreadInv;
  }
}
