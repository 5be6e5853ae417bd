/** Every step of the pipeline keeps the invariant. */
module PipelineSteps {
  import opened LaunchLog
  import opened Options
  import opened Pipeline
  import opened PipelineInvariant

  // ----- enqueueing -----

  ghost predicate Submitted(c: Commands, c': Commands) {
    && c'.count == c.count + 1
    && c'.launched == c.launched && c'.done == c.done && c'.dropped == c.dropped
    && c.deactivatable <= c'.deactivatable <= c.deactivatable + {c'.count}
    && c.idempotent <= c'.idempotent <= c.idempotent + {c'.count}
    && c.canEnable <= c'.canEnable <= c.canEnable + {c'.count}
    && c.synchronizable <= c'.synchronizable <= c.synchronizable + {c'.count}
  }

  lemma SubmitLogs(cfg: Config, c: Commands, c': Commands, w: Worker)
    requires LogInv(cfg, c, w) && Submitted(c, c')
    ensures LogInv(cfg, c', w)
  {
    assert AllSynchronizable(c') ==> AllSynchronizable(c);
  }

  lemma SubmitFeed(cfg: Config, w: Worker, c: Commands, c': Commands, q: seq<Ref>, pc: WorkerPc)
    requires FeedInv(c, q, pc) && LogInv(cfg, c, w) && Submitted(c, c')
    ensures FeedInv(c', q + [HwRef(c'.count)], pc)
  {
    var q' := q + [HwRef(c'.count)];
    assert q'[|q|] == HwRef(c'.count);
    forall r | r in q ensures r in q' {}
  }

  lemma SubmitAux(c: Commands, c': Commands, a: Auxiliary, q: seq<Ref>, last: Ref, pc: WorkerPc)
    requires AuxInv(c, a, q, last, pc) && Submitted(c, c')
    ensures AuxInv(c', a, q + [HwRef(c'.count)], HwRef(c'.count), pc)
  {
    forall r | r in q ensures r in q + [HwRef(c'.count)] {}
  }

  lemma SubmitThreads(cfg: Config, s: System, c': Commands)
    requires ThreadInv(cfg, s.cmds, s.worker, s.dev.trace, s.pc, s.apps)
    requires LogInv(cfg, s.cmds, s.worker) && FeedInv(s.cmds, s.buf.queue, s.pc) && Submitted(s.cmds, c')
    ensures ThreadInv(cfg, c', s.worker, s.dev.trace, s.pc, s.apps)
  {
  }

  lemma SubmitDevice(cfg: Config, c: Commands, c': Commands, w: Worker, ctl: Control, dev: Device)
    requires DeviceInv(c, w, ctl, dev) && Submitted(c, c') && LogInv(cfg, c, w)
    ensures DeviceInv(c', w, ctl, dev)
  {
  }

  lemma KeepsSubmit(cfg: Config, s: System, d: bool, i: bool, e: bool, y: bool)
    requires Inv(cfg, s)
    ensures Inv(cfg, DoSubmit(s, d, i, e, y))
  {
    hide LogInv, FeedInv, AuxInv, ThreadInv, DeviceInv;
    var s' := DoSubmit(s, d, i, e, y);
    SubmitLogs(cfg, s.cmds, s'.cmds, s.worker);
    SubmitFeed(cfg, s.worker, s.cmds, s'.cmds, s.buf.queue, s.pc);
    SubmitAux(s.cmds, s'.cmds, s.aux, s.buf.queue, s.buf.last, s.pc);
    SubmitThreads(cfg, s, s'.cmds);
    SubmitDevice(cfg, s.cmds, s'.cmds, s.worker, s.ctl, s.dev);
  }

  lemma EnqueueFeed(c: Commands, q: seq<Ref>, pc: WorkerPc, id: nat)
    requires FeedInv(c, q, pc)
    ensures FeedInv(c, q + [AuxRef(id)], pc)
  {
    forall r | r in q ensures r in q + [AuxRef(id)] {}
  }

  lemma EnqueueAuxiliary(c: Commands, a: Auxiliary, q: seq<Ref>, last: Ref, pc: WorkerPc, kind: AuxKind)
    requires AuxInv(c, a, q, last, pc) && kind != BatchSync
    ensures AuxInv(c, a.(made := a.made + [Aux(kind, c.count)]), q + [AuxRef(|a.made|)], AuxRef(|a.made|), pc)
  {
    var q' := q + [AuxRef(|a.made|)];
    assert q'[|q|] == AuxRef(|a.made|);
    forall r | r in q ensures r in q' {}
  }

  lemma EnqueueControl(cfg: Config, s: System, kind: AuxKind)
    requires ControlOk(cfg, s.aux, s.worker, s.pc, s.ctl, s.dev)
    requires kind == Destroy ==> s.ctl.pc.NoCall? && s.ctl.terminated && !s.ctl.suspended
    ensures ControlOk(cfg, s.aux.(made := s.aux.made + [Aux(kind, s.cmds.count)]), s.worker, s.pc, s.ctl, s.dev)
  {
    var made := s.aux.made + [Aux(kind, s.cmds.count)];
    forall id | 0 <= id < |s.aux.made| ensures made[id] == s.aux.made[id] {}
  }

  lemma KeepsEnqueueAux(cfg: Config, s: System, kind: AuxKind)
    requires Inv(cfg, s) && kind != BatchSync
    requires s.seen.otherEnqueue || kind == WaitAll
    requires kind == Destroy ==> s.ctl.pc.NoCall? && s.ctl.terminated && !s.ctl.suspended
    ensures Inv(cfg, EnqueueAux(s, kind))
  {
    hide LogInv, FeedInv, AuxInv, ThreadInv, DeviceInv, ControlOk;
    var s' := EnqueueAux(s, kind);
    EnqueueControl(cfg, s, kind);
    EnqueueFeed(s.cmds, s.buf.queue, s.pc, |s.aux.made|);
    EnqueueAuxiliary(s.cmds, s.aux, s.buf.queue, s.buf.last, s.pc, kind);
  }

  // ----- taking a command from the buffer -----

  lemma TakeFeed(c: Commands, q: seq<Ref>, pc: WorkerPc, pc': WorkerPc)
    requires FeedInv(c, q, pc) && q != [] && !Holds(pc)
    requires pc' == if q[0].HwRef? then Entering(q[0].index) else AuxEntering(q[0].id)
    ensures FeedInv(c, q[1..], pc')
  {
    assert q == [q[0]] + q[1..];
  }

  lemma TakeAux(c: Commands, a: Auxiliary, q: seq<Ref>, last: Ref, pc: WorkerPc, pc': WorkerPc)
    requires AuxInv(c, a, q, last, pc) && q != [] && !Handles(pc)
    requires pc' == if q[0].HwRef? then Entering(q[0].index) else AuxEntering(q[0].id)
    ensures AuxInv(c, a, q[1..], last, pc')
  {
    assert q == [q[0]] + q[1..];
  }

  lemma KeepsTake(cfg: Config, s: System)
    requires Inv(cfg, s) && s.buf.queue != [] && (s.pc.Fetching? || s.pc.WaitingForCommand?)
    ensures Inv(cfg, Take(s))
  {
    hide LogInv, FeedInv, AuxInv, DeviceInv;
    var s' := Take(s);
    TakeFeed(s.cmds, s.buf.queue, s.pc, s'.pc);
    TakeAux(s.cmds, s.aux, s.buf.queue, s.buf.last, s.pc, s'.pc);
  }

  lemma GenerateAux(c: Commands, a: Auxiliary, last: Ref, kind: AuxKind)
    requires AuxInv(c, a, [], last, Fetching) && (kind == WaitAll || kind == BatchSync)
    requires FeedInv(c, [], Fetching)
    ensures FeedInv(c, [], AuxEntering(|a.made|))
    ensures AuxInv(c, a.(made := a.made + [Aux(kind, c.count)]), [], AuxRef(|a.made|), AuxEntering(|a.made|))
  {
  }

  lemma StartWaiting(c: Commands, a: Auxiliary, last: Ref)
    requires AuxInv(c, a, [], last, Fetching) && FeedInv(c, [], Fetching)
    ensures AuxInv(c, a, [], last, WaitingForCommand) && FeedInv(c, [], WaitingForCommand)
  {
  }

  lemma KeepsFetch(cfg: Config, s: System)
    requires Inv(cfg, s) && s.pc.Fetching?
    ensures Inv(cfg, DoFetch(s))
  {
    hide LogInv, FeedInv, AuxInv, DeviceInv;
    if s.buf.queue != [] {
      KeepsTake(cfg, s);
    } else if IsWaitAll(s.aux, s.buf.last) {
      StartWaiting(s.cmds, s.aux, s.buf.last);
    } else {
      var s' := DoFetch(s);
      GenerateAux(s.cmds, s.aux, s.buf.last, s'.aux.made[|s.aux.made|].kind);
    }
  }

  // ----- popping the logs -----

  /** A prefix of the log has been marked done and removed from both logs. */
  ghost predicate Popped(c: Commands, w: Worker, c': Commands, w': Worker) {
    && w' == w.(log := w'.log, syncLog := w'.syncLog, state := w'.state, dropIdx := w'.dropIdx)
    && c' == c.(done := c'.done, dropped := c'.dropped)
    && Increasing(w'.log) && Increasing(w'.syncLog) && |w'.log| <= |w.log|
    && (forall x :: x in w'.log <==> x in w.log && x !in c'.done)
    && (forall x :: x in w'.syncLog <==> x in w.syncLog && x !in c'.done)
    && c.done <= c'.done
    && (forall x :: x in c'.done ==> x in c.done || x in w.log)
    && (forall x, y :: x in w.log && y in w.log && x < y && y in c'.done ==> x in c'.done)
    && (forall x :: x in w.log && x in c'.done ==> |w'.log| < |w.log|)
  }

  lemma PopIsPopped(cfg: Config, s: System, t: Target)
    requires LogInv(cfg, s.cmds, s.worker)
    ensures Popped(s.cmds, s.worker, Pop(s, t).cmds, Pop(s, t).worker)
    ensures forall x :: x in s.worker.log ==>
              (x in Pop(s, t).cmds.done <==> t.AllCommands? || x <= t.index)
  {
    var log := s.worker.log;
    match t
    case AllCommands =>
    case OneCommand(c) =>
      PopThroughKeepsLater(log, c);
      PopThroughKeepsLater(s.worker.syncLog, c);
      var k := CutPoint(log, c);
      forall x | x in log
        ensures x in log[..k] <==> x <= c
      {
        var i :| 0 <= i < |log| && log[i] == x;
        if x <= c { assert log[..k][i] == x; }
      }
  }

  lemma PoppedLogs(cfg: Config, c: Commands, w: Worker, c': Commands, w': Worker)
    requires LogInv(cfg, c, w) && Popped(c, w, c', w')
    requires c'.dropped <= c.dropped + (c'.done - c.done)
    ensures LogInv(cfg, c', w')
  {
    assert AllSynchronizable(c') ==> AllSynchronizable(c);
  }

  lemma PoppedFeed(cfg: Config, c: Commands, w: Worker, c': Commands, w': Worker, q: seq<Ref>, pc: WorkerPc)
    requires FeedInv(c, q, pc) && LogInv(cfg, c, w) && Popped(c, w, c', w')
    ensures FeedInv(c', q, pc)
  {
  }

  lemma PoppedAux(c: Commands, w: Worker, c': Commands, w': Worker, a: Auxiliary, q: seq<Ref>, last: Ref, pc: WorkerPc)
    requires AuxInv(c, a, q, last, pc) && Popped(c, w, c', w')
    ensures AuxInv(c', a, q, last, pc)
  {
  }

  lemma PoppedThreads(cfg: Config, c: Commands, w: Worker, c': Commands, w': Worker, trace: seq<int>, pc: WorkerPc,
                      apps: map<nat, Sync>)
    requires ThreadInv(cfg, c, w, trace, pc, apps) && LogInv(cfg, c, w) && Popped(c, w, c', w')
    requires w'.state.Paused? ==> w.state.Paused?
    ensures ThreadInv(cfg, c', w', trace, pc, apps)
  {
  }

  lemma PoppedDevice(c: Commands, w: Worker, c': Commands, w': Worker, ctl: Control, dev: Device)
    requires DeviceInv(c, w, ctl, dev) && Popped(c, w, c', w') && !ctl.pc.Drained?
    requires forall x :: x in w.log && x in c'.done ==> x in dev.trace || x in c'.dropped
    requires c.dropped <= c'.dropped
    ensures DeviceInv(c', w', ctl, dev)
  {
  }

  lemma PoppedPast(c: Commands, w: Worker, c': Commands, w': Worker, a: Auxiliary, pc: WorkerPc, apps: map<nat, Sync>,
                   ctl: Control, launches: seq<Launch>, seen: Seen)
    requires PastInv(c, a, w, pc, apps, ctl, launches, seen) && Popped(c, w, c', w')
    requires !ctl.pc.DroppingLogs? && c'.dropped == c.dropped && w'.dropIdx == w.dropIdx
    requires seen.appSync || !pc.Draining?
    ensures PastInv(c', a, w', pc, apps, ctl, launches, seen)
  {
  }

  /** A pop that no pause interrupted keeps the invariant. */
  lemma KeepsPop(cfg: Config, s: System, t: Target)
    requires Inv(cfg, s) && !s.worker.state.Paused?
    requires forall y :: y in s.worker.log && (t.AllCommands? || y <= t.index) ==> y in s.dev.trace
    requires s.seen.appSync || !s.pc.Draining?
    ensures Inv(cfg, Pop(s, t))
    ensures Popped(s.cmds, s.worker, Pop(s, t).cmds, Pop(s, t).worker)
    ensures forall x :: x in s.worker.log ==>
              (x in Pop(s, t).cmds.done <==> t.AllCommands? || x <= t.index)
  {
    hide LogInv, FeedInv, AuxInv, ThreadInv, DeviceInv, PastInv;
    var s' := Pop(s, t);
    PopIsPopped(cfg, s, t);
    PoppedLogs(cfg, s.cmds, s.worker, s'.cmds, s'.worker);
    PoppedFeed(cfg, s.cmds, s.worker, s'.cmds, s'.worker, s.buf.queue, s.pc);
    PoppedAux(s.cmds, s.worker, s'.cmds, s'.worker, s.aux, s.buf.queue, s.buf.last, s.pc);
    PoppedThreads(cfg, s.cmds, s.worker, s'.cmds, s'.worker, s.dev.trace, s.pc, s.apps);
    PoppedDevice(s.cmds, s.worker, s'.cmds, s'.worker, s.ctl, s.dev);
    PoppedPast(s.cmds, s.worker, s'.cmds, s'.worker, s.aux, s.pc, s.apps, s.ctl, s.launches, s.seen);
  }

  // ----- launching the held command -----

  lemma LaunchLogs(cfg: Config, s: System, h: int)
    requires LogInv(cfg, s.cmds, s.worker) && FeedInv(s.cmds, s.buf.queue, s.pc)
    requires s.pc == AwaitingRunning(h) && |s.worker.log| < cfg.threshold
    ensures SetsOk(LaunchHeld(cfg, s, h).cmds)
    ensures LogsOk(cfg, LaunchHeld(cfg, s, h).cmds, LaunchHeld(cfg, s, h).worker)
  {
    if h > s.worker.dropIdx {
      IncreasingAppend(s.worker.log, h);
      IncreasingAppend(s.worker.syncLog, h);
    }
  }

  lemma LaunchOrder(cfg: Config, s: System, h: int)
    requires LogInv(cfg, s.cmds, s.worker) && FeedInv(s.cmds, s.buf.queue, s.pc)
    requires s.pc == AwaitingRunning(h)
    requires ThreadInv(cfg, s.cmds, s.worker, s.dev.trace, s.pc, s.apps)
    ensures OrderOk(cfg, LaunchHeld(cfg, s, h).cmds, LaunchHeld(cfg, s, h).worker)
  {
    hide BatchOk;
    assert forall x :: x in s.worker.log + [h] <==> x in s.worker.log || x == h;
  }

  lemma LaunchBatch(cfg: Config, s: System, h: int)
    requires LogInv(cfg, s.cmds, s.worker) && FeedInv(s.cmds, s.buf.queue, s.pc)
    requires s.pc == AwaitingRunning(h)
    requires ThreadInv(cfg, s.cmds, s.worker, s.dev.trace, s.pc, s.apps)
    ensures BatchOk(cfg, LaunchHeld(cfg, s, h).cmds, LaunchHeld(cfg, s, h).worker)
  {
    hide OrderOk;
    var s' := LaunchHeld(cfg, s, h);
    assert forall x :: x in s.worker.log + [h] <==> x in s.worker.log || x == h;
    assert AllSynchronizable(s'.cmds) ==> AllSynchronizable(s.cmds);
  }

  lemma LaunchFeed(cfg: Config, s: System, h: int)
    requires FeedInv(s.cmds, s.buf.queue, s.pc) && s.pc == AwaitingRunning(h)
    ensures FeedInv(LaunchHeld(cfg, s, h).cmds, s.buf.queue, Fetching)
  {
  }

  lemma LaunchAux(cfg: Config, s: System, h: int)
    requires AuxInv(s.cmds, s.aux, s.buf.queue, s.buf.last, s.pc) && s.pc == AwaitingRunning(h)
    ensures AuxInv(LaunchHeld(cfg, s, h).cmds, s.aux, s.buf.queue, s.buf.last, Fetching)
  {
  }

  lemma LaunchThreads(cfg: Config, s: System, h: int)
    requires FeedInv(s.cmds, s.buf.queue, s.pc) && s.pc == AwaitingRunning(h)
    requires ThreadInv(cfg, s.cmds, s.worker, s.dev.trace, s.pc, s.apps)
    ensures ThreadInv(cfg, LaunchHeld(cfg, s, h).cmds, LaunchHeld(cfg, s, h).worker, s.dev.trace, Fetching, s.apps)
  {
  }

  /** What follows something still does when something else is launched. */
  lemma FollowsAppend(pending: seq<int>, x: int, y: int, z: int)
    requires x != z && (y == z || Follows(pending, x, y))
    ensures Follows(pending + [z], x, y)
  {
    var p := pending + [z];
    forall i | 0 <= i < |p| && p[i] == x ensures y in p[i + 1..] {
      assert p[i + 1..] == pending[i + 1..] + [z];
    }
  }

  lemma LaunchPending(cfg: Config, s: System, h: int)
    requires FeedInv(s.cmds, s.buf.queue, s.pc) && s.pc == AwaitingRunning(h)
    requires LogInv(cfg, s.cmds, s.worker) && DeviceOk(s.cmds, s.worker, s.ctl, s.dev)
    ensures DeviceOk(LaunchHeld(cfg, s, h).cmds, LaunchHeld(cfg, s, h).worker, s.ctl, LaunchHeld(cfg, s, h).dev)
  {
    hide Follows, OrderOk, BatchOk;
    if h > s.worker.dropIdx {
      var t := LaunchHeld(cfg, s, h);
      assert forall x :: x in s.worker.log + [h] <==> x in s.worker.log || x == h;
      if s.ctl.pc.Drained? { IncreasingAppend(s.dev.pending, h); }
      if !DropPhase(s.ctl) && !s.dev.lossy {
        forall x, y | x in t.worker.log && y in t.worker.log && x < y && Relaunched(s.ctl, y)
          ensures Follows(t.dev.pending, x, y)
        {
          assert y == h || Follows(s.dev.pending, x, y);
          FollowsAppend(s.dev.pending, x, y, h);
        }
      }
    }
  }

  lemma LaunchTrace(cfg: Config, s: System, h: int)
    requires FeedInv(s.cmds, s.buf.queue, s.pc) && s.pc == AwaitingRunning(h)
    requires DeviceInv(s.cmds, s.worker, s.ctl, s.dev)
    ensures TraceOk(LaunchHeld(cfg, s, h).cmds, LaunchHeld(cfg, s, h).worker, s.ctl, LaunchHeld(cfg, s, h).dev)
    ensures TruthOk(LaunchHeld(cfg, s, h).cmds, LaunchHeld(cfg, s, h).dev)
  {
    hide Follows;
    if h > s.worker.dropIdx {
      assert forall x :: x in s.worker.log + [h] <==> x in s.worker.log || x == h;
      assert forall x :: x in s.dev.pending + [h] <==> x in s.dev.pending || x == h;
      assert forall i :: 0 <= i < |s.dev.pending| ==> s.dev.pending[i] in s.dev.pending;
    }
  }

  lemma LaunchDevice(cfg: Config, s: System, h: int)
    requires FeedInv(s.cmds, s.buf.queue, s.pc) && s.pc == AwaitingRunning(h)
    requires LogInv(cfg, s.cmds, s.worker) && DeviceInv(s.cmds, s.worker, s.ctl, s.dev)
    ensures DeviceInv(LaunchHeld(cfg, s, h).cmds, LaunchHeld(cfg, s, h).worker, s.ctl, LaunchHeld(cfg, s, h).dev)
  {
    LaunchPending(cfg, s, h);
    LaunchTrace(cfg, s, h);
    hide DeviceOk, TraceOk, TruthOk;
  }

  lemma LaunchPast(cfg: Config, s: System, h: int)
    requires FeedInv(s.cmds, s.buf.queue, s.pc) && s.pc == AwaitingRunning(h)
    requires PastInv(s.cmds, s.aux, s.worker, s.pc, s.apps, s.ctl, s.launches, s.seen)
    requires s.worker.state.Running? || s.seen.drop || s.seen.appSync
    requires s.ctl.pc.DroppingLogs? ==> h <= s.ctl.pc.dropIdx
    ensures var t := LaunchHeld(cfg, s, h);
            PastInv(t.cmds, t.aux, t.worker, t.pc, t.apps, t.ctl, t.launches, t.seen)
  {
  }

  lemma FreeSlot(cfg: Config, s: System)
    requires ThreadInv(cfg, s.cmds, s.worker, s.dev.trace, s.pc, s.apps) && s.pc.AwaitingRunning?
    ensures |s.worker.log| < cfg.threshold
  {
  }

  lemma LogInvParts(cfg: Config, s: System)
    requires SetsOk(s.cmds) && LogsOk(cfg, s.cmds, s.worker) && OrderOk(cfg, s.cmds, s.worker)
    requires BatchOk(cfg, s.cmds, s.worker)
    ensures LogInv(cfg, s.cmds, s.worker)
  {
  }

  lemma KeepsLaunchHeld(cfg: Config, s: System, h: int)
    requires Inv(cfg, s) && s.pc == AwaitingRunning(h)
    requires s.worker.state.Running? || s.seen.drop || s.seen.appSync
    requires s.ctl.pc.DroppingLogs? ==> h <= s.ctl.pc.dropIdx
    ensures Inv(cfg, LaunchHeld(cfg, s, h))
  {
    hide LogInv, FeedInv, AuxInv, ThreadInv, DeviceInv, PastInv;
    assert |s.worker.log| < cfg.threshold by { FreeSlot(cfg, s); }
    LaunchLogs(cfg, s, h);
    LaunchOrder(cfg, s, h);
    LaunchBatch(cfg, s, h);
    assert LogInv(cfg, LaunchHeld(cfg, s, h).cmds, LaunchHeld(cfg, s, h).worker) by { LogInvParts(cfg, LaunchHeld(cfg, s, h)); }
    LaunchFeed(cfg, s, h);
    LaunchAux(cfg, s, h);
    LaunchThreads(cfg, s, h);
    LaunchDevice(cfg, s, h);
    LaunchPast(cfg, s, h);
  }

  // ----- moving the worker between the parts of a launch -----

  /** Only where the worker stands changes, and it still holds the same command. */
  lemma MoveHolder(cfg: Config, s: System, pc: WorkerPc)
    requires Inv(cfg, s) && Holds(s.pc) && Holds(pc) && pc.held == s.pc.held
    requires ThreadInv(cfg, s.cmds, s.worker, s.dev.trace, pc, s.apps)
    requires PastInv(s.cmds, s.aux, s.worker, pc, s.apps, s.ctl, s.launches, s.seen)
    ensures Inv(cfg, s.(pc := pc))
  {
    hide LogInv, ThreadInv, DeviceInv, PastInv;
  }

  /** A holder may always be put back to the start of its launch. */
  lemma BackToEntering(cfg: Config, s: System)
    requires Inv(cfg, s) && Holds(s.pc)
    ensures Inv(cfg, s.(pc := Entering(s.pc.held)))
  {
    MoveHolder(cfg, s, Entering(s.pc.held));
  }

  lemma EnteringToChecking(cfg: Config, s: System)
    requires Inv(cfg, s) && s.pc.Entering?
    requires cfg.level != Block && Plain(s.cmds, s.pc.held) ==> NoDeactivatable(s.cmds, s.worker)
    ensures Inv(cfg, s.(pc := CheckingFull(s.pc.held)))
  {
    MoveHolder(cfg, s, CheckingFull(s.pc.held));
  }

  lemma EnteringToAwaiting(cfg: Config, s: System)
    requires Inv(cfg, s) && s.pc.Entering?
    requires cfg.level != Block && Plain(s.cmds, s.pc.held) ==> NoDeactivatable(s.cmds, s.worker)
    requires |s.worker.log| < cfg.threshold
    ensures Inv(cfg, s.(pc := AwaitingRunning(s.pc.held)))
  {
    MoveHolder(cfg, s, AwaitingRunning(s.pc.held));
  }

  lemma KeepsEnter(cfg: Config, s: System)
    requires Inv(cfg, s) && s.pc.Entering?
    ensures Inv(cfg, DoEnter(cfg, s))
  {
    var c, w := s.cmds, s.worker;
    assert ScanIsRight(w.log, c.deactivatable, c.synchronizable, ScanLog(s)) by {
      ScanBackIsRight(w.log, |w.log|, c.deactivatable, c.synchronizable, None);
    }
    hide FeedInv, AuxInv, DeviceInv, PastInv, ScanBack, BatchOk;
    MoveHolder(cfg, s, DoEnter(cfg, s).pc);
  }

  lemma KeepsCheckFull(cfg: Config, s: System)
    requires Inv(cfg, s) && s.pc.CheckingFull?
    ensures Inv(cfg, DoCheckFull(cfg, s))
  {
    var w := s.worker;
    if |w.log| >= cfg.threshold {
      forall x | x in w.syncLog ensures x >= w.log[0] {
        var i :| 0 <= i < |w.log| && w.log[i] == x;
      }
      SlotCommandIsOldest(w.syncLog, w.log[0]);
      if w.syncLog != [] { assert w.syncLog[0] in w.syncLog; }
    }
    MoveHolder(cfg, s, DoCheckFull(cfg, s).pc);
  }

  // ----- the worker's synchronizations -----

  /** What the worker knows when a synchronization made while holding a command returns. */
  ghost predicate SyncedPast(s: System, t: Target) {
    match t
    case AllCommands => s.worker.log == []
    case OneCommand(x) => x in s.cmds.launched && x !in s.worker.log
  }

  ghost predicate MayLaunch(s: System, h: int) {
    && (s.worker.state.Running? || s.seen.drop || s.seen.appSync)
    && (s.ctl.pc.DroppingLogs? ==> h <= s.ctl.pc.dropIdx)
  }

  lemma ContinueLaunch(cfg: Config, s: System, full: bool)
    requires Inv(cfg, s) && s.pc.Entering?
    requires cfg.level != Block && Plain(s.cmds, s.pc.held) ==> NoDeactivatable(s.cmds, s.worker)
    requires full ==> |s.worker.log| < cfg.threshold && MayLaunch(s, s.pc.held)
    ensures if full then Inv(cfg, LaunchHeld(cfg, s, s.pc.held)) else Inv(cfg, s.(pc := CheckingFull(s.pc.held)))
  {
    hide LogInv, FeedInv, AuxInv, ThreadInv, DeviceInv, PastInv, ControlOk;
    var h := s.pc.held;
    if full {
      EnteringToAwaiting(cfg, s);
      KeepsLaunchHeld(cfg, s.(pc := AwaitingRunning(h)), h);
      assert LaunchHeld(cfg, s, h) == LaunchHeld(cfg, s.(pc := AwaitingRunning(h)), h);
    } else {
      EnteringToChecking(cfg, s);
    }
  }

  /** The command waited for was completed by someone else: what that means for the held one. */
  lemma FoundDone(cfg: Config, s: System)
    requires Inv(cfg, s) && s.pc.Draining? && Check(s, s.pc.sync).Returns?
    ensures SyncedPast(s, s.pc.sync.target) && MayLaunch(s, s.pc.held)
    ensures cfg.level != Block && Plain(s.cmds, s.pc.held) ==> NoDeactivatable(s.cmds, s.worker)
    ensures s.pc.full ==> |s.worker.log| < cfg.threshold
  {
    hide FeedInv, AuxInv, DeviceInv;
  }

  lemma BackToAuxEntering(cfg: Config, s: System)
    requires Inv(cfg, s) && s.pc.AuxSyncing?
    ensures Inv(cfg, s.(pc := AuxEntering(s.pc.id)))
  {
    hide LogInv, DeviceInv;
  }

  lemma FinishBarrier(c: Commands, w: Worker, a: Auxiliary, q: seq<Ref>, last: Ref, pc: WorkerPc)
    requires AuxInv(c, a, q, last, pc) && pc.AuxEntering?
    requires FeedInv(c, q, pc) && (forall x :: x in c.launched && x !in w.log ==> x in c.done)
    requires a.made[pc.id].kind != BatchSync ==> w.log == []
    ensures AuxInv(c, a, q, last, AuxFinishing(pc.id)) && FeedInv(c, q, AuxFinishing(pc.id))
  {
  }

  lemma FinishAux(cfg: Config, s: System, s': System)
    requires Inv(cfg, s) && s.pc.AuxEntering? && s.pc.id < |s.aux.made|
    requires s.aux.made[s.pc.id].kind != BatchSync ==> s.worker.log == [] && !s.worker.state.Paused?
    requires s' == s.(pc := AuxFinishing(s.pc.id),
                      worker := if s.aux.made[s.pc.id].kind == Destroy then s.worker.(state := Terminated) else s.worker)
    ensures Inv(cfg, s')
  {
    hide AuxInv, FeedInv, DeviceInv;
    FinishBarrier(s.cmds, s.worker, s.aux, s.buf.queue, s.buf.last, s.pc);
    FinishDevice(s.cmds, s.worker, s'.worker, s.ctl, s.dev);
  }

  lemma FinishDevice(c: Commands, w: Worker, w': Worker, ctl: Control, dev: Device)
    requires DeviceInv(c, w, ctl, dev) && w'.log == w.log
    ensures DeviceInv(c, w', ctl, dev)
  {
  }

  lemma HandledId(s: System)
    requires AuxInv(s.cmds, s.aux, s.buf.queue, s.buf.last, s.pc) && Handles(s.pc)
    ensures s.pc.id < |s.aux.made|
    ensures s.pc.AuxSyncing? ==> (s.pc.sync.target.OneCommand? <==> s.aux.made[s.pc.id].kind == BatchSync)
  {
  }

  /** Only the phase of the worker's synchronization changes. */
  lemma MoveSync(cfg: Config, s: System, sync: Sync)
    requires Inv(cfg, s) && WorkerSyncing(s) && sync.target == s.pc.sync.target
    requires SyncOk(s.cmds, s.worker, s.dev.trace, sync)
    ensures Inv(cfg, s.(pc := SetWorkerSync(s.pc, sync)))
  {
    hide LogInv, DeviceInv;
    MoveSyncQueues(s, sync);
    hide FeedInv, AuxInv;
  }

  lemma MoveSyncQueues(s: System, sync: Sync)
    requires FeedInv(s.cmds, s.buf.queue, s.pc) && AuxInv(s.cmds, s.aux, s.buf.queue, s.buf.last, s.pc)
    requires WorkerSyncing(s) && sync.target == s.pc.sync.target
    ensures FeedInv(s.cmds, s.buf.queue, SetWorkerSync(s.pc, sync))
    ensures AuxInv(s.cmds, s.aux, s.buf.queue, s.buf.last, SetWorkerSync(s.pc, sync))
  {
  }

  /** Going to the hardware: the pause count is remembered while the worker runs. */
  lemma HardwareSyncOk(c: Commands, w: Worker, trace: seq<int>, sync: Sync)
    requires SyncOk(c, w, trace, sync) && w.state.Running?
    requires sync.target.OneCommand? ==> sync.target.index !in c.done
    ensures SyncOk(c, w, trace, Sync(sync.target, OnHardware(w.pauseCount, false)))
  {
  }

  lemma WorkerSyncFact(cfg: Config, s: System)
    requires ThreadInv(cfg, s.cmds, s.worker, s.dev.trace, s.pc, s.apps) && WorkerSyncing(s)
    ensures SyncOk(s.cmds, s.worker, s.dev.trace, s.pc.sync)
  {
  }

  lemma KeepsWorkerCheck(cfg: Config, s: System)
    requires Inv(cfg, s) && WorkerSyncing(s) && s.pc.sync.phase.Checking? && !Check(s, s.pc.sync).Blocked?
    ensures Inv(cfg, DoWorkerCheck(cfg, s))
  {
    hide LogInv, FeedInv, AuxInv, ThreadInv, DeviceInv, PastInv;
    if Check(s, s.pc.sync).GoesToHardware? {
      WorkerSyncFact(cfg, s);
      HardwareSyncOk(s.cmds, s.worker, s.dev.trace, s.pc.sync);
      MoveSync(cfg, s, Check(s, s.pc.sync).sync);
    } else if s.pc.Draining? {
      FoundDone(cfg, s);
      BackToEntering(cfg, s);
      ContinueLaunch(cfg, s.(pc := Entering(s.pc.held)), s.pc.full);
    } else {
      HandledId(s);
      BackToAuxEntering(cfg, s);
      FoundAuxDone(cfg, s);
      FinishAux(cfg, s.(pc := AuxEntering(s.pc.id)), DoWorkerCheck(cfg, s));
    }
  }

  lemma FoundAuxDone(cfg: Config, s: System)
    requires Inv(cfg, s) && s.pc.AuxSyncing? && Check(s, s.pc.sync).Returns?
    ensures s.pc.id < |s.aux.made|
    ensures s.pc.sync.target.AllCommands? ==> !s.worker.state.Paused? && s.worker.log == []
  {
  }

  /** The heart of the completion argument: when the hardware call returns and no pause
      has come in between, everything the caller is about to pop has run. */
  lemma ReturnedMeansRun(c: Commands, w: Worker, ctl: Control, dev: Device, t: Target)
    requires DeviceInv(c, w, ctl, dev) && !DropPhase(ctl) && !dev.lossy && !ctl.pc.Relaunching?
    requires forall x, y :: x in c.launched && x !in w.log && y in w.log ==> x < y
    requires t.OneCommand? ==> t.index in c.launched
    requires HardwareReturns(dev, t)
    ensures forall y :: y in w.log && (t.AllCommands? || y <= t.index) ==> y in dev.trace
  {
    forall y | y in w.log && (t.AllCommands? || y <= t.index)
      ensures y in dev.trace
    {
      if t.OneCommand? && t.index in w.log && y != t.index {
        assert Follows(dev.pending, y, t.index);
      }
    }
  }

  lemma ReturnedSyncOk(cfg: Config, s: System, sync: Sync)
    requires Inv(cfg, s) && SyncOk(s.cmds, s.worker, s.dev.trace, sync)
    requires sync.phase.OnHardware? && HardwareReturns(s.dev, sync.target)
    ensures SyncOk(s.cmds, s.worker, s.dev.trace, MarkReturned(sync))
  {
    hide FeedInv, AuxInv, ThreadInv, PastInv, DeviceInv;
    if sync.phase.pauses == s.worker.pauseCount {
      assert !s.worker.state.Paused?;
      ReturnedMeansRun(s.cmds, s.worker, s.ctl, s.dev, sync.target);
    }
  }

  lemma KeepsWorkerReturn(cfg: Config, s: System)
    requires Inv(cfg, s) && Enabled(cfg, s, WorkerReturn)
    ensures Inv(cfg, Apply(cfg, s, WorkerReturn))
  {
    hide LogInv, FeedInv, AuxInv, ThreadInv, DeviceInv, PastInv;
    WorkerSyncFact(cfg, s);
    ReturnedSyncOk(cfg, s, s.pc.sync);
    MoveSync(cfg, s, MarkReturned(s.pc.sync));
  }

  /** What popping gives a worker that holds a command. */
  lemma PoppedForHeld(cfg: Config, s: System, s': System)
    requires LogInv(cfg, s.cmds, s.worker) && s.pc.Draining?
    requires ThreadInv(cfg, s.cmds, s.worker, s.dev.trace, s.pc, s.apps)
    requires Popped(s.cmds, s.worker, s'.cmds, s'.worker)
    requires forall x :: x in s.worker.log ==>
               (x in s'.cmds.done <==> s.pc.sync.target.AllCommands? || x <= s.pc.sync.target.index)
    ensures cfg.level != Block && Plain(s'.cmds, s.pc.held) ==> NoDeactivatable(s'.cmds, s'.worker)
    ensures cfg.threshold >= 1 && s.pc.full ==> |s'.worker.log| < cfg.threshold
  {
    assert s'.worker.log == [] || s'.worker.log[0] in s'.worker.log;
  }

  /** The worker has waited for what its launch needs, and goes on with the launch. */
  lemma KeepsRelockDrained(cfg: Config, s: System)
    requires Inv(cfg, s) && Enabled(cfg, s, WorkerRelock) && s.pc.Draining? && s.pc.sync.phase.pauses == s.worker.pauseCount
    ensures Inv(cfg, Apply(cfg, s, WorkerRelock))
  {
    hide LogInv, FeedInv, AuxInv, ThreadInv, DeviceInv, PastInv;
    var t, h := s.pc.sync.target, s.pc.held;
    WorkerSyncFact(cfg, s);
    BackToEntering(cfg, s);
    var s1 := s.(pc := Entering(h));
    KeepsPop(cfg, s1, t);
    PoppedForHeld(cfg, s, Pop(s1, t));
    assert Pop(s1, t) == Pop(s, t).(pc := Entering(h));
    ContinueLaunch(cfg, Pop(s1, t), s.pc.full);
    assert LaunchHeld(cfg, Pop(s, t), h) == LaunchHeld(cfg, Pop(s1, t), h);
  }

  lemma KeepsWorkerRelock(cfg: Config, s: System)
    requires Inv(cfg, s) && Enabled(cfg, s, WorkerRelock)
    ensures Inv(cfg, Apply(cfg, s, WorkerRelock))
  {
    hide LogInv, FeedInv, AuxInv, ThreadInv, DeviceInv, PastInv;
    var t := s.pc.sync.target;
    WorkerSyncFact(cfg, s);
    if s.pc.sync.phase.pauses != s.worker.pauseCount {
      RetrySyncOk(cfg, s, s.pc.sync);
      MoveSync(cfg, s, Sync(t, Checking));
    } else if s.pc.Draining? {
      KeepsRelockDrained(cfg, s);
    } else {
      HandledId(s);
      BackToAuxEntering(cfg, s);
      var s1 := s.(pc := AuxEntering(s.pc.id));
      KeepsPop(cfg, s1, t);
      assert Pop(s1, t) == Pop(s, t).(pc := s1.pc);
      FinishAux(cfg, Pop(s1, t), DoWorkerRelock(cfg, s));
    }
  }

  lemma RetrySyncOk(cfg: Config, s: System, sync: Sync)
    requires SyncOk(s.cmds, s.worker, s.dev.trace, sync)
    ensures SyncOk(s.cmds, s.worker, s.dev.trace, Sync(sync.target, Checking))
  {
  }

  lemma KeepsAuxEnter(cfg: Config, s: System)
    requires Inv(cfg, s) && s.pc.AuxEntering?
    ensures Inv(cfg, DoAuxEnter(s))
  {
    hide LogInv, FeedInv, DeviceInv, AuxInv, ThreadInv;
    HandledId(s);
    AuxEnterFeed(cfg, s);
    AuxEnterThreads(cfg, s);
  }

  lemma AuxEnterFeed(cfg: Config, s: System)
    requires FeedInv(s.cmds, s.buf.queue, s.pc) && AuxInv(s.cmds, s.aux, s.buf.queue, s.buf.last, s.pc) && s.pc.AuxEntering?
    ensures FeedInv(s.cmds, s.buf.queue, DoAuxEnter(s).pc)
    ensures AuxInv(s.cmds, s.aux, s.buf.queue, s.buf.last, DoAuxEnter(s).pc)
  {
  }

  lemma AuxEnterThreads(cfg: Config, s: System)
    requires LogInv(cfg, s.cmds, s.worker) && ThreadInv(cfg, s.cmds, s.worker, s.dev.trace, s.pc, s.apps)
    requires s.pc.AuxEntering?
    ensures ThreadInv(cfg, s.cmds, s.worker, s.dev.trace, DoAuxEnter(s).pc, s.apps)
  {
    if s.worker.syncLog != [] { assert s.worker.syncLog[0] in s.worker.syncLog; }
  }

  lemma AuxFinishQueues(s: System)
    requires FeedInv(s.cmds, s.buf.queue, s.pc) && AuxInv(s.cmds, s.aux, s.buf.queue, s.buf.last, s.pc)
    requires s.pc.AuxFinishing?
    ensures FeedInv(s.cmds, s.buf.queue, DoAuxFinish(s).pc)
    ensures AuxInv(s.cmds, DoAuxFinish(s).aux, s.buf.queue, s.buf.last, DoAuxFinish(s).pc)
  {
  }

  lemma KeepsAuxFinish(cfg: Config, s: System)
    requires Inv(cfg, s) && s.pc.AuxFinishing?
    ensures Inv(cfg, DoAuxFinish(s))
  {
    hide LogInv, DeviceInv;
    AuxFinishQueues(s);
    HandledId(s);
    hide AuxInv, FeedInv;
  }

  // ----- application threads -----

  lemma MoveApp(cfg: Config, s: System, t: nat, sync: Sync)
    requires Inv(cfg, s) && s.seen.appSync && sync.target.OneCommand?
    requires SyncOk(s.cmds, s.worker, s.dev.trace, sync)
    ensures Inv(cfg, s.(apps := s.apps[t := sync]))
  {
    hide LogInv, FeedInv, AuxInv, DeviceInv, ControlOk;
  }

  lemma EndApp(cfg: Config, s: System, t: nat)
    requires Inv(cfg, s)
    ensures Inv(cfg, s.(apps := s.apps - {t}))
  {
    hide LogInv, FeedInv, AuxInv, DeviceInv, ControlOk;
    assert s.apps == map[] ==> s.apps - {t} == map[];
  }

  lemma AppFact(cfg: Config, s: System, t: nat)
    requires Inv(cfg, s) && t in s.apps
    ensures s.seen.appSync && s.apps[t].target.OneCommand?
    ensures SyncOk(s.cmds, s.worker, s.dev.trace, s.apps[t])
  {
    hide LogInv, FeedInv, AuxInv, DeviceInv, ControlOk;
  }

  lemma KeepsAppStart(cfg: Config, s: System, t: nat, x: int)
    requires Inv(cfg, s) && Enabled(cfg, s, AppStart(t, x))
    ensures Inv(cfg, Apply(cfg, s, AppStart(t, x)))
  {
    hide LogInv, FeedInv, AuxInv, DeviceInv, ControlOk;
  }

  lemma KeepsAppCheck(cfg: Config, s: System, t: nat)
    requires Inv(cfg, s) && Enabled(cfg, s, AppCheck(t))
    ensures Inv(cfg, Apply(cfg, s, AppCheck(t)))
  {
    hide LogInv, FeedInv, AuxInv, ThreadInv, DeviceInv, PastInv, ControlOk;
    AppFact(cfg, s, t);
    if Check(s, s.apps[t]).GoesToHardware? {
      HardwareSyncOk(s.cmds, s.worker, s.dev.trace, s.apps[t]);
      MoveApp(cfg, s, t, Check(s, s.apps[t]).sync);
    } else {
      EndApp(cfg, s, t);
    }
  }

  lemma KeepsAppReturn(cfg: Config, s: System, t: nat)
    requires Inv(cfg, s) && Enabled(cfg, s, AppReturn(t))
    ensures Inv(cfg, Apply(cfg, s, AppReturn(t)))
  {
    hide LogInv, FeedInv, AuxInv, ThreadInv, DeviceInv, PastInv, ControlOk;
    AppFact(cfg, s, t);
    ReturnedSyncOk(cfg, s, s.apps[t]);
    MoveApp(cfg, s, t, MarkReturned(s.apps[t]));
  }

  lemma KeepsAppRelock(cfg: Config, s: System, t: nat)
    requires Inv(cfg, s) && Enabled(cfg, s, AppRelock(t))
    ensures Inv(cfg, Apply(cfg, s, AppRelock(t)))
  {
    hide LogInv, FeedInv, AuxInv, ThreadInv, DeviceInv, PastInv, ControlOk;
    AppFact(cfg, s, t);
    if s.apps[t].phase.pauses == s.worker.pauseCount {
      KeepsPop(cfg, s, s.apps[t].target);
      EndApp(cfg, Pop(s, s.apps[t].target), t);
    } else {
      RetrySyncOk(cfg, s, s.apps[t]);
      MoveApp(cfg, s, t, Sync(s.apps[t].target, Checking));
    }
  }

  // ----- suspend and resume -----

  lemma KeepsSuspendBegin(cfg: Config, s: System)
    requires Inv(cfg, s) && Enabled(cfg, s, SuspendBegin)
    ensures Inv(cfg, Apply(cfg, s, SuspendBegin))
  {
    hide LogInv, FeedInv, AuxInv, ThreadInv;
  }

  lemma SameLogs(cfg: Config, c: Commands, w: Worker, w': Worker)
    requires LogInv(cfg, c, w)
    requires w'.log == w.log && w'.syncLog == w.syncLog && w'.lastSync == w.lastSync
    ensures LogInv(cfg, c, w')
  {
  }

  lemma SameLogDevice(c: Commands, w: Worker, w': Worker, ctl: Control, ctl': Control, dev: Device)
    requires DeviceInv(c, w, ctl, dev) && w'.log == w.log && (DropPhase(ctl) <==> DropPhase(ctl'))
    requires !ctl.pc.Relaunching? && !ctl'.pc.Drained? && !ctl'.pc.Relaunching?
    ensures DeviceInv(c, w', ctl', dev)
  {
  }

  lemma PausedThreads(cfg: Config, c: Commands, w: Worker, w': Worker, trace: seq<int>, pc: WorkerPc, apps: map<nat, Sync>)
    requires ThreadInv(cfg, c, w, trace, pc, apps)
    requires w' == w.(state := Paused, pauseCount := w.pauseCount + 1)
    ensures ThreadInv(cfg, c, w', trace, pc, apps)
  {
  }

  lemma KeepsPauseWorker(cfg: Config, s: System)
    requires Inv(cfg, s) && Enabled(cfg, s, PauseWorker)
    ensures Inv(cfg, Apply(cfg, s, PauseWorker))
  {
    hide LogInv, FeedInv, AuxInv, ThreadInv, DeviceInv;
    var s' := DoPause(cfg, s);
    SameLogs(cfg, s.cmds, s.worker, s'.worker);
    SameLogDevice(s.cmds, s.worker, s'.worker, s.ctl, s'.ctl, s.dev);
    PausedThreads(cfg, s.cmds, s.worker, s'.worker, s.dev.trace, s.pc, s.apps);
  }

  lemma KeepsDeactivateDevice(cfg: Config, s: System)
    requires Inv(cfg, s) && Enabled(cfg, s, DeactivateDevice)
    ensures Inv(cfg, Apply(cfg, s, DeactivateDevice))
  {
    hide LogInv, FeedInv, AuxInv, ThreadInv;
  }

  lemma KeepsResumeBegin(cfg: Config, s: System, drop: bool)
    requires Inv(cfg, s) && Enabled(cfg, s, ResumeBegin(drop))
    ensures Inv(cfg, Apply(cfg, s, ResumeBegin(drop)))
  {
    hide LogInv, FeedInv, AuxInv, ThreadInv;
  }

  lemma KeepsUnstallDevice(cfg: Config, s: System)
    requires Inv(cfg, s) && Enabled(cfg, s, UnstallDevice)
    ensures Inv(cfg, Apply(cfg, s, UnstallDevice))
  {
    hide LogInv, FeedInv, AuxInv, ThreadInv, Follows;
  }

  lemma KeepsDrainDevice(cfg: Config, s: System)
    requires Inv(cfg, s) && Enabled(cfg, s, DrainDevice)
    ensures Inv(cfg, Apply(cfg, s, DrainDevice))
  {
    hide LogInv, FeedInv, AuxInv, ThreadInv;
  }

  lemma ReactivatedPending(cfg: Config, s: System)
    requires LogInv(cfg, s.cmds, s.worker) && DeviceOk(s.cmds, s.worker, s.ctl, s.dev) && s.ctl.pc.Drained?
    ensures DeviceOk(s.cmds, s.worker, DoReactivate(s).ctl, DoReactivate(s).dev)
  {
    var s', log := DoReactivate(s), s.worker.log;
    hide OrderOk, BatchOk, Follows;
    if s'.ctl.pc.Relaunching? {
      assert s'.ctl.pc.next in log;
      BeforeFirstLost(log, s.dev.trace);
      forall x, y | x in log && y in log && x < y && Relaunched(s'.ctl, y) ensures Follows(s.dev.pending, x, y) {
        AbsentIsFollowed(s.dev.pending, x, y);
      }
    } else if !DropPhase(s'.ctl) && s.dev.lossy {
      BeforeFirstLost(log, s.dev.trace);
      forall x, y | x in log && y in log && x < y ensures Follows(s.dev.pending, x, y) {
        AbsentIsFollowed(s.dev.pending, x, y);
      }
    }
  }

  lemma AbsentIsFollowed(pending: seq<int>, x: int, y: int)
    requires x !in pending
    ensures Follows(pending, x, y)
  {
  }

  /** Everything before the first lost command has run, and it has not. */
  lemma BeforeFirstLost(log: seq<int>, trace: seq<int>)
    requires Increasing(log)
    ensures var k := FirstLost(log, trace);
            && (forall x :: x in log && (k == |log| || x < log[k]) ==> x in trace)
            && (k < |log| ==> log[k] in log && log[k] !in trace)
  {
    var k := FirstLost(log, trace);
    forall x | x in log && (k == |log| || x < log[k]) ensures x in trace {
      var i :| 0 <= i < |log| && log[i] == x;
    }
  }

  /** The walk starts at the first lost command, and what ran with effects came before it. */
  lemma ReactivatedTrace(cfg: Config, s: System)
    requires LogInv(cfg, s.cmds, s.worker) && DeviceInv(s.cmds, s.worker, s.ctl, s.dev) && s.ctl.pc.Drained?
    ensures TraceOk(s.cmds, s.worker, DoReactivate(s).ctl, DoReactivate(s).dev)
    ensures TruthOk(s.cmds, DoReactivate(s).dev)
  {
    hide OrderOk, BatchOk, DeviceOk;
    BeforeFirstLost(s.worker.log, s.dev.trace);
  }

  lemma KeepsReactivateDevice(cfg: Config, s: System)
    requires Inv(cfg, s) && Enabled(cfg, s, ReactivateDevice)
    ensures Inv(cfg, Apply(cfg, s, ReactivateDevice))
  {
    hide LogInv, FeedInv, AuxInv, ThreadInv, DeviceOk, TraceOk, TruthOk, FirstLost;
    ReactivatedPending(cfg, s);
    ReactivatedTrace(cfg, s);
  }

  lemma NextLostIs(cfg: Config, s: System)
    requires LogsOk(cfg, s.cmds, s.worker) && s.ctl.pc.Relaunching?
    ensures var r := NextLost(s);
            && (r.None? ==> forall x :: x in s.worker.log ==> x < s.ctl.pc.next)
            && (r.Some? ==> r.value in s.worker.log && s.ctl.pc.next <= r.value
                            && forall x :: x in s.worker.log && s.ctl.pc.next <= x ==> r.value <= x)
  {
    SlotCommandFinds(s.worker.log, s.ctl.pc.next);
  }

  lemma {:induction false} SlotCommandFinds(log: seq<int>, front: int)
    requires Increasing(log)
    ensures var r := SlotCommand(log, front);
            && (r.None? ==> forall x :: x in log ==> x < front)
            && (r.Some? ==> r.value in log && front <= r.value && forall x :: x in log && front <= x ==> r.value <= x)
  {
    if log != [] {
      assert log == [log[0]] + log[1..];
      if log[0] < front { SlotCommandFinds(log[1..], front); }
    }
  }

  /** A relaunched command is pending behind everything relaunched before it. */
  lemma RelaunchPending(cfg: Config, s: System)
    requires LogInv(cfg, s.cmds, s.worker) && DeviceOk(s.cmds, s.worker, s.ctl, s.dev)
    requires s.ctl.pc.Relaunching? && NextLost(s).Some?
    ensures DeviceOk(s.cmds, s.worker, DoRelaunch(s).ctl, DoRelaunch(s).dev)
  {
    hide OrderOk, BatchOk, Follows;
    NextLostIs(cfg, s);
    var s', z, log := DoRelaunch(s), NextLost(s).value, s.worker.log;
    assert forall x :: x in s'.dev.pending <==> x in s.dev.pending || x == z;
    forall x, y | x in log && y in log && x < y && Relaunched(s'.ctl, y) ensures Follows(s'.dev.pending, x, y) {
      assert y == z || Follows(s.dev.pending, x, y);
      FollowsAppend(s.dev.pending, x, y, z);
    }
  }

  lemma RelaunchTrace(cfg: Config, s: System)
    requires LogInv(cfg, s.cmds, s.worker) && DeviceInv(s.cmds, s.worker, s.ctl, s.dev)
    requires s.ctl.pc.Relaunching? && NextLost(s).Some?
    ensures TraceOk(s.cmds, s.worker, DoRelaunch(s).ctl, DoRelaunch(s).dev)
    ensures TruthOk(s.cmds, DoRelaunch(s).dev)
  {
    hide OrderOk, BatchOk, DeviceOk;
    NextLostIs(cfg, s);
    var s', z := DoRelaunch(s), NextLost(s).value;
    assert forall x :: x in s'.dev.pending <==> x in s.dev.pending || x == z;
    assert forall i :: 0 <= i < |s.dev.pending| ==> s.dev.pending[i] in s.dev.pending;
  }

  lemma KeepsRelaunch(cfg: Config, s: System)
    requires Inv(cfg, s) && Enabled(cfg, s, Relaunch)
    ensures Inv(cfg, Apply(cfg, s, Relaunch))
  {
    hide LogInv, FeedInv, AuxInv, ThreadInv, DeviceOk, TraceOk, TruthOk;
    RelaunchPending(cfg, s);
    RelaunchTrace(cfg, s);
  }

  /** When the walk is over, nothing in the log is left to relaunch. */
  lemma RelaunchEndDevice(cfg: Config, s: System, ctl': Control)
    requires LogInv(cfg, s.cmds, s.worker) && DeviceInv(s.cmds, s.worker, s.ctl, s.dev)
    requires s.ctl.pc.Relaunching? && NextLost(s).None? && ctl' == s.ctl.(pc := ResumingWorker)
    ensures DeviceInv(s.cmds, s.worker, ctl', s.dev)
  {
    hide OrderOk, BatchOk, Follows;
    NextLostIs(cfg, s);
  }

  lemma KeepsRelaunchEnd(cfg: Config, s: System)
    requires Inv(cfg, s) && Enabled(cfg, s, RelaunchEnd)
    ensures Inv(cfg, Apply(cfg, s, RelaunchEnd))
  {
    hide LogInv, FeedInv, AuxInv, ThreadInv, DeviceInv, NextLost;
    RelaunchEndDevice(cfg, s, Apply(cfg, s, RelaunchEnd).ctl);
  }

  lemma ResumedThreads(cfg: Config, c: Commands, w: Worker, trace: seq<int>, pc: WorkerPc, apps: map<nat, Sync>)
    requires ThreadInv(cfg, c, w, trace, pc, apps)
    ensures ThreadInv(cfg, c, w.(state := Running), trace, pc, apps)
  {
  }

  lemma KeepsResumeWorker(cfg: Config, s: System)
    requires Inv(cfg, s) && Enabled(cfg, s, ResumeWorker)
    ensures Inv(cfg, Apply(cfg, s, ResumeWorker))
  {
    hide LogInv, FeedInv, AuxInv, ThreadInv, DeviceInv;
    var s' := DoResumeWorker(s);
    SameLogs(cfg, s.cmds, s.worker, s'.worker);
    SameLogDevice(s.cmds, s.worker, s'.worker, s.ctl, s'.ctl, s.dev);
    ResumedThreads(cfg, s.cmds, s.worker, s.dev.trace, s.pc, s.apps);
  }

  ghost predicate DroppedBuffer(c: Commands, c': Commands, a: Auxiliary, a': Auxiliary, q: seq<Ref>) {
    && c' == c.(done := c'.done, dropped := c'.dropped)
    && a' == a.(done := a'.done, dropped := a'.dropped)
    && (forall x :: x in c'.done <==> x in c.done || HwRef(x) in q)
    && (forall x :: x in c'.dropped <==> x in c.dropped || HwRef(x) in q)
    && (forall id :: id in a'.done <==> id in a.done || AuxRef(id) in q)
    && (forall id :: id in a'.dropped <==> id in a.dropped || AuxRef(id) in q)
  }

  lemma DropIsDroppedBuffer(s: System)
    ensures DroppedBuffer(s.cmds, DoDropBuffer(s).cmds, s.aux, DoDropBuffer(s).aux, s.buf.queue)
  {
    var s' := DoDropBuffer(s);
    forall x ensures x in s'.cmds.done <==> x in s.cmds.done || HwRef(x) in s.buf.queue {
      if HwRef(x) in s.buf.queue { assert HwRef(x).HwRef?; }
    }
  }

  lemma DroppedBufferLogs(cfg: Config, c: Commands, c': Commands, a: Auxiliary, a': Auxiliary, w: Worker, q: seq<Ref>,
                          pc: WorkerPc)
    requires LogInv(cfg, c, w) && FeedInv(c, q, pc) && DroppedBuffer(c, c', a, a', q)
    ensures LogInv(cfg, c', w) && FeedInv(c', [], pc)
  {
    assert AllSynchronizable(c') ==> AllSynchronizable(c);
    forall x | x in c'.dropped ensures x in c'.done {}
  }

  lemma DroppedBufferAux(c: Commands, c': Commands, a: Auxiliary, a': Auxiliary, q: seq<Ref>, last: Ref, pc: WorkerPc)
    requires AuxInv(c, a, q, last, pc) && DroppedBuffer(c, c', a, a', q)
    ensures AuxInv(c', a', [], last, pc)
  {
  }

  lemma DroppedBufferThreads(cfg: Config, c: Commands, c': Commands, w: Worker, trace: seq<int>, pc: WorkerPc,
                             apps: map<nat, Sync>)
    requires ThreadInv(cfg, c, w, trace, pc, apps)
    requires c' == c.(done := c'.done, dropped := c'.dropped) && c.done <= c'.done
    ensures ThreadInv(cfg, c', w, trace, pc, apps)
  {
  }

  lemma DroppedDevice(c: Commands, c': Commands, w: Worker, ctl: Control, dev: Device)
    requires DeviceInv(c, w, ctl, dev)
    requires c' == c.(done := c'.done, dropped := c'.dropped) && c.done <= c'.done && c.dropped <= c'.dropped
    requires forall x :: x in c'.done ==> x in c.done || x in c'.dropped
    ensures DeviceInv(c', w, ctl, dev)
  {
  }

  lemma KeepsDropBuffer(cfg: Config, s: System)
    requires Inv(cfg, s) && Enabled(cfg, s, DropBuffer)
    ensures Inv(cfg, Apply(cfg, s, DropBuffer))
  {
    hide LogInv, FeedInv, AuxInv, ThreadInv, DeviceInv;
    var s' := DoDropBuffer(s);
    DropIsDroppedBuffer(s);
    DroppedBufferLogs(cfg, s.cmds, s'.cmds, s.aux, s'.aux, s.worker, s.buf.queue, s.pc);
    DroppedBufferAux(s.cmds, s'.cmds, s.aux, s'.aux, s.buf.queue, s.buf.last, s.pc);
    DroppedBufferThreads(cfg, s.cmds, s'.cmds, s.worker, s.dev.trace, s.pc, s.apps);
    DroppedDevice(s.cmds, s'.cmds, s.worker, s.ctl, s.dev);
    SameLogDevice(s'.cmds, s.worker, s'.worker, s.ctl, s'.ctl, s.dev);
  }

  lemma KeepsReadDropIndex(cfg: Config, s: System)
    requires Inv(cfg, s) && Enabled(cfg, s, ReadDropIndex)
    ensures Inv(cfg, Apply(cfg, s, ReadDropIndex))
  {
    hide AuxInv, ThreadInv;
  }

  lemma DropLogsIsPopped(cfg: Config, s: System)
    requires LogInv(cfg, s.cmds, s.worker) && s.ctl.pc.DroppingLogs?
    ensures Popped(s.cmds, s.worker, DoDropLogs(s).cmds, DoDropLogs(s).worker)
  {
  }

  lemma EmptyLogDevice(c: Commands, w: Worker, w': Worker, ctl: Control, ctl': Control, dev: Device)
    requires DeviceInv(c, w, ctl, dev) && w'.log == [] && ctl'.pc.NoCall?
    ensures DeviceInv(c, w', ctl', dev)
  {
  }

  lemma DropLogsPast(cfg: Config, s: System)
    requires LogInv(cfg, s.cmds, s.worker) && s.ctl.pc.DroppingLogs?
    requires PastInv(s.cmds, s.aux, s.worker, s.pc, s.apps, s.ctl, s.launches, s.seen)
    ensures var t := DoDropLogs(s);
            PastInv(t.cmds, t.aux, t.worker, t.pc, t.apps, t.ctl, t.launches, t.seen)
  {
  }

  lemma DropLogsLogs(cfg: Config, s: System)
    requires LogInv(cfg, s.cmds, s.worker) && s.ctl.pc.DroppingLogs?
    ensures LogInv(cfg, DoDropLogs(s).cmds, DoDropLogs(s).worker)
  {
    assert AllSynchronizable(DoDropLogs(s).cmds) ==> AllSynchronizable(s.cmds);
  }

  lemma KeepsDropLogs(cfg: Config, s: System)
    requires Inv(cfg, s) && s.ctl.pc.DroppingLogs?
    ensures Inv(cfg, DoDropLogs(s))
  {
    hide LogInv, FeedInv, AuxInv, ThreadInv, DeviceInv, PastInv;
    var s' := DoDropLogs(s);
    DropLogsIsPopped(cfg, s);
    DropLogsLogs(cfg, s);
    PoppedFeed(cfg, s.cmds, s.worker, s'.cmds, s'.worker, s.buf.queue, s.pc);
    PoppedAux(s.cmds, s.worker, s'.cmds, s'.worker, s.aux, s.buf.queue, s.buf.last, s.pc);
    PoppedThreads(cfg, s.cmds, s.worker, s'.cmds, s'.worker, s.dev.trace, s.pc, s.apps);
    DroppedDevice(s.cmds, s'.cmds, s.worker, s.ctl, s.dev);
    EmptyLogDevice(s'.cmds, s.worker, s'.worker, s.ctl, s'.ctl, s.dev);
    DropLogsPast(cfg, s);
  }

  lemma KeepsDestroyBegin(cfg: Config, s: System)
    requires Inv(cfg, s) && Enabled(cfg, s, DestroyBegin)
    ensures Inv(cfg, Apply(cfg, s, DestroyBegin))
  {
    hide LogInv, FeedInv, AuxInv, ThreadInv;
  }

  // ----- the hardware -----

  lemma FollowsTail(pending: seq<int>, x: int, y: int)
    requires pending != [] && Follows(pending, x, y)
    ensures Follows(pending[1..], x, y)
  {
    var p := pending[1..];
    forall i | 0 <= i < |p| && p[i] == x ensures y in p[i + 1..] {
      assert p[i + 1..] == pending[i + 2..];
    }
  }

  /** The hardware passes its next command, running it or not. */
  lemma PassPending(c: Commands, w: Worker, ctl: Control, dev: Device, dev': Device)
    requires DeviceOk(c, w, ctl, dev) && dev.pending != [] && dev'.pending == dev.pending[1..]
    requires || (dev'.trace == dev.trace + [dev.pending[0]] && dev'.lossy == dev.lossy)
             || (dev'.trace == dev.trace && dev'.lossy && !ctl.pc.Relaunching? && dev.pending[0] in c.deactivatable)
    ensures DeviceOk(c, w, ctl, dev')
  {
    hide Follows;
    var x, rest := dev.pending[0], dev.pending[1..];
    assert dev.pending == [x] + rest;
    assert forall y :: y in dev.trace + [x] <==> y in dev.trace || y == x;
    if !DropPhase(ctl) && !dev'.lossy {
      forall y, z | y in w.log && z in w.log && y < z && Relaunched(ctl, z) ensures Follows(rest, y, z) {
        assert Follows(dev.pending, y, z);
        FollowsTail(dev.pending, y, z);
      }
    }
  }

  lemma DeviceRunPending(cfg: Config, s: System)
    requires DeviceInv(s.cmds, s.worker, s.ctl, s.dev) && CanRun(s)
    ensures DeviceOk(s.cmds, s.worker, s.ctl, Apply(cfg, s, DeviceRun).dev)
    ensures TruthOk(s.cmds, Apply(cfg, s, DeviceRun).dev)
  {
    PassPending(s.cmds, s.worker, s.ctl, s.dev, Apply(cfg, s, DeviceRun).dev);
    hide TraceOk, DeviceOk;
    var x := s.dev.pending[0];
    assert forall y :: y in s.dev.trace + [x] <==> y in s.dev.trace || y == x;
  }

  /** What is left when the first pending command is taken away. */
  lemma PendingTail(pending: seq<int>, idempotent: set<int>)
    requires pending != [] && PendingInOrder(pending, idempotent)
    ensures PendingInOrder(pending[1..], idempotent)
    ensures forall y :: y in pending[1..] ==> y in pending && (pending[0] !in idempotent ==> pending[0] < y)
  {
    var rest := pending[1..];
    forall y | y in rest ensures y in pending && (pending[0] !in idempotent ==> pending[0] < y) {
      var j :| 0 <= j < |rest| && rest[j] == y;
      assert pending[j + 1] == y;
    }
  }

  /** Running the next command keeps the executions in order: a command that is not
      idempotent comes after everything that ran, and before everything in the log that
      did not, since what was lost before it would have to be deactivatable. */
  lemma DeviceRunTrace(cfg: Config, s: System)
    requires LogInv(cfg, s.cmds, s.worker) && DeviceInv(s.cmds, s.worker, s.ctl, s.dev) && CanRun(s)
    requires s.dev.lossy ==> cfg.level != Block
    ensures TraceOk(s.cmds, s.worker, s.ctl, Apply(cfg, s, DeviceRun).dev)
  {
    hide LogInv, TruthOk, DeviceOk;
    var x := s.dev.pending[0];
    if !s.dev.overtaken {
      assert x in s.dev.pending;
      AppendEffect(s.dev.trace, s.cmds.idempotent, x);
      PendingTail(s.dev.pending, s.cmds.idempotent);
      hide PendingInOrder, EffectsInOrder;
      if !DropPhase(s.ctl) && x !in s.cmds.idempotent {
        forall y | y in s.worker.log && y !in s.dev.trace && y != x
          ensures x < y
        {
          RunsBeforeUnrun(cfg, s.cmds, s.worker, s.ctl, s.dev, y);
        }
      }
    }
  }

  lemma AppendEffect(trace: seq<int>, idempotent: set<int>, x: int)
    requires EffectsInOrder(trace, idempotent)
    requires x !in idempotent ==> forall y :: y in trace && y !in idempotent ==> y < x
    ensures EffectsInOrder(trace + [x], idempotent)
    ensures forall y :: y in trace + [x] <==> y in trace || y == x
  {
    assert forall i :: 0 <= i < |trace| ==> trace[i] in trace;
  }

  lemma RunsBeforeUnrun(cfg: Config, c: Commands, w: Worker, ctl: Control, dev: Device, y: int)
    requires LogInv(cfg, c, w) && DeviceInv(c, w, ctl, dev) && !DropPhase(ctl) && !dev.overtaken
    requires dev.pending != [] && (dev.lossy ==> dev.pending[0] !in c.deactivatable && cfg.level != Block)
    requires dev.pending[0] !in c.idempotent
    requires y in w.log && y !in dev.trace && y != dev.pending[0]
    ensures dev.pending[0] < y
  {
    hide TruthOk, BatchOk, Follows;
    var x := dev.pending[0];
    assert x in dev.pending;
    if y in dev.pending {
      var i :| 0 <= i < |dev.pending| && dev.pending[i] == y;
    } else if Relaunched(ctl, y) {
      assert y in c.deactivatable && dev.lossy;
      assert x in w.log && y < x ==> !Plain(c, x);
    }
  }

  lemma DeviceRunDevice(cfg: Config, s: System)
    requires LogInv(cfg, s.cmds, s.worker) && DeviceInv(s.cmds, s.worker, s.ctl, s.dev) && CanRun(s)
    requires s.dev.lossy ==> cfg.level != Block
    ensures DeviceInv(s.cmds, s.worker, s.ctl, Apply(cfg, s, DeviceRun).dev)
  {
    DeviceRunPending(cfg, s);
    DeviceRunTrace(cfg, s);
    hide DeviceOk, TraceOk, TruthOk, LogInv;
  }

  lemma DeviceRunThreads(cfg: Config, s: System)
    requires ThreadInv(cfg, s.cmds, s.worker, s.dev.trace, s.pc, s.apps) && CanRun(s)
    ensures ThreadInv(cfg, s.cmds, s.worker, Apply(cfg, s, DeviceRun).dev.trace, s.pc, s.apps)
  {
  }

  lemma KeepsDeviceRun(cfg: Config, s: System)
    requires Inv(cfg, s) && CanRun(s)
    ensures Inv(cfg, Apply(cfg, s, DeviceRun))
  {
    hide LogInv, FeedInv, AuxInv, ThreadInv, DeviceInv, PastInv;
    DeviceRunDevice(cfg, s);
    DeviceRunThreads(cfg, s);
  }

  lemma DeviceLoseDevice(cfg: Config, s: System)
    requires LogInv(cfg, s.cmds, s.worker) && DeviceInv(s.cmds, s.worker, s.ctl, s.dev) && CanLose(s)
    requires !s.ctl.pc.Relaunching?
    ensures DeviceInv(s.cmds, s.worker, s.ctl, Apply(cfg, s, DeviceLose).dev)
  {
    PassPending(s.cmds, s.worker, s.ctl, s.dev, Apply(cfg, s, DeviceLose).dev);
    hide DeviceOk;
    if !s.dev.overtaken {
      PendingTail(s.dev.pending, s.cmds.idempotent);
      hide PendingInOrder, EffectsInOrder;
    }
  }

  lemma KeepsDeviceLose(cfg: Config, s: System)
    requires Inv(cfg, s) && CanLose(s)
    ensures Inv(cfg, Apply(cfg, s, DeviceLose))
  {
    hide LogInv, FeedInv, AuxInv, ThreadInv, DeviceInv, PastInv;
    DeviceLoseDevice(cfg, s);
  }

  // ----- every step, every run -----

  lemma KeepsInv(cfg: Config, s: System, l: Label)
    requires Inv(cfg, s) && Enabled(cfg, s, l)
    ensures Inv(cfg, Apply(cfg, s, l))
  {
    hide Inv;
    match l
    case Submit(d, i, e, y) => KeepsSubmit(cfg, s, d, i, e, y);
    case EnqueueHostFunction => KeepsOtherEnqueue(cfg, s, HostFunction);
    case RequestWaitAll => KeepsRequestWaitAll(cfg, s);
    case AppStart(t, c) => KeepsAppStart(cfg, s, t, c);
    case AppCheck(t) => KeepsAppCheck(cfg, s, t);
    case AppReturn(t) => KeepsAppReturn(cfg, s, t);
    case AppRelock(t) => KeepsAppRelock(cfg, s, t);
    case Fetch => KeepsFetch(cfg, s);
    case FetchAwaited => KeepsTake(cfg, s);
    case Enter => KeepsEnter(cfg, s);
    case CheckFull => KeepsCheckFull(cfg, s);
    case WorkerCheck => KeepsWorkerCheck(cfg, s);
    case WorkerReturn => KeepsWorkerReturn(cfg, s);
    case WorkerRelock => KeepsWorkerRelock(cfg, s);
    case LaunchAwaited => KeepsLaunchAwaited(cfg, s);
    case AuxEnter => KeepsAuxEnter(cfg, s);
    case AuxFinish => KeepsAuxFinish(cfg, s);
    case SuspendBegin => KeepsSuspendBegin(cfg, s);
    case PauseWorker => KeepsPauseWorker(cfg, s);
    case DeactivateDevice => KeepsDeactivateDevice(cfg, s);
    case ResumeBegin(drop) => KeepsResumeBegin(cfg, s, drop);
    case UnstallDevice => KeepsUnstallDevice(cfg, s);
    case DrainDevice => KeepsDrainDevice(cfg, s);
    case ReactivateDevice => KeepsReactivateDevice(cfg, s);
    case Relaunch => KeepsRelaunch(cfg, s);
    case RelaunchEnd => KeepsRelaunchEnd(cfg, s);
    case ResumeWorker => KeepsResumeWorker(cfg, s);
    case DropBuffer => KeepsDropBuffer(cfg, s);
    case ReadDropIndex => KeepsReadDropIndex(cfg, s);
    case DropLogs => KeepsDropLogs(cfg, s);
    case DestroyBegin => KeepsDestroyBegin(cfg, s);
    case EnqueueDestroy => KeepsOtherEnqueue(cfg, s, Destroy);
    case DeviceRun => KeepsDeviceRun(cfg, s);
    case DeviceLose => KeepsDeviceLose(cfg, s);
  }

  lemma KeepsOtherEnqueue(cfg: Config, s: System, kind: AuxKind)
    requires Inv(cfg, s) && (kind == HostFunction || (kind == Destroy && Enabled(cfg, s, EnqueueDestroy)))
    ensures Inv(cfg, EnqueueAux(s, kind).(seen := s.seen.(otherEnqueue := true)))
  {
    hide LogInv, FeedInv, AuxInv, ThreadInv, DeviceInv, ControlOk;
    var s1 := s.(seen := s.seen.(otherEnqueue := true));
    assert Inv(cfg, s1);
    KeepsEnqueueAux(cfg, s1, kind);
    assert EnqueueAux(s1, kind) == EnqueueAux(s, kind).(seen := s1.seen);
  }

  lemma KeepsRequestWaitAll(cfg: Config, s: System)
    requires Inv(cfg, s)
    ensures Inv(cfg, DoRequestWaitAll(s))
  {
    hide LogInv, FeedInv, AuxInv, ThreadInv, DeviceInv, ControlOk, PastInv;
    if !IsWaitAll(s.aux, s.buf.last) {
      KeepsEnqueueAux(cfg, s, WaitAll);
    }
  }

  lemma KeepsLaunchAwaited(cfg: Config, s: System)
    requires Inv(cfg, s) && Enabled(cfg, s, LaunchAwaited)
    ensures Inv(cfg, LaunchHeld(cfg, s, s.pc.held))
  {
    hide LogInv, FeedInv, AuxInv, ThreadInv, DeviceInv, PastInv;
    KeepsLaunchHeld(cfg, s, s.pc.held);
  }

  /** Every reachable state satisfies the invariant, whatever the threads, the scheduler
      and the hardware do and in whatever order. */
  lemma RunKeepsInv(cfg: Config, s: System, run: seq<Label>)
    requires Inv(cfg, s) && Run(cfg, s, run).Some?
    ensures Inv(cfg, Run(cfg, s, run).value)
    decreases |run|
  {
    hide Inv, Enabled, Apply;
    if run != [] {
      KeepsInv(cfg, s, run[0]);
      RunKeepsInv(cfg, Apply(cfg, s, run[0]), run[1..]);
    }
  }
}
