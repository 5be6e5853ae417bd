/** The command buffer and the asynchronous XQueue as objects, proved against the
    pipeline's step functions. */
module XQueueObjects {
  import opened Sequences
  import opened LaunchLog
  import opened Pipeline
  import opened Commands
  import opened LaunchWorkers

  ghost function Refs(s: seq<XCommand>): (r: seq<Ref>)
    ensures |r| == |s| && forall i :: 0 <= i < |s| ==> r[i] == RefOf(s[i])
  {
    seq(|s|, i requires 0 <= i < |s| => RefOf(s[i]))
  }

  predicate IsKind(c: XCommand, kind: AuxKind) {
    c.kind == Other(kind)
  }

  /** `events` are the events sent to the scheduling agent; `made` numbers the commands
      the buffer creates; `generated` counts those since the last enqueue. */
  class CommandBuffer {
    var cmds: seq<XCommand>
    var last: XCommand
    var ready: bool
    var events: seq<QueueEvent>
    ghost var made: nat
    ghost var generated: nat

    ghost predicate Valid()
      reads this, set c | c in cmds
    {
      && (forall i, j :: 0 <= i < j < |cmds| ==> cmds[i] != cmds[j])
      && (forall c :: c in cmds ==> c.Valid() && c.state == Pending)
    }

    ghost function View(): Buffer
      reads this
    {
      Buffer(Refs(cmds), RefOf(last), ready, events, generated)
    }

    constructor ()
      ensures Valid() && View() == Init().buf && made == 1 && fresh(last) && cmds == [last] && IsKind(last, WaitAll)
    {
      var first := new XCommand(Other(WaitAll), 0, -1, false, false, false, false);
      first.SetState(Pending);
      cmds, last, ready, events := [first], first, false, [];
      made, generated := 1, 0;
    }

    method Enqueue(cmd: XCommand)
      requires Valid() && cmd.Valid() && cmd.state == Created && cmd !in cmds
      modifies this`cmds, this`last, this`ready, this`events, this`generated, cmd`state, cmd`heard
      ensures Valid() && View() == Enqueued(old(View()), RefOf(cmd))
      ensures cmds == old(cmds) + [cmd] && last == cmd
    {
      cmd.SetState(Pending);
      if cmd.kind.Hardware? && !ready {
        ready := true;
        events := events + [BecameReady];
      }
      last := cmd;
      cmds := cmds + [cmd];
      generated := 0;
      assert Refs(old(cmds) + [cmd]) == Refs(old(cmds)) + [RefOf(cmd)];
    }

    /** Returns null where the source waits for a command to be enqueued. */
    method Dequeue() returns (cmd: XCommand?)
      requires Valid()
      modifies this`cmds, this`last, this`ready, this`events, this`made, this`generated
      ensures Valid()
      ensures old(cmds) != [] ==>
                && cmd == old(cmds)[0] && cmds == old(cmds)[1..] && last == old(last) && made == old(made)
                && View() == old(View()).(queue := old(View()).queue[1..])
      ensures old(cmds) == [] && IsKind(old(last), WaitAll) ==>
                cmd == null && cmds == [] && last == old(last) && made == old(made) && View() == Idled(old(View()))
      ensures old(cmds) == [] && !IsKind(old(last), WaitAll) ==>
                && cmd != null && fresh(cmd) && cmd.state == Pending && cmd.id == old(made) && made == old(made) + 1
                && cmd.kind == Other(if IsKind(old(last), BatchSync) then WaitAll else BatchSync)
                && cmds == [] && last == cmd && View() == Generated(old(View()), AuxRef(cmd.id))
    {
      if cmds != [] {
        cmd := cmds[0];
        cmds := cmds[1..];
        assert Refs(old(cmds)[1..]) == Refs(old(cmds))[1..];
        return;
      }
      if IsKind(last, WaitAll) {
        if ready {
          ready := false;
          events := events + [BecameIdle];
        }
        return null;
      }
      var kind := if IsKind(last, BatchSync) then WaitAll else BatchSync;
      cmd := new XCommand(Other(kind), made, -1, false, false, false, false);
      cmd.SetState(Pending);
      last := cmd;
      made, generated := made + 1, generated + 1;
    }

    method DropAll()
      requires Valid()
      modifies this`cmds, (set c | c in cmds)`state, (set c | c in cmds)`heard
      ensures Valid() && cmds == [] && View() == old(View()).(queue := [])
      ensures forall c :: c in old(cmds) ==> c.state == Completed
    {
      var i := 0;
      while i < |cmds|
        invariant 0 <= i <= |cmds| && cmds == old(cmds)
        invariant forall k :: 0 <= k < |cmds| ==> cmds[k].Valid() && cmds[k].state == if k < i then Completed else Pending
      {
        cmds[i].SetState(Completed);
        i := i + 1;
      }
      cmds := [];
    }

    /** `EnqueueXQueueWaitAllCommand`; the requirement is the assertion at its head. */
    method RequestWaitAll() returns (cmd: XCommand)
      requires Valid() && (!ready ==> IsKind(last, WaitAll))
      modifies this`cmds, this`last, this`made, this`generated
      ensures Valid() && IsKind(cmd, WaitAll) && last == cmd && ready == old(ready) && events == old(events)
      ensures IsKind(old(last), WaitAll) ==> cmd == old(last) && View() == old(View()) && made == old(made)
      ensures !IsKind(old(last), WaitAll) ==>
                && fresh(cmd) && cmd.state == Pending && cmd.id == old(made) && made == old(made) + 1
                && cmds == old(cmds) + [cmd] && View() == Enqueued(old(View()), AuxRef(cmd.id))
    {
      if IsKind(last, WaitAll) { return last; }
      cmd := new XCommand(Other(WaitAll), made, -1, false, false, false, false);
      cmd.SetState(Pending);
      last := cmd;
      cmds := cmds + [cmd];
      made, generated := made + 1, 0;
      assert Refs(old(cmds) + [cmd]) == Refs(old(cmds)) + [RefOf(cmd)];
    }
  }

  /** The hardware calls of a suspension, and of a resumption with the given log. */
  function SuspendCalls(level: Level, sync: bool): seq<HardwareCall> {
    [OnSuspend]
    + (if level != Block then [Deactivated] else [])
    + (if level == Interrupt then [Interrupted] else [])
    + (if sync then [Synchronized] else [])
  }

  function ResumeCalls(level: Level, log: seq<int>): seq<HardwareCall> {
    [BeforeResume] + ReactivateCalls(level, log)
  }

  function ReactivateCalls(level: Level, log: seq<int>): seq<HardwareCall> {
    (if level == Interrupt then [Restored(log)] else [])
    + (if level != Block then [Reactivate(log)] else [])
  }

  /** What a suspension has to do to the hardware: tell it once, deactivate it once at every level
      but Block, interrupt it once at level Interrupt, wait for it once if asked, in this order,
      and nothing else. */
  ghost predicate StopsHardware(level: Level, sync: bool, calls: seq<HardwareCall>) {
    && Distinct(calls) && calls != [] && calls[0] == OnSuspend
    && (Deactivated in calls <==> level != Block)
    && (Interrupted in calls <==> level == Interrupt)
    && (Synchronized in calls <==> sync)
    && (forall c :: c in calls ==> c in {OnSuspend, Deactivated, Interrupted, Synchronized})
    && (forall i, j :: 0 <= i < j < |calls| ==>
          && !(calls[i] == Interrupted && calls[j] == Deactivated)
          && !(calls[i] == Synchronized && calls[j] in {Deactivated, Interrupted}))
  }

  /** What a resumption has to do to it: tell it once, restore it once with the log at level
      Interrupt, then reactivate it once with the log at every level but Block. */
  ghost predicate RestartsHardware(level: Level, log: seq<int>, calls: seq<HardwareCall>) {
    && Distinct(calls) && calls != [] && calls[0] == BeforeResume
    && (Restored(log) in calls <==> level == Interrupt)
    && (Reactivate(log) in calls <==> level != Block)
    && (forall c :: c in calls ==> c == BeforeResume || c == Restored(log) || c == Reactivate(log))
    && (forall i, j :: 0 <= i < j < |calls| ==> !(calls[i] == Reactivate(log) && calls[j] == Restored(log)))
  }

  lemma SuspendCallsStop(level: Level, sync: bool)
    ensures StopsHardware(level, sync, SuspendCalls(level, sync))
  {
    var calls := SuspendCalls(level, sync);
    var n := 1 + (if level != Block then 1 else 0) + (if level == Interrupt then 1 else 0);
    assert |calls| == n + if sync then 1 else 0;
    assert level != Block ==> calls[1] == Deactivated;
    assert level == Interrupt ==> calls[2] == Interrupted;
    assert sync ==> calls[n] == Synchronized;
  }

  lemma ResumeCallsRestart(level: Level, log: seq<int>)
    ensures RestartsHardware(level, log, ResumeCalls(level, log))
  {
    var calls := ResumeCalls(level, log);
    assert level == Interrupt ==> calls == [BeforeResume, Restored(log), Reactivate(log)];
    assert level == Deactivate ==> calls == [BeforeResume, Reactivate(log)];
    assert level == Interrupt ==> calls[1] == Restored(log) && calls[2] == Reactivate(log);
    assert level == Deactivate ==> calls[1] == Reactivate(log);
  }

  /** Calls that are all made while the worker is in the same state. */
  function MadeIn(calls: seq<HardwareCall>, worker: WorkerState): (made: seq<MadeCall>)
    ensures |made| == |calls| && forall i :: 0 <= i < |calls| ==> made[i] == MadeCall(calls[i], worker)
  {
    seq(|calls|, i requires 0 <= i < |calls| => MadeCall(calls[i], worker))
  }

  lemma MadeByResume(level: Level, log: seq<int>, worker: WorkerState)
    ensures var first := [MadeCall(BeforeResume, worker)];
            MadeIn(ResumeCalls(level, log), worker)
            == if level == Block then first else first + MadeIn(ReactivateCalls(level, log), worker)
  {
  }

  class AsyncXQueue {
    const cfg: Config
    const hwq: HwQueue
    const buf: CommandBuffer
    const worker: LaunchWorker
    var suspended: bool
    var terminated: bool
    var nextIdx: int

    ghost predicate Valid()
      reads this, worker, buf, (set c | c in worker.cmdLog), set c | c in buf.cmds
    {
      && worker.cfg == cfg && worker.Valid() && buf.Valid() && nextIdx >= 1
      && (forall c :: c in buf.cmds ==> c !in worker.cmdLog)
    }

    constructor (cfg: Config)
      requires cfg.threshold >= cfg.batchSize
      ensures Valid() && this.cfg == cfg && !suspended && !terminated && nextIdx == 1
      ensures worker.View() == Init().worker && buf.View() == Init().buf && hwq.calls == []
      ensures fresh(hwq) && fresh(buf) && fresh(worker)
    {
      this.cfg := cfg;
      hwq := new HwQueue();
      buf := new CommandBuffer();
      worker := new LaunchWorker(cfg);
      suspended, terminated, nextIdx := false, false, 1;
    }

    /** The command gets the next index when it is submitted. */
    method Submit(deactivatable: bool, idempotent: bool, canEnable: bool, synchronizable: bool) returns (cmd: XCommand)
      requires Valid()
      modifies this`nextIdx, buf
      ensures Valid() && fresh(cmd) && cmd.index == old(nextIdx) && nextIdx == old(nextIdx) + 1
      ensures buf.View() == Enqueued(old(buf.View()), HwRef(cmd.index))
      ensures cmd.state == Pending && buf.cmds == old(buf.cmds) + [cmd]
    {
      cmd := new XCommand(Hardware, 0, nextIdx, deactivatable, idempotent, canEnable, synchronizable);
      nextIdx := nextIdx + 1;
      buf.Enqueue(cmd);
    }

    /** Suspending pauses the worker first and then stops the hardware as far as the level asks
        for it; a queue that is suspended or terminated stays as it is. */
    method Suspend(sync: bool)
      requires Valid()
      modifies this`suspended, worker`state, worker`pauseCount, hwq
      ensures Valid()
      ensures suspended == (old(suspended) || !terminated)
      ensures old(suspended) || terminated ==>
                worker.View() == old(worker.View()) && hwq.calls == old(hwq.calls)
      ensures !old(suspended) && !terminated ==>
                && worker.View() == PausedWorker(old(worker.View()))
                && hwq.calls == old(hwq.calls) + MadeIn(SuspendCalls(cfg.level, sync), Paused)
                && StopsHardware(cfg.level, sync, SuspendCalls(cfg.level, sync))
    {
      hide XCommand.Valid, LaunchWorker.Valid, CommandBuffer.Valid, Increasing, Indices, Refs, StopsHardware, MadeIn, SuspendCalls;
      SuspendCallsStop(cfg.level, sync);
      if terminated || suspended { return; }
      suspended := true;
      worker.Pause();
      SuspendHardware(sync);
    }

    method SuspendHardware(sync: bool)
      modifies hwq
      ensures hwq.calls == old(hwq.calls) + MadeIn(SuspendCalls(cfg.level, sync), worker.state)
    {
      hwq.Call(OnSuspend, worker.state);
      if cfg.level != Block { hwq.Call(Deactivated, worker.state); }
      if cfg.level == Interrupt { hwq.Call(Interrupted, worker.state); }
      if sync { hwq.Call(Synchronized, worker.state); }
    }

    method ReactivateHardware(log: seq<int>)
      modifies hwq
      ensures hwq.calls == old(hwq.calls) + MadeIn(ReactivateCalls(cfg.level, log), worker.state)
    {
      if cfg.level == Interrupt { hwq.Call(Restored(log), worker.state); }
      if cfg.level != Block { hwq.Call(Reactivate(log), worker.state); }
    }

    /** Resuming gives the hardware the commands in flight and then lets the worker run again;
        with the drop flag it gives it none, and completes everything submitted so far that
        is in the buffer or in flight. */
    method Resume(drop: bool)
      requires Valid()
      modifies this`suspended, hwq
      modifies worker`state, worker`cmdLog, worker`syncLog, worker`dropIdx, buf`cmds
      modifies (set c | c in worker.cmdLog)`state, (set c | c in worker.cmdLog)`heard
      modifies (set c | c in buf.cmds)`state, (set c | c in buf.cmds)`heard
      ensures Valid() && !suspended
      ensures !old(suspended) ==>
                && worker.View() == old(worker.View()) && hwq.calls == old(hwq.calls) && buf.View() == old(buf.View())
      ensures old(suspended) && (!drop || cfg.level == Block) ==>
                && worker.View() == ResumedWorker(old(worker.View())) && buf.View() == old(buf.View())
                && hwq.calls == old(hwq.calls) + MadeIn(ResumeCalls(cfg.level, old(worker.View()).log), old(worker.state))
      ensures old(suspended) && drop && cfg.level != Block ==>
                && worker.View() == DroppedWorker(old(worker.View()), nextIdx - 1)
                && buf.View() == old(buf.View()).(queue := [])
                && hwq.calls == old(hwq.calls) + MadeIn(ResumeCalls(cfg.level, []), old(worker.state))
                && (forall c :: c in old(worker.cmdLog) || c in old(buf.cmds) ==> c.state == Completed)
    {
      hide XCommand.Valid, LaunchWorker.Valid, CommandBuffer.Valid, Increasing, Indices, Refs, MadeIn, ResumeCalls, ReactivateCalls;
      if !suspended { return; }
      suspended := false;
      MadeByResume(cfg.level, worker.View().log, worker.state);
      MadeByResume(cfg.level, [], worker.state);
      hwq.Call(BeforeResume, worker.state);
      if cfg.level == Block {
        worker.Resume();
        return;
      }
      if !drop {
        var log := Indices(worker.cmdLog);
        ReactivateHardware(log);
        worker.Resume();
        return;
      }
      ReactivateHardware([]);
      buf.DropAll();
      worker.ResumeAndDrop(nextIdx - 1);
    }
  }
}
