/** A suspension or resumption of the XQueue object, uninterrupted, is a run of the pipeline's
    control steps: the calls it makes leave the hardware queue as these steps do. */
module XQueueRefinement {
  import opened LaunchLog
  import opened Options
  import opened Pipeline
  import opened LaunchWorkers
  import opened XQueueObjects

  /** What a call does to the hardware queue: reactivating it with a log relaunches the lost
      commands of that log and what is behind them. */
  function AfterCall(dev: Device, call: HardwareCall): Device {
    match call
    case Deactivated => dev.(off := true)
    case Reactivate(log) =>
      dev.(off := false, lossy := false,
           pending := dev.pending + if dev.lossy then log[FirstLost(log, dev.trace)..] else [])
    case _ => dev
  }

  function AfterCalls(dev: Device, calls: seq<HardwareCall>): Device
    decreases |calls|
  {
    if calls == [] then dev else AfterCalls(AfterCall(dev, calls[0]), calls[1..])
  }

  predicate ControlStep(l: Label) {
    || l.SuspendBegin? || l.PauseWorker? || l.DeactivateDevice? || l.ResumeBegin? || l.UnstallDevice? || l.DrainDevice?
    || l.ReactivateDevice? || l.Relaunch? || l.RelaunchEnd? || l.ResumeWorker? || l.DropBuffer? || l.ReadDropIndex? || l.DropLogs?
  }

  /** `run` consists of control steps and leads from `s` to `t`. */
  ghost predicate Controls(cfg: Config, s: System, run: seq<Label>, t: System) {
    Run(cfg, s, run) == Some(t) && forall l :: l in run ==> ControlStep(l)
  }

  lemma NoStep(cfg: Config, s: System)
    ensures Controls(cfg, s, [], s)
  {
  }

  lemma OneStep(cfg: Config, s: System, l: Label, rest: seq<Label>, t: System)
    requires Enabled(cfg, s, l) && ControlStep(l) && Controls(cfg, Apply(cfg, s, l), rest, t)
    ensures Controls(cfg, s, [l] + rest, t)
  {
    hide Enabled, Apply;
    assert ([l] + rest)[1..] == rest;
  }

  lemma SuspendCallsOff(level: Level, sync: bool, dev: Device)
    ensures AfterCalls(dev, SuspendCalls(level, sync)) == if level == Block then dev else dev.(off := true)
  {
    var calls := SuspendCalls(level, sync);
    var rest := calls[1..];
    assert AfterCalls(dev, calls) == AfterCalls(dev, rest);
    if level != Block {
      assert rest[0] == Deactivated;
      var off := dev.(off := true);
      assert AfterCalls(dev, rest) == AfterCalls(off, rest[1..]);
      QuietCalls(off, rest[1..]);
    } else {
      QuietCalls(dev, rest);
    }
  }

  lemma {:induction false} QuietCalls(dev: Device, calls: seq<HardwareCall>)
    requires forall c :: c in calls ==> !c.Deactivated? && !c.Reactivate?
    ensures AfterCalls(dev, calls) == dev
  {
    if calls != [] {
      assert calls[0] in calls;
      QuietCalls(dev, calls[1..]);
    }
  }

  lemma ResumeCallsOn(level: Level, log: seq<int>, dev: Device)
    ensures AfterCalls(dev, ResumeCalls(level, log)) == if level == Block then dev else AfterCall(dev, Reactivate(log))
  {
    var calls := ResumeCalls(level, log);
    var last := [Reactivate(log)];
    assert AfterCalls(dev, calls) == AfterCalls(dev, calls[1..]);
    assert last[1..] == [] && AfterCalls(dev, last) == AfterCall(dev, Reactivate(log));
    if level == Interrupt {
      assert calls[1..][0] == Restored(log) && calls[1..][1..] == last;
      assert AfterCalls(dev, calls[1..]) == AfterCalls(dev, last);
    } else if level == Deactivate {
      assert calls[1..] == last;
    }
  }

  /** Suspending: the worker is paused, and the hardware is as the calls leave it. */
  lemma SuspendIsPipelineRun(cfg: Config, s: System, sync: bool) returns (run: seq<Label>, t: System)
    requires s.ctl.pc.NoCall? && !s.ctl.suspended && !s.ctl.terminated
    ensures Controls(cfg, s, run, t)
    ensures t == s.(worker := PausedWorker(s.worker), dev := AfterCalls(s.dev, SuspendCalls(cfg.level, sync)),
                    ctl := Control(NoCall, true, false))
  {
    SuspendCallsOff(cfg.level, sync, s.dev);
    hide SuspendCalls, AfterCalls, Controls;
    var s1 := Apply(cfg, s, SuspendBegin);
    var s2 := Apply(cfg, s1, PauseWorker);
    t := if cfg.level == Block then s2 else Apply(cfg, s2, DeactivateDevice);
    run := [];
    NoStep(cfg, t);
    if cfg.level != Block {
      OneStep(cfg, s2, DeactivateDevice, [], t);
      run := [DeactivateDevice] + [];
    }
    OneStep(cfg, s1, PauseWorker, run, t);
    run := [PauseWorker] + run;
    OneStep(cfg, s, SuspendBegin, run, t);
    run := [SuspendBegin] + run;
  }

  lemma SlotIsNext(log: seq<int>, k: nat)
    requires Increasing(log) && k <= |log|
    ensures k < |log| ==> SlotCommand(log, log[k]) == Some(log[k])
    ensures 0 < k == |log| ==> SlotCommand(log, log[k - 1] + 1) == None
    ensures 0 < k < |log| ==> SlotCommand(log, log[k - 1] + 1) == Some(log[k])
  {
    if k < |log| { SlotFrom(log, log[k], k); }
    if k > 0 { SlotFrom(log, log[k - 1] + 1, k); }
  }

  lemma {:induction false} SlotFrom(log: seq<int>, from: int, k: nat)
    requires k <= |log| && (forall i :: 0 <= i < k ==> log[i] < from) && (k < |log| ==> log[k] >= from)
    ensures SlotCommand(log, from) == if k < |log| then Some(log[k]) else None
  {
    if k > 0 {
      SlotFrom(log[1..], from, k - 1);
    }
  }

  /** The walk over the log relaunches everything from its `k`-th entry on. */
  lemma {:induction false} RelaunchesRest(cfg: Config, s: System, k: nat) returns (run: seq<Label>, t: System)
    requires s.ctl.pc.Relaunching? && Increasing(s.worker.log) && k <= |s.worker.log|
    requires NextLost(s) == if k < |s.worker.log| then Some(s.worker.log[k]) else None
    ensures Controls(cfg, s, run, t)
    ensures t == s.(dev := s.dev.(pending := s.dev.pending + s.worker.log[k..]), ctl := s.ctl.(pc := ResumingWorker))
    decreases |s.worker.log| - k
  {
    hide Controls, Increasing;
    if k == |s.worker.log| {
      t := Apply(cfg, s, RelaunchEnd);
      NoStep(cfg, t);
      OneStep(cfg, s, RelaunchEnd, [], t);
      run := [RelaunchEnd] + [];
      assert s.worker.log[k..] == [];
    } else {
      var s1 := Apply(cfg, s, Relaunch);
      SlotIsNext(s.worker.log, k + 1);
      var rest;
      rest, t := RelaunchesRest(cfg, s1, k + 1);
      OneStep(cfg, s, Relaunch, rest, t);
      run := [Relaunch] + rest;
      assert s.worker.log[k..] == [s.worker.log[k]] + s.worker.log[k + 1..];
    }
  }

  /** The hardware is given the log: what was lost, and what is behind it, is relaunched. */
  lemma ReactivatesWithLog(cfg: Config, s: System) returns (run: seq<Label>, t: System)
    requires s.ctl.pc == Reactivating(false) && Increasing(s.worker.log) && (s.dev.lossy ==> s.dev.pending == [])
    ensures Controls(cfg, s, run, t)
    ensures t == s.(dev := AfterCall(s.dev, Reactivate(s.worker.log)), ctl := s.ctl.(pc := ResumingWorker))
  {
    hide Controls, Increasing;
    if !s.dev.lossy {
      t := Apply(cfg, s, UnstallDevice);
      NoStep(cfg, t);
      OneStep(cfg, s, UnstallDevice, [], t);
      run := [UnstallDevice] + [];
    } else {
      var s1 := Apply(cfg, s, DrainDevice);
      var s2 := Apply(cfg, s1, ReactivateDevice);
      var k := FirstLost(s.worker.log, s.dev.trace);
      if k < |s.worker.log| {
        SlotIsNext(s.worker.log, k);
        run, t := RelaunchesRest(cfg, s2, k);
      } else {
        run, t := [], s2;
        NoStep(cfg, s2);
      }
      OneStep(cfg, s1, ReactivateDevice, run, t);
      run := [ReactivateDevice] + run;
      OneStep(cfg, s, DrainDevice, run, t);
      run := [DrainDevice] + run;
    }
  }

  /** The logs are emptied and the worker is let go. */
  lemma DropsTheLogs(cfg: Config, s: System) returns (run: seq<Label>, t: System)
    requires s.ctl.pc == ReadingDropIndex
    ensures Controls(cfg, s, run, t)
    ensures t.worker == DroppedWorker(s.worker, s.cmds.count) && t.buf == s.buf
    ensures t.dev == s.dev && t.ctl == s.ctl.(pc := NoCall)
  {
    hide Controls, DroppedWorker;
    var s1 := Apply(cfg, s, ReadDropIndex);
    t := Apply(cfg, s1, DropLogs);
    NoStep(cfg, t);
    OneStep(cfg, s1, DropLogs, [], t);
    run := [DropLogs] + [];
    OneStep(cfg, s, ReadDropIndex, run, t);
    run := [ReadDropIndex] + run;
  }

  /** Everything submitted so far is dropped. */
  lemma DropsEverything(cfg: Config, s: System) returns (run: seq<Label>, t: System)
    requires s.ctl.pc == DroppingBuffer
    ensures Controls(cfg, s, run, t)
    ensures t.worker == DroppedWorker(s.worker, s.cmds.count) && t.buf == s.buf.(queue := [])
    ensures t.dev == s.dev && t.ctl == s.ctl.(pc := NoCall)
  {
    hide Controls, DroppedWorker;
    var s1 := Apply(cfg, s, DropBuffer);
    run, t := DropsTheLogs(cfg, s1);
    OneStep(cfg, s, DropBuffer, run, t);
    run := [DropBuffer] + run;
  }

  /** With the drop flag the hardware is given nothing to relaunch. */
  lemma ReactivatesAndDrops(cfg: Config, s: System) returns (run: seq<Label>, t: System)
    requires s.ctl.pc == Reactivating(true) && (s.dev.lossy ==> s.dev.pending == [])
    ensures Controls(cfg, s, run, t)
    ensures t.worker == DroppedWorker(s.worker, s.cmds.count) && t.buf == s.buf.(queue := [])
    ensures t.dev == AfterCall(s.dev, Reactivate([])) && t.ctl == s.ctl.(pc := NoCall)
  {
    hide Controls, DroppedWorker;
    if s.dev.lossy {
      var s1 := Apply(cfg, s, DrainDevice);
      var s2 := Apply(cfg, s1, ReactivateDevice);
      run, t := DropsEverything(cfg, s2);
      OneStep(cfg, s1, ReactivateDevice, run, t);
      run := [ReactivateDevice] + run;
      OneStep(cfg, s, DrainDevice, run, t);
      run := [DrainDevice] + run;
    } else {
      var s1 := Apply(cfg, s, UnstallDevice);
      run, t := DropsEverything(cfg, s1);
      OneStep(cfg, s, UnstallDevice, run, t);
      run := [UnstallDevice] + run;
    }
  }

  /** Resuming, once the hardware has been waited for if it lost anything: worker, buffer and
      hardware end up as the object's call leaves them. */
  lemma ResumeIsPipelineRun(cfg: Config, s: System, drop: bool) returns (run: seq<Label>, t: System)
    requires s.ctl.pc.NoCall? && s.ctl.suspended && Increasing(s.worker.log) && (s.dev.lossy ==> s.dev.pending == [])
    ensures Controls(cfg, s, run, t)
    ensures var drops := drop && cfg.level != Block;
            && t.worker == (if drops then DroppedWorker(s.worker, s.cmds.count) else ResumedWorker(s.worker))
            && t.buf == (if drops then s.buf.(queue := []) else s.buf)
            && t.dev == AfterCalls(s.dev, ResumeCalls(cfg.level, if drops then [] else s.worker.log))
            && t.ctl == Control(NoCall, false, s.ctl.terminated)
  {
    var drops := drop && cfg.level != Block;
    ResumeCallsOn(cfg.level, if drops then [] else s.worker.log, s.dev);
    hide Controls, Increasing, AfterCall, AfterCalls, ResumeCalls;
    var s1 := Apply(cfg, s, ResumeBegin(drop));
    if drops {
      run, t := ReactivatesAndDrops(cfg, s1);
    } else {
      var s2 := s1;
      run := [];
      if cfg.level != Block {
        run, s2 := ReactivatesWithLog(cfg, s1);
      } else {
        NoStep(cfg, s1);
      }
      t := Apply(cfg, s2, ResumeWorker);
      OneMoreStep(cfg, s1, run, s2, ResumeWorker);
      run := run + [ResumeWorker];
    }
    OneStep(cfg, s, ResumeBegin(drop), run, t);
    run := [ResumeBegin(drop)] + run;
  }

  lemma {:induction false} OneMoreStep(cfg: Config, s: System, run: seq<Label>, t: System, l: Label)
    requires Controls(cfg, s, run, t) && Enabled(cfg, t, l) && ControlStep(l)
    ensures Controls(cfg, s, run + [l], Apply(cfg, t, l))
    decreases |run|
  {
    hide Enabled, Apply;
    if run == [] {
      NoStep(cfg, Apply(cfg, t, l));
      OneStep(cfg, s, l, [], Apply(cfg, t, l));
      assert run + [l] == [l] + [];
    } else {
      var rest := run[1..];
      assert run == [run[0]] + rest && run[0] in run;
      OneMoreStep(cfg, Apply(cfg, s, run[0]), rest, t, l);
      OneStep(cfg, s, run[0], rest + [l], Apply(cfg, t, l));
      assert run + [l] == [run[0]] + (rest + [l]);
    }
  }
}
