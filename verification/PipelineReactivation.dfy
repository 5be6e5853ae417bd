/** Reactivating the hardware while the worker may still launch: when a launch gets ahead of
    the relaunch of lost commands, and what that costs. */
module PipelineReactivation {
  import opened LaunchLog
  import opened Options
  import opened Pipeline
  import opened PipelineInvariant
  import opened PipelineSteps
  import opened PipelineTheorems

  /** The worker launches a command that is not idempotent. */
  predicate LaunchesEffect(s: System, s': System) {
    |s'.launches| == |s.launches| + 1 && s'.launches[|s.launches|].index !in s.cmds.idempotent
  }

  lemma OthersOvertakeNothing(cfg: Config, s: System, l: Label)
    requires Enabled(cfg, s, l) && l != WorkerCheck && l != WorkerRelock && l != LaunchAwaited && l != DeviceLose
    ensures Apply(cfg, s, l).dev.overtaken == s.dev.overtaken && Apply(cfg, s, l).launches == s.launches
  {
    hide PopThrough, CutPoint, ScanLog, IsWaitAll, SlotCommand, FirstLost, Check;
  }

  /** While lost commands are to be relaunched the worker is paused, so that only a command
      that it finds completed lets it go on. */
  lemma ExposedLaunch(cfg: Config, s: System, l: Label)
    requires Inv(cfg, s) && Exposed(s) && Enabled(cfg, s, l) && (l == WorkerCheck || l == WorkerRelock || l == LaunchAwaited)
    ensures s.worker.state.Paused?
    ensures var t := Apply(cfg, s, l);
            if l == WorkerCheck && s.pc.Draining? && s.pc.full then t == LaunchHeld(cfg, s, s.pc.held)
            else t.dev == s.dev && t.launches == s.launches
  {
    hide LogInv, FeedInv, AuxInv, ThreadInv, DeviceInv, PastInv, LaunchHeld, Pop;
    if l == WorkerRelock { WorkerSyncFact(cfg, s); }
  }

  lemma QuietLaunch(cfg: Config, s: System, l: Label)
    requires !Exposed(s) && Enabled(cfg, s, l) && (l == WorkerCheck || l == WorkerRelock || l == LaunchAwaited)
    ensures Apply(cfg, s, l).dev.overtaken == s.dev.overtaken
  {
    hide PopThrough, CutPoint;
  }

  /** Commands get overtaken exactly if one that is not idempotent is launched while lost ones
      are still to be relaunched, or is pending behind one lost after the wait had ended. */
  lemma OvertakingSteps(cfg: Config, s: System, l: Label)
    requires Reachable(cfg, s) && Enabled(cfg, s, l) && !s.dev.overtaken
    ensures Apply(cfg, s, l).dev.overtaken
            <==> || (Exposed(s) && LaunchesEffect(s, Apply(cfg, s, l)))
                 || (&& l == DeviceLose && s.ctl.pc == Drained(false)
                     && exists y :: y in s.dev.pending[1..] && y !in s.cmds.idempotent)
  {
    ReachableInv(cfg, s);
    hide Reachable, Run, Inv;
    if l == DeviceLose {
    } else if l == WorkerCheck || l == WorkerRelock || l == LaunchAwaited {
      if Exposed(s) {
        ExposedLaunch(cfg, s, l);
        hide Apply, Enabled;
      } else {
        QuietLaunch(cfg, s, l);
        hide Apply;
      }
    } else {
      OthersOvertakeNothing(cfg, s, l);
      hide Apply;
    }
  }

  /** It takes a level that deactivates, and a dropping resume or another synchronizing thread. */
  lemma OvertakingNeedsDisturbance(cfg: Config, s: System)
    requires Reachable(cfg, s) && s.dev.overtaken
    ensures cfg.level != Block && (s.seen.drop || s.seen.appSync)
  {
    hide Reachable, Run;
    ReachableInv(cfg, s);
  }

  /** A command that is pending already is still to be relaunched. */
  ghost predicate WillRepeat(s: System, y: int) {
    && y in s.dev.pending && y in s.worker.log && y !in s.cmds.idempotent
    && ((s.ctl.pc.Relaunching? && s.ctl.pc.next <= y && !s.dev.lossy) || (s.ctl.pc == Drained(false) && s.dev.lossy))
  }

  lemma LaunchedWillRepeat(cfg: Config, s: System)
    requires FeedInv(s.cmds, s.buf.queue, s.pc) && DeviceInv(s.cmds, s.worker, s.ctl, s.dev) && s.pc.Draining? && Exposed(s)
    requires !s.dev.overtaken && LaunchHeld(cfg, s, s.pc.held).dev.overtaken
    ensures WillRepeat(LaunchHeld(cfg, s, s.pc.held), s.pc.held)
  {
    hide TraceOk, TruthOk, Follows;
    var t := LaunchHeld(cfg, s, s.pc.held);
    assert t.worker.log[|s.worker.log|] == s.pc.held && t.dev.pending[|s.dev.pending|] == s.pc.held;
  }

  lemma LosingWillRepeat(s: System) returns (y: int)
    requires DeviceInv(s.cmds, s.worker, s.ctl, s.dev) && s.dev.pending != [] && s.ctl.pc == Drained(false)
    requires exists y :: y in s.dev.pending[1..] && y !in s.cmds.idempotent
    ensures WillRepeat(DoLose(s), y)
  {
    hide TraceOk, TruthOk, Follows;
    y :| y in s.dev.pending[1..] && y !in s.cmds.idempotent;
    assert s.dev.pending == [s.dev.pending[0]] + s.dev.pending[1..];
  }

  lemma OvertakenWillRepeat(cfg: Config, s: System, l: Label) returns (y: int)
    requires Reachable(cfg, s) && Enabled(cfg, s, l) && !s.dev.overtaken && Apply(cfg, s, l).dev.overtaken
    ensures WillRepeat(Apply(cfg, s, l), y)
  {
    OvertakingSteps(cfg, s, l);
    ReachableInv(cfg, s);
    hide Reachable, Run, LogInv, FeedInv, AuxInv, ThreadInv, DeviceInv, PastInv, LaunchHeld, WillRepeat;
    if l == DeviceLose {
      y := LosingWillRepeat(s);
    } else if l == WorkerCheck || l == WorkerRelock || l == LaunchAwaited {
      ExposedLaunch(cfg, s, l);
      hide Apply;
      LaunchedWillRepeat(cfg, s);
      y := s.pc.held;
    } else {
      OthersOvertakeNothing(cfg, s, l);
      assert false;
    }
  }

  lemma OneStepRun(cfg: Config, s: System, l: Label, rest: seq<Label>)
    requires Enabled(cfg, s, l)
    ensures Run(cfg, s, [l] + rest) == Run(cfg, Apply(cfg, s, l), rest)
  {
    hide Enabled, Apply;
    assert ([l] + rest)[1..] == rest;
  }

  lemma {:induction false} RunsPending(cfg: Config, s: System) returns (run: seq<Label>)
    requires !s.dev.lossy
    ensures Run(cfg, s, run).Some?
    ensures var t := Run(cfg, s, run).value;
            t.dev.trace == s.dev.trace + s.dev.pending && t.cmds == s.cmds
    decreases |s.dev.pending|
  {
    if s.dev.pending == [] {
      run := [];
    } else {
      assert Enabled(cfg, s, DeviceRun);
      var t := Apply(cfg, s, DeviceRun);
      assert t.cmds == s.cmds && t.dev.pending == s.dev.pending[1..] && t.dev.trace == s.dev.trace + [s.dev.pending[0]] && !t.dev.lossy;
      hide Enabled, Apply;
      var rest := RunsPending(cfg, t);
      run := [DeviceRun] + rest;
      OneStepRun(cfg, s, DeviceRun, rest);
      hide Run;
      assert s.dev.pending == [s.dev.pending[0]] + s.dev.pending[1..];
    }
  }

  lemma PartsOfInv(cfg: Config, s: System)
    requires Inv(cfg, s)
    ensures LogInv(cfg, s.cmds, s.worker) && DeviceInv(s.cmds, s.worker, s.ctl, s.dev)
  {
  }

  lemma RelaunchIs(cfg: Config, s: System)
    requires s.ctl.pc.Relaunching? && NextLost(s).Some?
    ensures Enabled(cfg, s, Relaunch) && Apply(cfg, s, Relaunch) == DoRelaunch(s)
  {
  }

  lemma RelaunchStep(cfg: Config, s: System, y: int)
    requires Inv(cfg, s) && s.ctl.pc.Relaunching? && y in s.worker.log && s.ctl.pc.next <= y
    ensures NextLost(s).Some? && Enabled(cfg, s, Relaunch) && Apply(cfg, s, Relaunch) == DoRelaunch(s)
    ensures Inv(cfg, DoRelaunch(s)) && s.ctl.pc.next < DoRelaunch(s).ctl.pc.next <= y + 1
  {
    PartsOfInv(cfg, s);
    hide Inv, Enabled, Apply;
    NextLostIs(cfg, s);
    hide LogInv, DeviceInv, NextLost;
    RelaunchIs(cfg, s);
    KeepsInv(cfg, s, Relaunch);
  }

  /** The walk over the log reaches every command in front of it. */
  lemma {:induction false} RelaunchesUpTo(cfg: Config, s: System, y: int) returns (run: seq<Label>)
    requires Inv(cfg, s) && s.ctl.pc.Relaunching? && y in s.worker.log && s.ctl.pc.next <= y && !s.dev.lossy
    ensures Run(cfg, s, run).Some?
    ensures var t := Run(cfg, s, run).value;
            && t.cmds == s.cmds && !t.dev.lossy && t.dev.trace == s.dev.trace
            && |t.dev.pending| > |s.dev.pending| && s.dev.pending == t.dev.pending[..|s.dev.pending|]
            && t.dev.pending[|t.dev.pending| - 1] == y
    decreases y - s.ctl.pc.next
  {
    hide Inv, Enabled, Apply, NextLost;
    RelaunchStep(cfg, s, y);
    var t := DoRelaunch(s);
    if t.ctl.pc.next == y + 1 {
      run := [Relaunch] + [];
      OneStepRun(cfg, s, Relaunch, []);
    } else {
      var rest := RelaunchesUpTo(cfg, t, y);
      run := [Relaunch] + rest;
      OneStepRun(cfg, s, Relaunch, rest);
      hide Run;
    }
  }

  lemma ReactivateIs(cfg: Config, s: System)
    requires s.ctl.pc.Drained?
    ensures Enabled(cfg, s, ReactivateDevice) && Apply(cfg, s, ReactivateDevice) == DoReactivate(s)
  {
  }

  lemma RepeatStart(cfg: Config, s: System, y: int)
    requires Inv(cfg, s) && WillRepeat(s, y) && s.ctl.pc.Drained?
    ensures Enabled(cfg, s, ReactivateDevice) && Apply(cfg, s, ReactivateDevice) == DoReactivate(s)
    ensures Inv(cfg, DoReactivate(s)) && WillRepeat(DoReactivate(s), y) && DoReactivate(s).ctl.pc.Relaunching?
  {
    PartsOfInv(cfg, s);
    hide Inv, Enabled, Apply, FirstLost;
    BeforeFirstLost(s.worker.log, s.dev.trace);
    hide LogInv, TraceOk, TruthOk, Follows;
    ReactivateIs(cfg, s);
    KeepsInv(cfg, s, ReactivateDevice);
  }

  /** The walk of `Reactivate` is under way, if necessary after its first step. */
  lemma RepeatsWalk(cfg: Config, s: System, y: int) returns (run: seq<Label>, t: System)
    requires Inv(cfg, s) && WillRepeat(s, y)
    ensures Run(cfg, s, run) == Some(t)
    ensures Inv(cfg, t) && WillRepeat(t, y) && t.ctl.pc.Relaunching? && t.cmds == s.cmds
  {
    hide Inv, Enabled, Apply, FirstLost;
    run, t := [], s;
    if s.ctl.pc.Drained? {
      RepeatStart(cfg, s, y);
      OneStepRun(cfg, s, ReactivateDevice, []);
      run, t := [ReactivateDevice] + [], DoReactivate(s);
    }
  }

  /** A command that will be relaunched although it is pending can be made to run twice. */
  lemma RepeatsRun(cfg: Config, s: System, y: int) returns (run: seq<Label>)
    requires Inv(cfg, s) && WillRepeat(s, y)
    ensures Run(cfg, s, run).Some?
    ensures var t := Run(cfg, s, run).value; !EffectsInOrder(t.dev.trace, t.cmds.idempotent)
  {
    hide Inv, Enabled, Apply, EffectsInOrder, Run;
    var first, t := RepeatsWalk(cfg, s, y);
    var walk := RelaunchesUpTo(cfg, t, y);
    var u := Run(cfg, t, walk).value;
    var last := RunsPending(cfg, u);
    RunConcat(cfg, s, first, walk);
    RunConcat(cfg, s, first + walk, last);
    run := first + walk + last;
    RunTwice(t, u, Run(cfg, u, last).value, y);
  }

  lemma RunTwice(t: System, u: System, v: System, y: int)
    requires y in t.dev.pending && y !in t.cmds.idempotent
    requires |u.dev.pending| > |t.dev.pending| && t.dev.pending == u.dev.pending[..|t.dev.pending|]
    requires u.dev.pending[|u.dev.pending| - 1] == y && v.dev.trace == u.dev.trace + u.dev.pending
    requires v.cmds == t.cmds
    ensures !EffectsInOrder(v.dev.trace, v.cmds.idempotent)
  {
    var i :| 0 <= i < |t.dev.pending| && t.dev.pending[i] == y;
    var n := |u.dev.trace|;
    assert v.dev.trace[n + i] == y && v.dev.trace[n + |u.dev.pending| - 1] == y;
  }

  /** The condition is exact. When commands are overtaken, the guarantee is lost: some
      continuation runs a command that is not idempotent twice. */
  lemma OvertakingBreaksOrder(cfg: Config, s: System, l: Label) returns (run: seq<Label>)
    requires Reachable(cfg, s) && Enabled(cfg, s, l) && !s.dev.overtaken && Apply(cfg, s, l).dev.overtaken
    ensures Run(cfg, Apply(cfg, s, l), run).Some?
    ensures var t := Run(cfg, Apply(cfg, s, l), run).value; !EffectsInOrder(t.dev.trace, t.cmds.idempotent)
  {
    hide Run, EffectsInOrder, Inv;
    ReachableInv(cfg, s);
    KeepsInv(cfg, s, l);
    var y := OvertakenWillRepeat(cfg, s, l);
    hide Enabled, Apply, WillRepeat;
    run := RepeatsRun(cfg, Apply(cfg, s, l), y);
  }
}
