/** Runs that show why the conditions of the pipeline theorems are needed. */
module PipelineCounterexamples {
  import opened LaunchLog
  import opened Options
  import opened Pipeline
  import opened PipelineInvariant
  import opened PipelineTheorems

  lemma Go(cfg: Config, s: System, l: Label) returns (t: System)
    requires Reachable(cfg, s) && Enabled(cfg, s, l)
    ensures Reachable(cfg, t) && t == Apply(cfg, s, l)
  {
    hide Enabled, Apply;
    StepFromReachable(cfg, s, l);
    t := Apply(cfg, s, l);
  }

  lemma InitIsReachable(cfg: Config)
    requires ValidConfig(cfg)
    ensures Reachable(cfg, Init())
  {
    assert Run(cfg, Init(), []) == Some(Init());
  }

  const TIGHT := Config(Block, 1, 1)

  /** The worker has handled the constructor's wait-all command. */
  lemma Started(cfg: Config) returns (s: System)
    requires ValidConfig(cfg)
    ensures Reachable(cfg, s)
    ensures s == Init().(aux := Auxiliary([Aux(WaitAll, 0)], {0}, {}), buf := Init().buf.(queue := []))
  {
    hide Reachable, ValidConfig;
    hide PopThrough, CutPoint, ScanLog;
    var i := Init();
    assert Reachable(cfg, i) by { InitIsReachable(cfg); }
    s := Go(cfg, i, Fetch);
    assert s == i.(buf := i.buf.(queue := []), pc := AuxEntering(0));
    s := Go(cfg, s, AuxEnter);
    assert s == i.(buf := i.buf.(queue := []), pc := AuxSyncing(0, Sync(AllCommands, Checking)));
    s := Go(cfg, s, WorkerCheck);
    assert s == i.(buf := i.buf.(queue := []), pc := AuxFinishing(0));
    s := Go(cfg, s, AuxFinish);
  }

  /** The worker holds the first command. */
  lemma OneHeld(cfg: Config, canEnable: bool) returns (t: System)
    requires cfg == TIGHT
    ensures Reachable(cfg, t)
    ensures t == OneInFlightState(canEnable).(
              cmds := Commands(1, {}, {}, if canEnable then {1} else {}, {}, {}, {}, {}),
              worker := Worker([], [], -1, -1, 0, Running), pc := Entering(1),
              dev := Device([], [], false, false, false), launches := [])
  {
    hide Reachable, ValidConfig;
    assert ValidConfig(cfg) by { TightIsValid(); }
    var s := Started(cfg);
    var e := if canEnable then {1} else {};
    var t1 := Go(cfg, s, Submit(false, false, canEnable, false));
    assert t1 == s.(cmds := Commands(1, {}, {}, e, {}, {}, {}, {}), buf := Buffer([HwRef(1)], HwRef(1), true, [BecameReady], 0));
    var t2 := Go(cfg, t1, Fetch);
    t := t2;
  }

  /** One command, synchronizable or not, is in flight. */
  lemma OneInFlight(cfg: Config, canEnable: bool) returns (t: System)
    requires cfg == TIGHT
    ensures Reachable(cfg, t) && t == OneInFlightState(canEnable)
  {
    hide Reachable;
    var s := OneHeld(cfg, canEnable);
    var t1 := Go(cfg, s, Enter);
    assert t1 == s.(pc := CheckingFull(1));
    var t2 := Go(cfg, t1, CheckFull);
    assert t2 == s.(pc := AwaitingRunning(1));
    t := Go(cfg, t2, LaunchAwaited);
  }

  function OneInFlightState(canEnable: bool): System {
    var e: set<int> := if canEnable then {1} else {};
    System(Commands(1, {}, {}, e, e, {1}, {}, {}), Auxiliary([Aux(WaitAll, 0)], {0}, {}),
           Buffer([], HwRef(1), true, [BecameReady], 0),
           Worker([1], if canEnable then [1] else [], if canEnable then 1 else -1, -1, 0, Running),
           Fetching, map[], Control(NoCall, false, false), Device([1], [], false, false, false),
           [Launch(1, Running, -1)], Seen(false, false, false))
  }

  lemma TightIsValid()
    ensures ValidConfig(TIGHT)
  {
  }

  /** A full log of commands that cannot be synchronized is drained as a whole. */
  lemma FullLogIsDrained() returns (t: System)
    ensures Reachable(TIGHT, t) && t.pc.CheckingFull? && |t.worker.log| >= TIGHT.threshold
    ensures DoCheckFull(TIGHT, t).pc.sync.target == AllCommands
  {
    hide Reachable, ValidConfig;
    var cfg := TIGHT;
    var s := OneInFlight(cfg, false);
    var t1 := Go(cfg, s, Submit(false, false, false, false));
    var t2 := Go(cfg, t1, Fetch);
    var t3 := Go(cfg, t2, Enter);
    t := t3;
  }

  /** The worker waits on the hardware for the command in flight, to have a slot for a second one. */
  lemma WaitingForSlot(cfg: Config) returns (t: System)
    requires cfg == TIGHT
    ensures Reachable(cfg, t) && t == WaitingForSlotState()
  {
    hide Reachable;
    var s := OneInFlight(cfg, true);
    var t1 := Go(cfg, s, Submit(false, false, false, false));
    var t2 := Go(cfg, t1, Fetch);
    assert t2 == WaitingForSlotState().(pc := Entering(2));
    var t3 := Go(cfg, t2, Enter);
    assert t3 == t2.(pc := CheckingFull(2));
    var t4 := Go(cfg, t3, CheckFull);
    assert t4 == t2.(pc := Draining(2, Sync(OneCommand(1), Checking), true));
    t := Go(cfg, t4, WorkerCheck);
  }

  function WaitingForSlotState(): System {
    var s := OneInFlightState(true);
    s.(cmds := s.cmds.(count := 2), buf := Buffer([], HwRef(2), true, [BecameReady], 0),
       pc := Draining(2, Sync(OneCommand(1), OnHardware(0, false)), true))
  }

  /** Meanwhile an application thread waits for the same command, and completes it. */
  lemma CompletedByApplication(cfg: Config) returns (t: System)
    requires cfg == TIGHT
    ensures Reachable(cfg, t) && t == CompletedByApplicationState()
  {
    hide Reachable;
    var s := WaitingForSlot(cfg);
    var t1 := Go(cfg, s, AppStart(7, 1));
    assert t1 == s.(apps := map[7 := Sync(OneCommand(1), Checking)], seen := Seen(false, true, false));
    var t2 := Go(cfg, t1, AppCheck(7));
    assert t2 == t1.(apps := map[7 := Sync(OneCommand(1), OnHardware(0, false))]);
    var t3 := Go(cfg, t2, DeviceRun);
    assert t3 == t2.(dev := Device([], [1], false, false, false));
    var t4 := Go(cfg, t3, AppReturn(7));
    assert t4 == t3.(apps := map[7 := Sync(OneCommand(1), OnHardware(0, true))]);
    t := Go(cfg, t4, AppRelock(7));
    assert t == CompletedByApplicationState() by { PopOnlyCommand(); }
  }

  lemma PopOnlyCommand()
    ensures CutPoint([1], 1) == 1 && PopThrough([1], 1) == [] && [1][..1] == [1]
  {
    assert CutPoint([1][1..], 1) == 0;
  }

  function CompletedByApplicationState(): System {
    var s := WaitingForSlotState();
    s.(cmds := s.cmds.(done := {1}), worker := Worker([], [], 1, -1, 0, Running),
       dev := Device([], [1], false, false, false), seen := Seen(false, true, false))
  }

  /** With an application thread synchronizing as well, the worker can launch while paused. */
  lemma PausedLaunchIsPossible() returns (t: System)
    ensures Reachable(TIGHT, t) && !t.seen.drop
    ensures t.launches == [Launch(1, Running, -1), Launch(2, Paused, -1)]
  {
    hide Reachable;
    var cfg := TIGHT;
    var s := CompletedByApplication(cfg);
    var t1 := Go(cfg, s, SuspendBegin);
    assert t1 == s.(ctl := Control(Pausing, true, false));
    var t2 := Go(cfg, t1, PauseWorker);
    assert t2 == s.(ctl := Control(NoCall, true, false), worker := Worker([], [], 1, -1, 1, Paused));
    var t3 := Go(cfg, t2, WorkerReturn);
    assert t3 == t2.(pc := Draining(2, Sync(OneCommand(1), OnHardware(0, true)), true));
    var t4 := Go(cfg, t3, WorkerRelock);
    assert t4 == t2.(pc := Draining(2, Sync(OneCommand(1), Checking), true));
    t := Go(cfg, t4, WorkerCheck);
  }

  const DEACTIVATING := Config(Deactivate, 1, 1)

  /** The worker holds a command, and a wait-all command behind it is in the buffer. */
  lemma HeldBeforeWaitAll(cfg: Config) returns (t: System)
    requires cfg == DEACTIVATING
    ensures Reachable(cfg, t) && t == HeldBeforeWaitAllState()
  {
    hide Reachable, ValidConfig;
    assert ValidConfig(cfg) by { DeactivateIsValid(); }
    var s := Started(cfg);
    var t1 := Go(cfg, s, Submit(false, false, false, false));
    var t2 := Go(cfg, t1, Fetch);
    assert t2 == HeldBeforeWaitAllState().(buf := Buffer([], HwRef(1), true, [BecameReady], 0), aux := s.aux);
    t := Go(cfg, t2, RequestWaitAll);
  }

  function HeldBeforeWaitAllState(): System {
    var s := Init();
    s.(cmds := s.cmds.(count := 1), aux := Auxiliary([Aux(WaitAll, 0), Aux(WaitAll, 1)], {0}, {}),
       buf := Buffer([AuxRef(1)], AuxRef(1), true, [BecameReady], 0), pc := Entering(1))
  }

  /** The queue is suspended, and a dropping resume has reactivated the hardware. */
  lemma AboutToDrop(cfg: Config) returns (t: System)
    requires cfg == DEACTIVATING
    ensures Reachable(cfg, t) && t.ctl.pc == DroppingBuffer
    ensures t.cmds == HeldBeforeWaitAllState().cmds && t.aux == HeldBeforeWaitAllState().aux
    ensures t.buf == HeldBeforeWaitAllState().buf
  {
    hide Reachable, ValidConfig;
    var s := HeldBeforeWaitAll(cfg);
    var t1 := Go(cfg, s, SuspendBegin);
    assert t1 == s.(ctl := Control(Pausing, true, false));
    var t2 := Go(cfg, t1, PauseWorker);
    assert t2 == s.(ctl := Control(Deactivating, true, false), worker := Worker([], [], -1, -1, 1, Paused));
    var t3 := Go(cfg, t2, DeactivateDevice);
    assert t3 == t2.(ctl := Control(NoCall, true, false), dev := Device([], [], true, false, false));
    var t4 := Go(cfg, t3, ResumeBegin(true));
    assert t4 == t3.(ctl := Control(Reactivating(true), false, false), seen := Seen(true, false, false));
    var t5 := Go(cfg, t4, DrainDevice);
    assert t5 == t4.(ctl := Control(Drained(true), false, false));
    t := Go(cfg, t5, ReactivateDevice);
  }

  /** A dropping resume completes a wait-all command while a command it covers is still in
      the worker's hands. */
  lemma DroppedWaitAllIsEarly() returns (t: System)
    ensures Reachable(DEACTIVATING, t)
    ensures |t.aux.made| == 2 && t.aux.made[1] == Aux(WaitAll, 1) && 1 in t.aux.done && 1 !in t.cmds.done
  {
    hide Reachable, ValidConfig;
    var s := AboutToDrop(DEACTIVATING);
    assert AuxRef(1) in s.buf.queue;
    t := Go(DEACTIVATING, s, DropBuffer);
  }

  lemma DeactivateIsValid()
    ensures ValidConfig(DEACTIVATING)
  {
  }

  /** A host function enqueued while the queue is idle makes the next wait-all request
      fail its assertion. */
  lemma HostFunctionBreaksWaitAll(cfg: Config) returns (t: System)
    requires ValidConfig(cfg)
    ensures Reachable(cfg, t) && !WaitAllAssertionHolds(t)
  {
    InitIsReachable(cfg);
    t := Go(cfg, Init(), EnqueueHostFunction);
  }

  // ----- a launch that overtakes lost commands -----

  const PAIR := Config(Deactivate, 2, 1)

  lemma PairIsValid()
    ensures ValidConfig(PAIR)
  {
  }

  function Numbers(n: nat): set<int> {
    if n == 0 then {} else Numbers(n - 1) + {n}
  }

  /** `n` commands have been submitted, all deactivatable and none idempotent, and the first `k`
      launched; the worker is at `pc`. */
  function PairState(n: nat, k: nat, pc: WorkerPc): System
    requires k <= n
  {
    var all, some := Numbers(n), Numbers(k);
    System(Commands(n, all, {}, all, some, some, {}, {}), Auxiliary([Aux(WaitAll, 0)], {0}, {}),
           Buffer([], if n == 0 then AuxRef(0) else HwRef(n), n > 0, if n == 0 then [] else [BecameReady], 0),
           Worker(Upto(k), Upto(k), if k == 0 then -1 else k, -1, 0, Running),
           pc, map[], Control(NoCall, false, false), Device(Upto(k), [], false, false, false),
           seq(k, i => Launch(i + 1, Running, -1)), Seen(false, false, false))
  }

  lemma OneMoreSubmitted(cfg: Config, s: System, n: nat) returns (t: System)
    requires cfg == PAIR && Reachable(cfg, s) && s == PairState(n, n, Fetching)
    ensures Reachable(cfg, t)
    ensures t == PairState(n + 1, n, Fetching).(buf := Buffer([HwRef(n + 1)], HwRef(n + 1), true, [BecameReady], 0))
  {
    hide Reachable, Upto;
    assert Numbers(n + 1) == Numbers(n) + {n + 1};
    hide Numbers;
    t := Go(cfg, s, Submit(true, false, true, false));
  }

  /** One more command is submitted and taken by the worker. */
  lemma OneMoreTaken(cfg: Config, s: System, n: nat) returns (t: System)
    requires cfg == PAIR && Reachable(cfg, s) && s == PairState(n, n, Fetching)
    ensures Reachable(cfg, t) && t == PairState(n + 1, n, Entering(n + 1))
  {
    hide Reachable, Upto, Numbers;
    var t1 := OneMoreSubmitted(cfg, s, n);
    t := Go(cfg, t1, Fetch);
  }

  lemma OneMore(cfg: Config, s: System, n: nat) returns (t: System)
    requires cfg == PAIR && Reachable(cfg, s) && s == PairState(n, n, Fetching)
    ensures Reachable(cfg, t) && t == PairState(n + 1, n, CheckingFull(n + 1))
  {
    hide Reachable, Upto;
    var t1 := OneMoreTaken(cfg, s, n);
    t := Go(cfg, t1, Enter);
  }

  /** It is launched while there is room. */
  lemma OneMoreLaunched(cfg: Config, s: System, n: nat) returns (t: System)
    requires cfg == PAIR && n < 2 && Reachable(cfg, s) && s == PairState(n, n, Fetching)
    ensures Reachable(cfg, t) && t == PairState(n + 1, n + 1, Fetching)
  {
    hide Reachable;
    var t1 := OneMore(cfg, s, n);
    hide Upto;
    var t2 := Go(cfg, t1, CheckFull);
    assert t2 == PairState(n + 1, n, AwaitingRunning(n + 1));
    t := Go(cfg, t2, LaunchAwaited);
    assert Upto(n + 1) == Upto(n) + [n + 1];
  }

  /** Two commands are in flight, and the worker waits for the first to launch a third. */
  lemma WaitingForFirst(cfg: Config) returns (t: System)
    requires cfg == PAIR
    ensures Reachable(cfg, t)
    ensures t == PairState(3, 2, Draining(3, Sync(OneCommand(1), OnHardware(0, false)), true))
  {
    hide Reachable, ValidConfig;
    assert ValidConfig(cfg) by { PairIsValid(); }
    var s := Started(cfg);
    assert s == PairState(0, 0, Fetching);
    var s1 := OneMoreLaunched(cfg, s, 0);
    var s2 := OneMoreLaunched(cfg, s1, 1);
    var s3 := OneMore(cfg, s2, 2);
    assert Upto(2) == [1, 2];
    var s4 := Go(cfg, s3, CheckFull);
    assert s4 == PairState(3, 2, Draining(3, Sync(OneCommand(1), Checking), true));
    t := Go(cfg, s4, WorkerCheck);
  }

  /** The first command has been completed by an application thread, which the worker, waiting
      for it as well, has not seen yet. */
  function FirstPopped(): System {
    var s := PairState(3, 2, Draining(3, Sync(OneCommand(1), OnHardware(0, false)), true));
    s.(cmds := s.cmds.(done := {1}), worker := Worker([2], [2], 2, -1, 0, Running),
       dev := Device([2], [1], false, false, false), seen := Seen(false, true, false))
  }

  lemma PopFirst()
    ensures CutPoint([1, 2], 1) == 1 && PopThrough([1, 2], 1) == [2] && [1, 2][..1] == [1]
  {
    assert [1, 2][1..] == [2];
    assert CutPoint([1, 2][1..], 1) == 0;
  }

  lemma FirstCompletedByApplication(cfg: Config) returns (t: System)
    requires cfg == PAIR
    ensures Reachable(cfg, t) && t == FirstPopped()
  {
    hide Reachable;
    var s := WaitingForFirst(cfg);
    assert Upto(2) == [1, 2];
    var t1 := Go(cfg, s, AppStart(7, 1));
    assert t1 == s.(apps := map[7 := Sync(OneCommand(1), Checking)], seen := Seen(false, true, false));
    var t2 := Go(cfg, t1, AppCheck(7));
    assert t2 == t1.(apps := map[7 := Sync(OneCommand(1), OnHardware(0, false))]);
    var t3 := Go(cfg, t2, DeviceRun);
    assert t3 == t2.(dev := Device([2], [1], false, false, false));
    var t4 := Go(cfg, t3, AppReturn(7));
    assert t4 == t3.(apps := map[7 := Sync(OneCommand(1), OnHardware(0, true))]);
    t := Go(cfg, t4, AppRelock(7));
    assert t == FirstPopped() by { PopFirst(); }
  }

  /** The queue is suspended, the second command is lost, and its relaunch is about to start. */
  function AboutToRelaunch(): System {
    FirstPopped().(worker := Worker([2], [2], 2, -1, 1, Paused), ctl := Control(Relaunching(2), false, false),
                   dev := Device([], [1], false, false, false))
  }

  lemma SecondInDanger(cfg: Config) returns (t: System)
    requires cfg == PAIR
    ensures Reachable(cfg, t)
    ensures t == AboutToRelaunch().(ctl := Control(NoCall, true, false), dev := Device([2], [1], true, false, false))
  {
    hide Reachable, PopThrough, CutPoint, ScanLog, SlotCommand, FirstLost;
    var s := FirstCompletedByApplication(cfg);
    var t1 := Go(cfg, s, SuspendBegin);
    assert t1 == s.(ctl := Control(Pausing, true, false));
    var t2 := Go(cfg, t1, PauseWorker);
    assert t2 == s.(ctl := Control(Deactivating, true, false), worker := Worker([2], [2], 2, -1, 1, Paused));
    t := Go(cfg, t2, DeactivateDevice);
  }

  lemma SecondIsThrownAway(cfg: Config) returns (t: System)
    requires cfg == PAIR
    ensures Reachable(cfg, t)
    ensures t == AboutToRelaunch().(ctl := Control(Reactivating(false), false, false), dev := Device([], [1], true, true, false))
  {
    hide Reachable, PopThrough, CutPoint, ScanLog, SlotCommand, FirstLost;
    var s := SecondInDanger(cfg);
    var t1 := Go(cfg, s, DeviceLose);
    assert t1 == s.(dev := Device([], [1], true, true, false));
    t := Go(cfg, t1, ResumeBegin(false));
  }

  lemma SecondIsLost(cfg: Config) returns (t: System)
    requires cfg == PAIR
    ensures Reachable(cfg, t) && t == AboutToRelaunch()
  {
    hide Reachable, PopThrough, CutPoint, ScanLog, SlotCommand;
    var s := SecondIsThrownAway(cfg);
    var t1 := Go(cfg, s, DrainDevice);
    assert t1 == s.(ctl := Control(Drained(false), false, false));
    t := Go(cfg, t1, ReactivateDevice);
  }

  /** The worker has found its command completed and launched the third, ahead of the second. */
  lemma ThirdOvertakes(cfg: Config) returns (t: System)
    requires cfg == PAIR
    ensures Reachable(cfg, t) && t.ctl.pc == Relaunching(2) && t.worker.log == [2, 3]
    ensures t.dev == Device([3], [1], false, false, true) && t.cmds.idempotent == {} && !t.seen.drop
  {
    hide Reachable;
    var s := SecondIsLost(cfg);
    var t1 := Go(cfg, s, WorkerReturn);
    assert t1 == s.(pc := Draining(3, Sync(OneCommand(1), OnHardware(0, true)), true));
    var t2 := Go(cfg, t1, WorkerRelock);
    assert t2 == s.(pc := Draining(3, Sync(OneCommand(1), Checking), true));
    t := Go(cfg, t2, WorkerCheck);
  }

  /** A command runs ahead of an earlier one, and twice: the worker launches the third command
      while the second, lost, waits for its relaunch, and the walk over the log then
      relaunches both. No command is idempotent, and nothing is dropped. */
  lemma RelaunchIsOvertaken() returns (t: System)
    ensures Reachable(PAIR, t) && t.cmds.idempotent == {} && !t.seen.drop
    ensures t.dev.trace == [1, 3, 2, 3]
  {
    hide Reachable;
    var cfg := PAIR;
    var s := ThirdOvertakes(cfg);
    var t1 := Go(cfg, s, Relaunch);
    assert t1 == s.(dev := Device([3, 2], [1], false, false, true), ctl := s.ctl.(pc := Relaunching(3)));
    assert SlotCommand([2, 3], 3) == Some(3) by { assert [2, 3][1..] == [3]; }
    var t2 := Go(cfg, t1, Relaunch);
    assert t2 == s.(dev := Device([3, 2, 3], [1], false, false, true), ctl := s.ctl.(pc := Relaunching(4)));
    t := AllPendingRun(cfg, t2);
  }

  lemma AllPendingRun(cfg: Config, s: System) returns (t: System)
    requires Reachable(cfg, s) && s.dev == Device([3, 2, 3], [1], false, false, true)
    ensures Reachable(cfg, t) && t == s.(dev := Device([], [1, 3, 2, 3], false, false, true))
  {
    hide Reachable;
    var t1 := Go(cfg, s, DeviceRun);
    assert t1 == s.(dev := Device([2, 3], [1, 3], false, false, true));
    var t2 := Go(cfg, t1, DeviceRun);
    assert t2 == s.(dev := Device([3], [1, 3, 2], false, false, true));
    t := Go(cfg, t2, DeviceRun);
  }
}
