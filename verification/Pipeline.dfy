/** One XQueue as a system of interleaved steps: the command buffer, the launch
    worker with its two logs, application threads that synchronize single commands,
    the suspend and resume calls, and an in-order hardware queue that may lose
    deactivatable commands while it is deactivated.

    A step of the buffer, the worker or an application thread is one stretch of code
    under the buffer's mutex or the worker's lock. The suspending and resuming thread holds
    neither while it talks to the hardware, so there each call is a step of its own, and
    so is the relaunch of each command when the hardware is reactivated: it walks over
    the log as it is at that moment. */
module Pipeline {
  import opened LaunchLog
  import opened Options

  datatype Level = Block | Deactivate | Interrupt

  datatype Config = Config(level: Level, threshold: int, batchSize: int)

  ghost predicate ValidConfig(cfg: Config) {
    1 <= cfg.batchSize <= cfg.threshold
  }

  // ----- hardware commands -----

  /** Hardware commands are named by their index, 1 up to `count`. The sets say which
      of them have a property or have reached a state; a command that is neither
      launched nor done is pending. `dropped` are those completed without being
      waited for. */
  datatype Commands = Commands(
    count: nat,
    deactivatable: set<int>, idempotent: set<int>, canEnable: set<int>,
    synchronizable: set<int>,
    launched: set<int>, done: set<int>, dropped: set<int>)

  /** Neither deactivatable nor idempotent. */
  predicate Plain(c: Commands, h: int) {
    h !in c.deactivatable && h !in c.idempotent
  }

  // ----- the other commands -----

  datatype AuxKind = WaitAll | BatchSync | HostFunction | Destroy

  /** `cover` is how many hardware commands had been submitted when the command was made. */
  datatype Aux = Aux(kind: AuxKind, cover: nat)

  datatype Auxiliary = Auxiliary(made: seq<Aux>, done: set<nat>, dropped: set<nat>)

  datatype Ref = HwRef(index: int) | AuxRef(id: nat)

  // ----- the command buffer -----

  datatype QueueEvent = BecameReady | BecameIdle

  /** `events` are the events sent to the scheduler, `generated` counts the commands
      the buffer made up itself since the last enqueue. */
  datatype Buffer = Buffer(queue: seq<Ref>, last: Ref, ready: bool, events: seq<QueueEvent>, generated: nat)

  // ----- the launch worker -----

  datatype WorkerState = Running | Paused | Terminated

  datatype Worker = Worker(log: seq<int>, syncLog: seq<int>, lastSync: int, dropIdx: int,
                           pauseCount: nat, state: WorkerState)

  datatype Target = AllCommands | OneCommand(index: int)

  /** `Checking`: about to test the worker state. `OnHardware`: the lock is released
      and the thread waits for the hardware; `pauses` is the pause count it remembered. */
  datatype Phase = Checking | OnHardware(pauses: nat, returned: bool)

  datatype Sync = Sync(target: Target, phase: Phase)

  datatype WorkerPc =
    | Fetching
    | WaitingForCommand
    | Entering(held: int)
    | CheckingFull(held: int)
    | Draining(held: int, sync: Sync, full: bool)
    | AwaitingRunning(held: int)
    | AuxEntering(id: nat)
    | AuxSyncing(id: nat, sync: Sync)
    | AuxFinishing(id: nat)
    | Exited

  predicate Holds(pc: WorkerPc) {
    pc.Entering? || pc.CheckingFull? || pc.Draining? || pc.AwaitingRunning?
  }

  predicate Handles(pc: WorkerPc) {
    pc.AuxEntering? || pc.AuxSyncing? || pc.AuxFinishing?
  }

  // ----- suspend and resume -----

  datatype ControlPc =
    | NoCall
    | Pausing
    | Deactivating
    | Reactivating(drop: bool)
    | Drained(drop: bool)
    | Relaunching(next: int)
    | ResumingWorker
    | DroppingBuffer
    | ReadingDropIndex
    | DroppingLogs(dropIdx: int)

  datatype Control = Control(pc: ControlPc, suspended: bool, terminated: bool)

  // ----- the hardware queue -----

  /** `pending` are the launched commands the hardware has not passed yet, in order;
      `trace` are the executions so far. `lossy` says that a command was lost since
      the queue was deactivated. `overtaken` records that a command that is not
      idempotent got ahead of lost commands that were still to be relaunched. */
  datatype Device = Device(pending: seq<int>, trace: seq<int>, off: bool, lossy: bool, overtaken: bool)

  // ----- history -----

  datatype Launch = Launch(index: int, state: WorkerState, dropIdx: int)

  /** Which kinds of step the run has contained. */
  datatype Seen = Seen(drop: bool, appSync: bool, otherEnqueue: bool)

  datatype System = System(
    cmds: Commands, aux: Auxiliary, buf: Buffer, worker: Worker, pc: WorkerPc,
    apps: map<nat, Sync>, ctl: Control, dev: Device, launches: seq<Launch>, seen: Seen)

  /** After the constructor: one wait-all command has been enqueued. */
  function Init(): System {
    System(
      Commands(0, {}, {}, {}, {}, {}, {}, {}),
      Auxiliary([Aux(WaitAll, 0)], {}, {}),
      Buffer([AuxRef(0)], AuxRef(0), false, [], 0),
      Worker([], [], -1, -1, 0, Running),
      Fetching, map[], Control(NoCall, false, false), Device([], [], false, false, false), [],
      Seen(false, false, false))
  }

  datatype Label =
    // application
    | Submit(deactivatable: bool, idempotent: bool, canEnable: bool, synchronizable: bool)
    | EnqueueHostFunction
    | RequestWaitAll
    | AppStart(thread: nat, index: int)
    | AppCheck(thread: nat)
    | AppReturn(thread: nat)
    | AppRelock(thread: nat)
    // worker thread
    | Fetch
    | FetchAwaited
    | Enter
    | CheckFull
    | WorkerCheck
    | WorkerReturn
    | WorkerRelock
    | LaunchAwaited
    | AuxEnter
    | AuxFinish
    // suspend, resume, destroy
    | SuspendBegin
    | PauseWorker
    | DeactivateDevice
    | ResumeBegin(drop: bool)
    | UnstallDevice
    | DrainDevice
    | ReactivateDevice
    | Relaunch
    | RelaunchEnd
    | ResumeWorker
    | DropBuffer
    | ReadDropIndex
    | DropLogs
    | DestroyBegin
    | EnqueueDestroy
    // hardware
    | DeviceRun
    | DeviceLose

  // ----- the buffer's own part of its operations -----

  /** `Enqueue`: a hardware command makes an idle queue ready. */
  function Enqueued(b: Buffer, r: Ref): Buffer {
    Buffer(b.queue + [r], r, b.ready || r.HwRef?,
           if r.HwRef? && !b.ready then b.events + [BecameReady] else b.events, 0)
  }

  /** `Dequeue` on an empty buffer whose last command is a wait-all command. */
  function Idled(b: Buffer): Buffer {
    if b.ready then b.(ready := false, events := b.events + [BecameIdle]) else b
  }

  /** `Dequeue` on an empty buffer, making up a command. */
  function Generated(b: Buffer, r: Ref): Buffer {
    b.(last := r, generated := b.generated + 1)
  }

  // ----- the worker's own part of its operations -----

  function PausedWorker(w: Worker): Worker {
    w.(state := Paused, pauseCount := w.pauseCount + 1)
  }

  function ResumedWorker(w: Worker): Worker {
    w.(state := Running)
  }

  function DroppedWorker(w: Worker, dropIdx: int): Worker {
    w.(log := [], syncLog := [], dropIdx := dropIdx, state := Running)
  }

  /** Popping the logs. */
  function PoppedWorker(w: Worker, t: Target): Worker {
    match t
    case AllCommands => w.(log := [], syncLog := [])
    case OneCommand(c) => w.(log := PopThrough(w.log, c), syncLog := PopThrough(w.syncLog, c))
  }

  /** Appending a launched command. */
  function LaunchedWorker(w: Worker, h: int, synchronizable: bool): Worker {
    w.(log := w.log + [h],
       syncLog := if synchronizable then w.syncLog + [h] else w.syncLog,
       lastSync := if synchronizable then h else w.lastSync)
  }

  /** The last command of a batch is made synchronizable. */
  predicate EndsBatch(cfg: Config, w: Worker, h: int) {
    h - w.lastSync >= cfg.batchSize
  }

  // ----- application steps -----

  /** `Enqueue` of a command that is not a hardware command. */
  function EnqueueAux(s: System, kind: AuxKind): System {
    var id := |s.aux.made|;
    s.(aux := s.aux.(made := s.aux.made + [Aux(kind, s.cmds.count)]), buf := Enqueued(s.buf, AuxRef(id)))
  }

  function DoSubmit(s: System, deactivatable: bool, idempotent: bool, canEnable: bool, synchronizable: bool): System {
    var h := s.cmds.count + 1;
    var c := s.cmds;
    s.(cmds := c.(count := h,
                  deactivatable := if deactivatable then c.deactivatable + {h} else c.deactivatable,
                  idempotent := if idempotent then c.idempotent + {h} else c.idempotent,
                  canEnable := if canEnable then c.canEnable + {h} else c.canEnable,
                  synchronizable := if synchronizable then c.synchronizable + {h} else c.synchronizable),
       buf := Enqueued(s.buf, HwRef(h)))
  }

  predicate IsWaitAll(a: Auxiliary, r: Ref) {
    r.AuxRef? && r.id < |a.made| && a.made[r.id].kind == WaitAll
  }

  /** The assertion at the head of `EnqueueXQueueWaitAllCommand`. */
  predicate WaitAllAssertionHolds(s: System) {
    !s.buf.ready ==> IsWaitAll(s.aux, s.buf.last)
  }

  function DoRequestWaitAll(s: System): System {
    if IsWaitAll(s.aux, s.buf.last) then s else EnqueueAux(s, WaitAll)
  }

  /** The command the caller of `EnqueueXQueueWaitAllCommand` gets. */
  function RequestedWaitAll(s: System): Ref {
    if IsWaitAll(s.aux, s.buf.last) then s.buf.last else AuxRef(|s.aux.made|)
  }

  // ----- synchronization -----

  datatype CheckResult = Blocked | Returns | GoesToHardware(sync: Sync)

  /** The test at the head of both synchronization loops. */
  function Check(s: System, sync: Sync): CheckResult {
    if sync.target.OneCommand? && sync.target.index in s.cmds.done then Returns
    else match s.worker.state
      case Paused => Blocked
      case Terminated => Returns
      case Running =>
        if sync.target.AllCommands? && s.worker.log == [] then Returns
        else GoesToHardware(Sync(sync.target, OnHardware(s.worker.pauseCount, false)))
  }

  /** The hardware call returns when the hardware has passed the command, or all of them. */
  predicate HardwareReturns(dev: Device, t: Target) {
    match t
    case AllCommands => dev.pending == []
    case OneCommand(c) => c !in dev.pending
  }

  /** Popping the logs after a hardware call that no pause interrupted. */
  function Pop(s: System, t: Target): System {
    var popped := match t case AllCommands => s.worker.log case OneCommand(c) => s.worker.log[..CutPoint(s.worker.log, c)];
    s.(worker := PoppedWorker(s.worker, t), cmds := s.cmds.(done := s.cmds.done + (set x | x in popped)))
  }

  predicate AppAt(s: System, t: nat, onHardware: bool, returned: bool) {
    t in s.apps && s.apps[t].phase.OnHardware? == onHardware
    && (onHardware ==> s.apps[t].phase.returned == returned)
  }

  function DoAppCheck(s: System, t: nat): System
    requires t in s.apps
    requires !Check(s, s.apps[t]).Blocked?
  {
    match Check(s, s.apps[t])
    case GoesToHardware(sync) => s.(apps := s.apps[t := sync])
    case _ => s.(apps := s.apps - {t})
  }

  function MarkReturned(sync: Sync): Sync
    requires sync.phase.OnHardware?
  {
    Sync(sync.target, OnHardware(sync.phase.pauses, true))
  }

  function DoAppRelock(s: System, t: nat): System
    requires t in s.apps && s.apps[t].phase.OnHardware?
  {
    if s.apps[t].phase.pauses == s.worker.pauseCount
    then Pop(s, s.apps[t].target).(apps := s.apps - {t})
    else s.(apps := s.apps[t := Sync(s.apps[t].target, Checking)])
  }

  // ----- worker steps -----

  /** `Dequeue`, up to the point where it returns a command or starts to wait for one. */
  function DoFetch(s: System): System {
    if s.buf.queue != [] then Take(s)
    else if IsWaitAll(s.aux, s.buf.last) then
      s.(pc := WaitingForCommand, buf := Idled(s.buf))
    else
      var kind := if s.buf.last.AuxRef? && s.buf.last.id < |s.aux.made| && s.aux.made[s.buf.last.id].kind == BatchSync
                  then WaitAll else BatchSync;
      var id := |s.aux.made|;
      s.(aux := s.aux.(made := s.aux.made + [Aux(kind, s.cmds.count)]),
         buf := Generated(s.buf, AuxRef(id)),
         pc := AuxEntering(id))
  }

  function Take(s: System): System
    requires s.buf.queue != []
  {
    var r := s.buf.queue[0];
    s.(buf := s.buf.(queue := s.buf.queue[1..]),
       pc := if r.HwRef? then Entering(r.index) else AuxEntering(r.id))
  }

  function ScanLog(s: System): Scan {
    ScanBack(s.worker.log, |s.worker.log|, s.cmds.deactivatable, s.cmds.synchronizable, None)
  }

  /** The first half of `LaunchHwCommand`: wait for deactivatable commands in flight. */
  function DoEnter(cfg: Config, s: System): System
    requires s.pc.Entering?
  {
    var h := s.pc.held;
    if cfg.level != Block && Plain(s.cmds, h) then
      match ScanLog(s)
      case NothingToWaitFor => s.(pc := CheckingFull(h))
      case WaitForAll => s.(pc := Draining(h, Sync(AllCommands, Checking), false))
      case WaitForCommand(c) => s.(pc := Draining(h, Sync(OneCommand(c), Checking), false))
    else s.(pc := CheckingFull(h))
  }

  function DoCheckFull(cfg: Config, s: System): System
    requires s.pc.CheckingFull?
  {
    var h := s.pc.held;
    if |s.worker.log| >= cfg.threshold then
      var slot := if s.worker.log == [] then None else SlotCommand(s.worker.syncLog, s.worker.log[0]);
      s.(pc := Draining(h, Sync(if slot.None? then AllCommands else OneCommand(slot.value), Checking), true))
    else s.(pc := AwaitingRunning(h))
  }

  /** Lost commands are still to be relaunched: the hardware has been waited for, and
      the walk over the log has not reached its end. */
  predicate Exposed(s: System) {
    s.ctl.pc.Relaunching? || (s.ctl.pc == Drained(false) && s.dev.lossy)
  }

  /** The second half of `LaunchHwCommand`, from the drop check on. */
  function LaunchHeld(cfg: Config, s: System, h: int): System {
    if h <= s.worker.dropIdx then
      s.(cmds := s.cmds.(done := s.cmds.done + {h}, dropped := s.cmds.dropped + {h}), pc := Fetching)
    else
      var sync := h in s.cmds.synchronizable
                  || (EndsBatch(cfg, s.worker, h) && h in s.cmds.canEnable);
      s.(cmds := s.cmds.(launched := s.cmds.launched + {h},
                         synchronizable := if sync then s.cmds.synchronizable + {h} else s.cmds.synchronizable),
         worker := LaunchedWorker(s.worker, h, sync),
         dev := s.dev.(pending := s.dev.pending + [h],
                       overtaken := s.dev.overtaken || (Exposed(s) && h !in s.cmds.idempotent)),
         launches := s.launches + [Launch(h, s.worker.state, s.worker.dropIdx)],
         pc := Fetching)
  }

  /** Where the worker goes on once its synchronization has returned. */
  function AfterSync(cfg: Config, s: System): System
    requires s.pc.Draining? || s.pc.AuxSyncing?
  {
    match s.pc
    case Draining(h, _, full) =>
      if full then LaunchHeld(cfg, s, h) else s.(pc := CheckingFull(h))
    case AuxSyncing(id, _) =>
      if id < |s.aux.made| && s.aux.made[id].kind == Destroy
      then s.(worker := s.worker.(state := Terminated), pc := AuxFinishing(id))
      else s.(pc := AuxFinishing(id))
  }

  predicate WorkerSyncing(s: System) {
    s.pc.Draining? || s.pc.AuxSyncing?
  }

  function SetWorkerSync(pc: WorkerPc, sync: Sync): WorkerPc
    requires pc.Draining? || pc.AuxSyncing?
  {
    match pc
    case Draining(h, _, full) => Draining(h, sync, full)
    case AuxSyncing(id, _) => AuxSyncing(id, sync)
  }

  function DoWorkerCheck(cfg: Config, s: System): System
    requires WorkerSyncing(s) && !Check(s, s.pc.sync).Blocked?
  {
    match Check(s, s.pc.sync)
    case GoesToHardware(sync) => s.(pc := SetWorkerSync(s.pc, sync))
    case _ => AfterSync(cfg, s)
  }

  function DoWorkerRelock(cfg: Config, s: System): System
    requires WorkerSyncing(s) && s.pc.sync.phase.OnHardware?
  {
    if s.pc.sync.phase.pauses == s.worker.pauseCount
    then AfterSync(cfg, Pop(s, s.pc.sync.target))
    else s.(pc := SetWorkerSync(s.pc, Sync(s.pc.sync.target, Checking)))
  }

  function DoAuxEnter(s: System): System
    requires s.pc.AuxEntering?
  {
    var id := s.pc.id;
    if id < |s.aux.made| && s.aux.made[id].kind == BatchSync then
      // A batch synchronization with nothing to wait for is abandoned in flight.
      if s.worker.syncLog == [] then s.(pc := Fetching)
      else s.(pc := AuxSyncing(id, Sync(OneCommand(s.worker.syncLog[0]), Checking)))
    else s.(pc := AuxSyncing(id, Sync(AllCommands, Checking)))
  }

  function DoAuxFinish(s: System): System
    requires s.pc.AuxFinishing?
  {
    var id := s.pc.id;
    s.(aux := s.aux.(done := s.aux.done + {id}),
       pc := if id < |s.aux.made| && s.aux.made[id].kind == Destroy then Exited else Fetching)
  }

  // ----- suspend and resume steps -----

  function DoPause(cfg: Config, s: System): System {
    s.(worker := PausedWorker(s.worker),
       ctl := s.ctl.(pc := if cfg.level == Block then NoCall else Deactivating))
  }

  function DoResumeBegin(cfg: Config, s: System, drop: bool): System {
    s.(ctl := s.ctl.(suspended := false, pc := if cfg.level == Block then ResumingWorker else Reactivating(drop)),
       seen := s.seen.(drop := s.seen.drop || (drop && cfg.level != Block)))
  }

  /** The first command of the log that the hardware never executed. */
  function FirstLost(log: seq<int>, trace: seq<int>): (k: nat)
    ensures k <= |log|
    ensures forall i :: 0 <= i < k ==> log[i] in trace
    ensures k < |log| ==> log[k] !in trace
  {
    if log == [] || log[0] !in trace then 0 else 1 + FirstLost(log[1..], trace)
  }

  /** Hardware that stalls instead of throwing commands away goes on with what it has. */
  function DoUnstall(s: System): System
    requires s.ctl.pc.Reactivating?
  {
    s.(dev := s.dev.(off := false), ctl := s.ctl.(pc := if s.ctl.pc.drop then DroppingBuffer else ResumingWorker))
  }

  /** Once it has waited for the hardware, `Reactivate` lets it run again. If commands were
      lost they are relaunched, and everything in the log behind them, whether or not it ran. */
  function DoReactivate(s: System): System
    requires s.ctl.pc.Drained?
  {
    var k := FirstLost(s.worker.log, s.dev.trace);
    s.(dev := s.dev.(off := false, lossy := false),
       ctl := s.ctl.(pc := if s.ctl.pc.drop then DroppingBuffer
                           else if s.dev.lossy && k < |s.worker.log| then Relaunching(s.worker.log[k])
                           else ResumingWorker))
  }

  /** The command the walk over the log relaunches next. */
  function NextLost(s: System): Option<int>
    requires s.ctl.pc.Relaunching?
  {
    SlotCommand(s.worker.log, s.ctl.pc.next)
  }

  function DoRelaunch(s: System): System
    requires s.ctl.pc.Relaunching? && NextLost(s).Some?
  {
    var x := NextLost(s).value;
    s.(dev := s.dev.(pending := s.dev.pending + [x]), ctl := s.ctl.(pc := Relaunching(x + 1)))
  }

  function DoResumeWorker(s: System): System {
    s.(worker := ResumedWorker(s.worker), ctl := s.ctl.(pc := NoCall))
  }

  function DoDropBuffer(s: System): System {
    var hw := set r | r in s.buf.queue && r.HwRef? :: r.index;
    var ax := set r | r in s.buf.queue && r.AuxRef? :: r.id;
    s.(cmds := s.cmds.(done := s.cmds.done + hw, dropped := s.cmds.dropped + hw),
       aux := s.aux.(done := s.aux.done + ax, dropped := s.aux.dropped + ax),
       buf := s.buf.(queue := []),
       ctl := s.ctl.(pc := ReadingDropIndex))
  }

  function DoDropLogs(s: System): System
    requires s.ctl.pc.DroppingLogs?
  {
    var lost := set x | x in s.worker.log;
    s.(cmds := s.cmds.(done := s.cmds.done + lost, dropped := s.cmds.dropped + lost),
       worker := DroppedWorker(s.worker, s.ctl.pc.dropIdx),
       ctl := s.ctl.(pc := NoCall))
  }

  // ----- hardware steps -----

  /** The hardware executes the next command; once it has started to throw commands
      away it executes no deactivatable command until it is reactivated. */
  predicate CanRun(s: System) {
    s.dev.pending != [] && (s.dev.lossy ==> s.dev.pending[0] !in s.cmds.deactivatable)
  }

  /** The deactivated hardware throws the next command away. */
  predicate CanLose(s: System) {
    s.dev.off && s.dev.pending != [] && s.dev.pending[0] in s.cmds.deactivatable
  }

  /** Between the end of the wait and the reactivation only commands launched meanwhile are
      left to lose; what is pending behind a lost one then gets ahead of it. */
  function DoLose(s: System): System
    requires s.dev.pending != []
  {
    var rest := s.dev.pending[1..];
    s.(dev := s.dev.(pending := rest, lossy := true,
                     overtaken := s.dev.overtaken
                                  || (s.ctl.pc == Drained(false) && exists y :: y in rest && y !in s.cmds.idempotent)))
  }

  // ----- the step relation -----

  predicate Enabled(cfg: Config, s: System, l: Label) {
    match l
    case Submit(_, _, _, _) => true
    case EnqueueHostFunction => true
    case RequestWaitAll => WaitAllAssertionHolds(s)
    case AppStart(t, c) => t !in s.apps && (c in s.cmds.launched || c in s.cmds.done) && c in s.cmds.synchronizable
    case AppCheck(t) => AppAt(s, t, false, false) && !Check(s, s.apps[t]).Blocked?
    case AppReturn(t) => AppAt(s, t, true, false) && HardwareReturns(s.dev, s.apps[t].target)
    case AppRelock(t) => AppAt(s, t, true, true)
    case Fetch => s.pc.Fetching?
    case FetchAwaited => s.pc.WaitingForCommand? && s.buf.queue != []
    case Enter => s.pc.Entering?
    case CheckFull => s.pc.CheckingFull?
    case WorkerCheck => WorkerSyncing(s) && s.pc.sync.phase.Checking? && !Check(s, s.pc.sync).Blocked?
    case WorkerReturn => WorkerSyncing(s) && s.pc.sync.phase.OnHardware? && !s.pc.sync.phase.returned
                         && HardwareReturns(s.dev, s.pc.sync.target)
    case WorkerRelock => WorkerSyncing(s) && s.pc.sync.phase.OnHardware? && s.pc.sync.phase.returned
    case LaunchAwaited => s.pc.AwaitingRunning? && s.worker.state.Running?
    case AuxEnter => s.pc.AuxEntering?
    case AuxFinish => s.pc.AuxFinishing?
    case SuspendBegin => s.ctl.pc.NoCall? && !s.ctl.terminated && !s.ctl.suspended
    case PauseWorker => s.ctl.pc.Pausing?
    case DeactivateDevice => s.ctl.pc.Deactivating?
    case ResumeBegin(_) => s.ctl.pc.NoCall? && s.ctl.suspended
    case UnstallDevice => s.ctl.pc.Reactivating? && !s.dev.lossy
    case DrainDevice => s.ctl.pc.Reactivating? && s.dev.pending == []
    case ReactivateDevice => s.ctl.pc.Drained?
    case Relaunch => s.ctl.pc.Relaunching? && NextLost(s).Some?
    case RelaunchEnd => s.ctl.pc.Relaunching? && NextLost(s).None?
    case ResumeWorker => s.ctl.pc.ResumingWorker?
    case DropBuffer => s.ctl.pc.DroppingBuffer?
    case ReadDropIndex => s.ctl.pc.ReadingDropIndex?
    case DropLogs => s.ctl.pc.DroppingLogs?
    case DestroyBegin => s.ctl.pc.NoCall? && !s.ctl.terminated
    case EnqueueDestroy => s.ctl.pc.NoCall? && s.ctl.terminated && !s.ctl.suspended
    case DeviceRun => CanRun(s)
    case DeviceLose => CanLose(s)
  }

  function Apply(cfg: Config, s: System, l: Label): System
    requires Enabled(cfg, s, l)
  {
    match l
    case Submit(d, i, e, y) => DoSubmit(s, d, i, e, y)
    case EnqueueHostFunction => EnqueueAux(s, HostFunction).(seen := s.seen.(otherEnqueue := true))
    case RequestWaitAll => DoRequestWaitAll(s)
    case AppStart(t, c) =>
      s.(apps := s.apps[t := Sync(OneCommand(c), Checking)], seen := s.seen.(appSync := true))
    case AppCheck(t) => DoAppCheck(s, t)
    case AppReturn(t) => s.(apps := s.apps[t := MarkReturned(s.apps[t])])
    case AppRelock(t) => DoAppRelock(s, t)
    case Fetch => DoFetch(s)
    case FetchAwaited => Take(s)
    case Enter => DoEnter(cfg, s)
    case CheckFull => DoCheckFull(cfg, s)
    case WorkerCheck => DoWorkerCheck(cfg, s)
    case WorkerReturn => s.(pc := SetWorkerSync(s.pc, MarkReturned(s.pc.sync)))
    case WorkerRelock => DoWorkerRelock(cfg, s)
    case LaunchAwaited => LaunchHeld(cfg, s, s.pc.held)
    case AuxEnter => DoAuxEnter(s)
    case AuxFinish => DoAuxFinish(s)
    case SuspendBegin => s.(ctl := s.ctl.(suspended := true, pc := Pausing))
    case PauseWorker => DoPause(cfg, s)
    case DeactivateDevice => s.(dev := s.dev.(off := true), ctl := s.ctl.(pc := NoCall))
    case ResumeBegin(drop) => DoResumeBegin(cfg, s, drop)
    case UnstallDevice => DoUnstall(s)
    case DrainDevice => s.(ctl := s.ctl.(pc := Drained(s.ctl.pc.drop)))
    case ReactivateDevice => DoReactivate(s)
    case Relaunch => DoRelaunch(s)
    case RelaunchEnd => s.(ctl := s.ctl.(pc := ResumingWorker))
    case ResumeWorker => DoResumeWorker(s)
    case DropBuffer => DoDropBuffer(s)
    case ReadDropIndex => s.(ctl := s.ctl.(pc := DroppingLogs(s.cmds.count)))
    case DropLogs => DoDropLogs(s)
    case DestroyBegin =>
      var t := s.(ctl := s.ctl.(terminated := true));
      if s.ctl.suspended then DoResumeBegin(cfg, t, true) else t
    case EnqueueDestroy => EnqueueAux(s, Destroy).(seen := s.seen.(otherEnqueue := true))
    case DeviceRun => s.(dev := s.dev.(pending := s.dev.pending[1..], trace := s.dev.trace + [s.dev.pending[0]]))
    case DeviceLose => DoLose(s)
  }

  /** The state after a run, if every step of it was possible. */
  function Run(cfg: Config, s: System, run: seq<Label>): Option<System>
    decreases |run|
  {
    if run == [] then Some(s)
    else if Enabled(cfg, s, run[0]) then Run(cfg, Apply(cfg, s, run[0]), run[1..])
    else None
  }
}
