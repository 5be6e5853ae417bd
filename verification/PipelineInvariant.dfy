/** What every reachable state of the pipeline satisfies. The parts are stated over
    the components they talk about, so that a step that leaves these alone keeps them. */
module PipelineInvariant {
  import opened LaunchLog
  import opened Pipeline

  ghost predicate Within(s: set<int>, n: nat) {
    forall x :: x in s ==> 1 <= x <= n
  }

  // ----- the logs -----

  /** The logs hold exactly the launched commands that are not done, oldest first, the
      second log is the synchronizable part of the first, and the bound holds. */
  ghost predicate LogsOk(cfg: Config, c: Commands, w: Worker) {
    && Increasing(w.log) && Increasing(w.syncLog)
    && (forall x :: x in w.log ==> x in c.launched && x !in c.done)
    && (forall x :: x in w.syncLog <==> x in w.log && x in c.synchronizable)
    && (forall x :: x in c.launched && x !in w.log ==> x in c.done)
    && (forall x, y :: x in c.launched && x !in w.log && y in w.log ==> x < y)
    && |w.log| <= cfg.threshold
  }

  ghost predicate SetsOk(c: Commands) {
    && Within(c.launched, c.count) && Within(c.done, c.count)
    && Within(c.synchronizable, c.count) && Within(c.deactivatable, c.count)
    && Within(c.idempotent, c.count) && Within(c.canEnable, c.count)
    && c.dropped <= c.done
  }

  // ----- commands on their way to the logs -----

  ghost predicate Unlaunched(c: Commands, h: int) {
    1 <= h <= c.count && h !in c.launched && h !in c.done
  }

  ghost predicate FeedOk(c: Commands, q: seq<Ref>, pc: WorkerPc) {
    && (forall i :: 0 <= i < |q| && q[i].HwRef? ==> Unlaunched(c, q[i].index))
    && (forall i, j :: 0 <= i < j < |q| && q[i].HwRef? && q[j].HwRef? ==> q[i].index < q[j].index)
    && (forall i, x :: 0 <= i < |q| && q[i].HwRef? && x in c.launched ==> x < q[i].index)
    && (Holds(pc) ==>
          && Unlaunched(c, pc.held)
          && (forall i :: 0 <= i < |q| && q[i].HwRef? ==> pc.held < q[i].index)
          && (forall x :: x in c.launched ==> x < pc.held))
  }

  /** Every submitted command is done, launched, held by the worker, or in the buffer. */
  ghost predicate Covered(c: Commands, q: seq<Ref>, pc: WorkerPc) {
    forall x {:trigger x in c.done} :: 1 <= x <= c.count ==>
      x in c.done || x in c.launched || (Holds(pc) && pc.held == x) || HwRef(x) in q
  }

  // ----- the other commands -----

  ghost predicate AuxWithin(a: Auxiliary, n: nat) {
    && (forall id :: id in a.done ==> id < |a.made|)
    && a.dropped <= a.done
    && (forall id :: 0 <= id < |a.made| ==> a.made[id].cover <= n)
  }

  ghost predicate AuxQueueOk(a: Auxiliary, q: seq<Ref>, pc: WorkerPc) {
    && (forall i :: 0 <= i < |q| && q[i].AuxRef? ==>
          q[i].id < |a.made| && q[i].id !in a.done && a.made[q[i].id].kind != BatchSync)
    && (forall i, j :: 0 <= i < j < |q| && q[i].AuxRef? && q[j].AuxRef? ==> q[i].id < q[j].id)
    && (Handles(pc) ==>
          && pc.id < |a.made| && pc.id !in a.done
          && forall i :: 0 <= i < |q| && q[i].AuxRef? ==> pc.id < q[i].id)
  }

  /** Every command that is not a batch synchronization is done, being handled, or in the buffer. */
  ghost predicate AuxCovered(a: Auxiliary, q: seq<Ref>, pc: WorkerPc) {
    forall id: nat {:trigger id in a.done} :: id < |a.made| && a.made[id].kind != BatchSync ==>
      id in a.done || (Handles(pc) && pc.id == id) || AuxRef(id) in q
  }

  /** The buffer is in submission order: a hardware command comes before another
      command exactly if that one covers it. */
  ghost predicate CoverOk(a: Auxiliary, q: seq<Ref>, pc: WorkerPc) {
    && (forall i, j :: 0 <= i < j < |q| && q[i].AuxRef? && q[j].HwRef? && q[i].id < |a.made| ==>
          a.made[q[i].id].cover < q[j].index)
    && (Handles(pc) && pc.id < |a.made| ==>
          forall i :: 0 <= i < |q| && q[i].HwRef? ==> a.made[pc.id].cover < q[i].index)
  }

  ghost predicate LastOk(a: Auxiliary, last: Ref, n: nat) {
    match last
    case HwRef(h) => h == n
    case AuxRef(id) => id < |a.made| && a.made[id].cover == n
  }

  ghost predicate AllDone(c: Commands, n: nat) {
    forall x {:trigger x in c.done} :: 1 <= x <= n ==> x in c.done
  }

  /** A command that the worker finished left nothing it covers unfinished. */
  ghost predicate BarrierOk(c: Commands, a: Auxiliary, pc: WorkerPc) {
    && (forall id :: id in a.done && id !in a.dropped && id < |a.made| && a.made[id].kind != BatchSync ==>
          AllDone(c, a.made[id].cover))
    && (pc.AuxFinishing? && pc.id < |a.made| && a.made[pc.id].kind != BatchSync ==>
          AllDone(c, a.made[pc.id].cover))
  }

  // ----- synchronization -----

  /** A thread that synchronizes waits for a synchronizable launched command; once the
      hardware call has returned and no pause came in between, what it will pop has run. */
  ghost predicate SyncOk(c: Commands, w: Worker, trace: seq<int>, sync: Sync) {
    && (sync.target.OneCommand? ==>
          && sync.target.index in c.synchronizable
          && (sync.target.index in c.launched || (sync.phase.Checking? && sync.target.index in c.done)))
    && (sync.phase.OnHardware? ==>
          && sync.phase.pauses <= w.pauseCount
          && (w.state.Paused? ==> sync.phase.pauses < w.pauseCount)
          && (sync.phase.returned && sync.phase.pauses == w.pauseCount ==>
                forall y :: y in w.log && (sync.target.AllCommands? || y <= sync.target.index) ==> y in trace))
  }

  ghost predicate AppsOk(c: Commands, w: Worker, trace: seq<int>, apps: map<nat, Sync>) {
    forall t :: t in apps ==> apps[t].target.OneCommand? && SyncOk(c, w, trace, apps[t])
  }

  ghost predicate WorkerSyncOk(c: Commands, w: Worker, trace: seq<int>, pc: WorkerPc) {
    pc.Draining? || pc.AuxSyncing? ==> SyncOk(c, w, trace, pc.sync)
  }

  // ----- the launch of the held command -----

  ghost predicate NoDeactivatable(c: Commands, w: Worker) {
    forall x :: x in w.log ==> x !in c.deactivatable
  }

  /** Once past its first half, the launch of a plain command finds no deactivatable
      command in flight, and past the second it finds a free slot. */
  ghost predicate LaunchOk(cfg: Config, c: Commands, w: Worker, pc: WorkerPc) {
    && (pc.CheckingFull? || pc.AwaitingRunning? || (pc.Draining? && pc.full) ==>
          cfg.level != Block && Plain(c, pc.held) ==> NoDeactivatable(c, w))
    && (pc.Draining? && !pc.full && pc.sync.target.OneCommand? ==>
          forall y :: y in w.log && y in c.deactivatable ==> y <= pc.sync.target.index)
    && (pc.AwaitingRunning? ==> |w.log| < cfg.threshold)
    && (pc.Draining? && pc.full && pc.sync.target.OneCommand? && pc.sync.target.index !in w.log ==>
          |w.log| < cfg.threshold)
    && (pc.Draining? && pc.sync.target.OneCommand? ==> pc.sync.target.index in c.launched)
  }

  /** What an auxiliary command waits for depends on its kind. */
  ghost predicate AuxTargetOk(a: Auxiliary, pc: WorkerPc) {
    pc.AuxSyncing? && pc.id < |a.made| ==> (pc.sync.target.OneCommand? <==> a.made[pc.id].kind == BatchSync)
  }

  /** No command that is neither deactivatable nor idempotent follows a deactivatable one. */
  ghost predicate OrderOk(cfg: Config, c: Commands, w: Worker) {
    cfg.level != Block ==>
      forall x, y :: x in w.log && y in w.log && x < y && x in c.deactivatable ==> !Plain(c, y)
  }

  // ----- suspend and resume -----

  predicate DropPhase(ctl: Control) {
    ctl.pc.DroppingBuffer? || ctl.pc.ReadingDropIndex? || ctl.pc.DroppingLogs?
  }

  predicate RelaunchPhase(ctl: Control) {
    ctl.pc.Reactivating? || ctl.pc.Drained? || ctl.pc.Relaunching?
  }

  predicate PausedPhase(ctl: Control) {
    || ctl.pc.Deactivating? || ctl.pc.Reactivating? || ctl.pc.Drained? || ctl.pc.Relaunching?
    || ctl.pc.ResumingWorker? || DropPhase(ctl)
    || (ctl.pc.NoCall? && ctl.suspended)
  }

  ghost predicate ControlOk(cfg: Config, a: Auxiliary, w: Worker, pc: WorkerPc, ctl: Control, dev: Device) {
    && (w.state.Paused? <==> PausedPhase(ctl))
    && (ctl.pc.Pausing? || ctl.pc.Deactivating? ==> ctl.suspended && !ctl.terminated)
    && (RelaunchPhase(ctl) || ctl.pc.ResumingWorker? || DropPhase(ctl) ==> !ctl.suspended)
    && (ctl.pc.Deactivating? || RelaunchPhase(ctl) || DropPhase(ctl) ==> cfg.level != Block)
    && (dev.off <==> cfg.level != Block && ((ctl.pc.NoCall? && ctl.suspended) || ctl.pc.Reactivating? || ctl.pc.Drained?))
    && (dev.lossy ==> dev.off)
    && (w.state.Terminated? ==> pc.Exited? || pc.AuxFinishing?)
    && ((exists id :: 0 <= id < |a.made| && a.made[id].kind == Destroy) ==>
          ctl.pc.NoCall? && ctl.terminated && !ctl.suspended)
    && (w.state.Terminated? ==> exists id :: 0 <= id < |a.made| && a.made[id].kind == Destroy)
    && (pc.AuxFinishing? ==> pc.id < |a.made| && (w.state.Terminated? <==> a.made[pc.id].kind == Destroy))
    && (pc.Exited? ==> w.state.Terminated?)
    && (ctl.suspended && ctl.pc.NoCall? ==> !ctl.terminated)
  }

  // ----- the hardware queue -----

  /** Behind every `x` there is a `y`. */
  ghost predicate Follows(pending: seq<int>, x: int, y: int) {
    forall i :: 0 <= i < |pending| && pending[i] == x ==> y in pending[i + 1..]
  }

  /** Whether the walk over the log is past `x`, if there is one. */
  predicate Relaunched(ctl: Control, x: int) {
    ctl.pc.Relaunching? ==> x < ctl.pc.next
  }

  /** While the worker may count a synchronization, every command in the log has run or
      is still to run, and the hardware still has everything after the first unrun one. */
  ghost predicate DeviceOk(c: Commands, w: Worker, ctl: Control, dev: Device) {
    && (forall x :: x in dev.pending ==> x in c.launched)
    && (forall x :: x in dev.trace ==> x in c.launched)
    && (!DropPhase(ctl) ==>
          && (forall x :: x in w.log ==>
                x in dev.trace || x in dev.pending || (dev.lossy && x in c.deactivatable) || !Relaunched(ctl, x))
          && (!dev.lossy ==> forall x, y {:trigger Follows(dev.pending, x, y)} ::
                x in w.log && y in w.log && x < y && Relaunched(ctl, y) ==> Follows(dev.pending, x, y)))
    && (ctl.pc.Drained? ==>
          Increasing(dev.pending) && forall x :: x in dev.pending ==> x !in dev.trace && x in w.log)
    && (ctl.pc.Relaunching? ==> !dev.lossy && (ctl.pc.next in c.launched || ctl.pc.next - 1 in c.launched))
  }

  /** The executions of the commands that are not idempotent are in submission order,
      each at most once. */
  ghost predicate EffectsInOrder(trace: seq<int>, idempotent: set<int>) {
    forall i, j :: 0 <= i < j < |trace| && trace[i] !in idempotent && trace[j] !in idempotent ==> trace[i] < trace[j]
  }

  /** A pending command that is not idempotent comes before everything behind it. */
  ghost predicate PendingInOrder(pending: seq<int>, idempotent: set<int>) {
    forall i, j :: 0 <= i < j < |pending| && pending[i] !in idempotent ==> pending[i] < pending[j]
  }

  /** What is still to run comes later than what ran, unless a launch overtook lost commands. */
  ghost predicate TraceOk(c: Commands, w: Worker, ctl: Control, dev: Device) {
    !dev.overtaken ==>
      && EffectsInOrder(dev.trace, c.idempotent) && PendingInOrder(dev.pending, c.idempotent)
      && (forall x, y :: x in dev.trace && y in dev.pending && x !in c.idempotent ==> x < y)
      && (!DropPhase(ctl) ==>
            forall x, y :: x in dev.trace && x !in c.idempotent && y in w.log && y !in dev.trace ==> x < y)
      && (ctl.pc == Drained(false) && dev.lossy ==> forall x :: x in dev.pending ==> x in c.idempotent)
      && (ctl.pc.Relaunching? ==> forall x :: (x in dev.trace || x in dev.pending) && x !in c.idempotent ==> x < ctl.pc.next)
  }

  /** A completed command that was not dropped has run. */
  ghost predicate TruthOk(c: Commands, dev: Device) {
    forall x :: x in c.done && x !in c.dropped ==> x in dev.trace
  }

  // ----- history -----

  ghost predicate HistoryOk(c: Commands, launches: seq<Launch>) {
    && (forall i :: 0 <= i < |launches| ==> launches[i].index in c.launched && launches[i].dropIdx < launches[i].index)
    && (forall i, j :: 0 <= i < j < |launches| ==> launches[i].index < launches[j].index)
  }

  ghost predicate UndisturbedOk(c: Commands, w: Worker, pc: WorkerPc, launches: seq<Launch>, seen: Seen) {
    !seen.drop && !seen.appSync ==>
      && (forall i :: 0 <= i < |launches| ==> launches[i].state.Running?)
      && (pc.Draining? && pc.sync.target.OneCommand? ==> pc.sync.target.index in w.log)
  }

  ghost predicate NothingDroppedOk(c: Commands, a: Auxiliary, w: Worker, ctl: Control, seen: Seen) {
    !seen.drop ==>
      && c.dropped == {} && a.dropped == {} && w.dropIdx == -1
      && !DropPhase(ctl) && !((ctl.pc.Reactivating? || ctl.pc.Drained?) && ctl.pc.drop)
  }

  ghost predicate NoAppsOk(apps: map<nat, Sync>, seen: Seen) {
    !seen.appSync ==> apps == map[]
  }

  /** Drops reach no further than the announced index. */
  ghost predicate DropOk(c: Commands, w: Worker, pc: WorkerPc, ctl: Control) {
    && w.dropIdx <= c.count
    && (forall x :: x in w.log ==> w.dropIdx < x)
    && (match ctl.pc
        case ReadingDropIndex => true
        case DroppingLogs(d) =>
          && w.dropIdx <= d <= c.count
          && (forall x :: x in c.dropped ==> x <= d)
          && (forall x :: x in w.log ==> x <= d)
          && (pc.Draining? && pc.sync.target.OneCommand? && d < pc.held ==> pc.sync.target.index in w.log)
        case _ => forall x :: x in c.dropped ==> x <= w.dropIdx)
  }

  // ----- batches -----

  /** Every command can be synchronized one way or the other. */
  ghost predicate AllSynchronizable(c: Commands) {
    forall x {:trigger x in c.canEnable} :: 1 <= x <= c.count ==> x in c.canEnable || x in c.synchronizable
  }

  ghost predicate BatchOk(cfg: Config, c: Commands, w: Worker) {
    && (forall x :: x in w.log && x in c.synchronizable ==> x <= w.lastSync)
    && (forall x :: x in w.log && x <= w.lastSync ==> w.lastSync in w.log && w.lastSync in c.synchronizable)
    && (w.lastSync == -1 || w.lastSync in c.launched)
    && (AllSynchronizable(c) ==> forall x :: x in w.log && w.lastSync < x ==> x - w.lastSync < cfg.batchSize)
  }

  // ----- the ready state of the buffer -----

  function Rank(a: Auxiliary, last: Ref): nat {
    if IsWaitAll(a, last) then 0
    else if last.AuxRef? && last.id < |a.made| && a.made[last.id].kind == BatchSync then 1 else 2
  }

  ghost predicate Alternates(events: seq<QueueEvent>) {
    forall i :: 0 <= i < |events| ==> (events[i] == BecameReady <==> i % 2 == 0)
  }

  ghost predicate ReadyOk(a: Auxiliary, buf: Buffer, seen: Seen) {
    && Alternates(buf.events)
    && (buf.ready <==> |buf.events| % 2 == 1)
    && buf.generated + Rank(a, buf.last) <= 2
    && (!seen.otherEnqueue && !buf.ready ==> IsWaitAll(a, buf.last))
  }

  // ----- all of it -----

  ghost predicate LogInv(cfg: Config, c: Commands, w: Worker) {
    SetsOk(c) && LogsOk(cfg, c, w) && OrderOk(cfg, c, w) && BatchOk(cfg, c, w)
  }

  ghost predicate FeedInv(c: Commands, q: seq<Ref>, pc: WorkerPc) {
    FeedOk(c, q, pc) && Covered(c, q, pc)
  }

  ghost predicate AuxInv(c: Commands, a: Auxiliary, q: seq<Ref>, last: Ref, pc: WorkerPc) {
    && AuxWithin(a, c.count) && AuxQueueOk(a, q, pc) && AuxCovered(a, q, pc)
    && CoverOk(a, q, pc) && LastOk(a, last, c.count) && BarrierOk(c, a, pc) && AuxTargetOk(a, pc)
  }

  ghost predicate ThreadInv(cfg: Config, c: Commands, w: Worker, trace: seq<int>, pc: WorkerPc, apps: map<nat, Sync>) {
    AppsOk(c, w, trace, apps) && WorkerSyncOk(c, w, trace, pc) && LaunchOk(cfg, c, w, pc)
  }

  ghost predicate DeviceInv(c: Commands, w: Worker, ctl: Control, dev: Device) {
    DeviceOk(c, w, ctl, dev) && TraceOk(c, w, ctl, dev) && TruthOk(c, dev)
  }

  ghost predicate PastInv(c: Commands, a: Auxiliary, w: Worker, pc: WorkerPc, apps: map<nat, Sync>, ctl: Control,
                          launches: seq<Launch>, seen: Seen) {
    && HistoryOk(c, launches) && UndisturbedOk(c, w, pc, launches, seen) && NothingDroppedOk(c, a, w, ctl, seen)
    && NoAppsOk(apps, seen) && DropOk(c, w, pc, ctl)
  }

  /** Lost commands can only be overtaken where commands are lost and launches are made while paused. */
  predicate OvertakenOk(cfg: Config, ctl: Control, dev: Device, seen: Seen) {
    && (dev.overtaken ==> cfg.level != Block && (seen.drop || seen.appSync))
    && (ctl.pc.Drained? && dev.pending != [] ==> seen.drop || seen.appSync)
  }

  ghost predicate Inv(cfg: Config, s: System) {
    && ValidConfig(cfg)
    && LogInv(cfg, s.cmds, s.worker)
    && FeedInv(s.cmds, s.buf.queue, s.pc)
    && AuxInv(s.cmds, s.aux, s.buf.queue, s.buf.last, s.pc)
    && ReadyOk(s.aux, s.buf, s.seen)
    && ThreadInv(cfg, s.cmds, s.worker, s.dev.trace, s.pc, s.apps)
    && ControlOk(cfg, s.aux, s.worker, s.pc, s.ctl, s.dev)
    && DeviceInv(s.cmds, s.worker, s.ctl, s.dev)
    && PastInv(s.cmds, s.aux, s.worker, s.pc, s.apps, s.ctl, s.launches, s.seen)
    && OvertakenOk(cfg, s.ctl, s.dev, s.seen)
  }

  lemma InitIsEmpty(cfg: Config, s: System)
    requires ValidConfig(cfg) && s == Init()
    ensures LogInv(cfg, s.cmds, s.worker) && DeviceInv(s.cmds, s.worker, s.ctl, s.dev)
    ensures FeedInv(s.cmds, s.buf.queue, s.pc)
  {
  }

  lemma InitHasOneWaitAll(s: System)
    requires s == Init()
    ensures AuxInv(s.cmds, s.aux, s.buf.queue, s.buf.last, s.pc)
  {
    assert s.buf.queue[0] == AuxRef(0);
  }

  lemma InitSatisfiesInv(cfg: Config)
    requires ValidConfig(cfg)
    ensures Inv(cfg, Init())
  {
    hide LogInv, FeedInv, AuxInv, DeviceInv;
    InitIsEmpty(cfg, Init());
    InitHasOneWaitAll(Init());
  }
}
