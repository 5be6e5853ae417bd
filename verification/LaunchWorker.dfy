/** The launch worker as an object: each method is one stretch of code that the worker
    lock protects, and is proved to do to the logs what the pipeline's step does. */
module LaunchWorkers {
  import opened LaunchLog
  import opened Options
  import opened Pipeline
  import opened Commands

  function Indices(s: seq<XCommand>): (r: seq<int>)
    ensures |r| == |s| && forall i :: 0 <= i < |s| ==> r[i] == s[i].index
  {
    seq(|s|, i requires 0 <= i < |s| => s[i].index)
  }

  datatype HardwareCall =
    | Launched(index: int)
    | OnSuspend | Deactivated | Interrupted | Synchronized
    | BeforeResume | Restored(log: seq<int>) | Reactivate(log: seq<int>)

  /** A call with the state that the worker was in when it was made. */
  datatype MadeCall = MadeCall(call: HardwareCall, worker: WorkerState)

  /** The calls made to the hardware queue, in order. */
  class HwQueue {
    var calls: seq<MadeCall>

    constructor ()
      ensures calls == []
    {
      calls := [];
    }

    method Call(call: HardwareCall, worker: WorkerState)
      modifies this
      ensures calls == old(calls) + [MadeCall(call, worker)]
    {
      calls := calls + [MadeCall(call, worker)];
    }
  }

  lemma PopOne(s: seq<int>, c: int)
    requires s != [] && s[0] <= c
    ensures PopThrough(s, c) == PopThrough(s[1..], c) && CutPoint(s, c) == 1 + CutPoint(s[1..], c)
  {
    assert s[1 + CutPoint(s[1..], c)..] == s[1..][CutPoint(s[1..], c)..];
  }

  class LaunchWorker {
    const cfg: Config
    var cmdLog: seq<XCommand>
    var syncLog: seq<XCommand>
    var lastSync: int
    var dropIdx: int
    var pauseCount: nat
    var state: WorkerState

    ghost predicate Valid()
      reads this, set c | c in cmdLog
    {
      && Increasing(Indices(cmdLog)) && Increasing(Indices(syncLog))
      && (forall c :: c in cmdLog ==> c.Valid() && c.kind.Hardware?)
      && (forall c :: c in syncLog ==> c in cmdLog)
    }

    function View(): Worker
      reads this
    {
      Worker(Indices(cmdLog), Indices(syncLog), lastSync, dropIdx, pauseCount, state)
    }

    constructor (cfg: Config)
      requires cfg.threshold >= cfg.batchSize
      ensures Valid() && this.cfg == cfg && View() == Init().worker
    {
      this.cfg := cfg;
      cmdLog, syncLog, lastSync, dropIdx, pauseCount, state := [], [], -1, -1, 0, Running;
    }

    method Pause()
      requires Valid()
      modifies this`state, this`pauseCount
      ensures Valid() && View() == PausedWorker(old(View()))
    {
      state := Paused;
      pauseCount := pauseCount + 1;
    }

    method Resume()
      requires Valid()
      modifies this`state
      ensures Valid() && View() == ResumedWorker(old(View()))
    {
      state := Running;
    }

    /** Marks every command of the log completed and empties both logs. */
    method CompleteAll()
      requires Valid()
      modifies this`cmdLog, this`syncLog, (set c | c in cmdLog)`state, (set c | c in cmdLog)`heard
      ensures Valid() && View() == PoppedWorker(old(View()), AllCommands)
      ensures forall c :: c in old(cmdLog) ==> c.state == Completed && c.Valid()
    {
      syncLog := [];
      var i := 0;
      while i < |cmdLog|
        invariant 0 <= i <= |cmdLog| && cmdLog == old(cmdLog) && syncLog == []
        invariant forall c :: c in cmdLog ==> c.Valid()
        invariant forall k :: 0 <= k < i ==> cmdLog[k].state == Completed
      {
        cmdLog[i].SetState(Completed);
        i := i + 1;
      }
      cmdLog := [];
    }

    method ResumeAndDrop(idx: int)
      requires Valid()
      modifies this`cmdLog, this`syncLog, this`dropIdx, this`state
      modifies (set c | c in cmdLog)`state, (set c | c in cmdLog)`heard
      ensures Valid() && View() == DroppedWorker(old(View()), idx)
      ensures forall c :: c in old(cmdLog) ==> c.state == Completed && c.Valid()
    {
      CompleteAll();
      dropIdx := idx;
      state := Running;
    }

    method PopSyncLog(idx: int)
      modifies this`syncLog
      ensures Indices(syncLog) == PopThrough(old(Indices(syncLog)), idx)
      ensures forall c :: c in syncLog ==> c in old(syncLog)
    {
      ghost var was := Indices(syncLog);
      while syncLog != []
        invariant PopThrough(Indices(syncLog), idx) == PopThrough(was, idx)
        invariant forall c :: c in syncLog ==> c in old(syncLog)
      {
        if syncLog[0].index > idx { break; }
        PopOne(Indices(syncLog), idx);
        assert Indices(syncLog)[1..] == Indices(syncLog[1..]);
        syncLog := syncLog[1..];
      }
    }

    /** Marks the oldest command completed and removes it. */
    method CompleteFront()
      requires cmdLog != [] && cmdLog[0].Valid()
      modifies this`cmdLog, {cmdLog[0]}`state, {cmdLog[0]}`heard
      ensures old(cmdLog)[0].Valid() && old(cmdLog)[0].state == Completed && cmdLog == old(cmdLog)[1..]
    {
      cmdLog[0].SetState(Completed);
      cmdLog := cmdLog[1..];
    }

    method PopCmdLog(idx: int)
      requires forall i, j :: 0 <= i < j < |cmdLog| ==> cmdLog[i] != cmdLog[j]
      requires forall c :: c in cmdLog ==> c.Valid()
      modifies this`cmdLog, (set c | c in cmdLog)`state, (set c | c in cmdLog)`heard
      ensures cmdLog == old(cmdLog)[CutPoint(old(Indices(cmdLog)), idx)..]
      ensures forall i :: 0 <= i < |old(cmdLog)| ==> old(cmdLog)[i].Valid()
      ensures forall i :: 0 <= i < |old(cmdLog)| ==>
                old(cmdLog)[i].state == if i < CutPoint(old(Indices(cmdLog)), idx) then Completed else old(cmdLog[i].state)
    {
      ghost var log, cut := cmdLog, CutPoint(Indices(cmdLog), idx);
      ghost var k := 0;
      CutIs(log, 0, idx);
      while cmdLog != [] && cmdLog[0].index <= idx
        invariant 0 <= k <= cut <= |log| && cmdLog == log[k..]
        invariant forall i :: 0 <= i < |log| ==> log[i].Valid()
        invariant forall i :: 0 <= i < k ==> log[i].state == Completed
        invariant forall i :: k <= i < |log| ==> log[i].state == old(log[i].state)
      {
        CutIs(log, k, idx);
        CompleteFront();
        k := k + 1;
      }
      CutIs(log, k, idx);
    }

    /** Pops both logs up to a command that has finished, and marks what it pops completed. */
    method CompleteThrough(hwCmd: XCommand)
      requires Valid()
      modifies this`cmdLog, this`syncLog, (set c | c in cmdLog)`state, (set c | c in cmdLog)`heard
      ensures Valid() && View() == PoppedWorker(old(View()), OneCommand(hwCmd.index))
      ensures forall i :: 0 <= i < |old(cmdLog)| ==>
                && old(cmdLog)[i].Valid()
                && old(cmdLog)[i].state == if old(cmdLog)[i].index <= hwCmd.index then Completed else old(cmdLog[i].state)
    {
      hide Increasing, PopThrough, CutPoint, Indices, XCommand.Valid;
      var idx := hwCmd.index;
      ghost var log, sync := cmdLog, syncLog;
      CutSplits(log, idx);
      PopSyncLog(idx);
      PopCmdLog(idx);
      PoppedLogsFit(log, sync, cmdLog, syncLog, idx);
    }

    /** The backward scan over the commands in flight. */
    method ScanForDeactivatable() returns (r: Scan, hwCmd: XCommand?)
      requires Valid()
      ensures r == ScanBack(View().log, |cmdLog|, DeactivatableIn(cmdLog), SynchronizableIn(cmdLog), None)
      ensures r.WaitForCommand? <==> hwCmd != null
      ensures hwCmd != null ==> hwCmd in cmdLog && hwCmd.synchronizable && r == WaitForCommand(hwCmd.index)
    {
      hide Increasing, XCommand.Valid;
      hwCmd := null;
      var hasDeactivatable := false;
      ghost var log, d, s := View().log, DeactivatableIn(cmdLog), SynchronizableIn(cmdLog);
      var i := |cmdLog|;
      while i > 0 && !hasDeactivatable
        invariant 0 <= i <= |cmdLog|
        invariant hwCmd != null ==> hwCmd in cmdLog && hwCmd.synchronizable
        invariant if hasDeactivatable
                  then ScanBack(log, |log|, d, s, None) == if hwCmd == null then WaitForAll else WaitForCommand(hwCmd.index)
                  else ScanBack(log, |log|, d, s, None)
                       == ScanBack(log, i, d, s, if hwCmd == null then None else Some(hwCmd.index))
        decreases i, !hasDeactivatable
      {
        var c := cmdLog[i - 1];
        NamedOnce(cmdLog, i - 1);
        if c.synchronizable { hwCmd := c; }
        if c.deactivatable { hasDeactivatable := true; }
        i := i - 1;
      }
      if !hasDeactivatable { hwCmd := null; }
      r := if !hasDeactivatable then NothingToWaitFor
           else if hwCmd == null then WaitForAll else WaitForCommand(hwCmd.index);
    }

    /** The search for a command whose completion frees a slot. */
    method ScanForSlot() returns (hwCmd: XCommand?)
      requires Valid() && cmdLog != []
      ensures hwCmd == null ==> SlotCommand(View().syncLog, cmdLog[0].index) == None
      ensures hwCmd != null ==> hwCmd in syncLog && SlotCommand(View().syncLog, cmdLog[0].index) == Some(hwCmd.index)
    {
      var front := cmdLog[0].index;
      var i := 0;
      while i < |syncLog|
        invariant 0 <= i <= |syncLog|
        invariant SlotCommand(Indices(syncLog), front) == SlotCommand(Indices(syncLog)[i..], front)
      {
        if syncLog[i].index >= front {
          return syncLog[i];
        }
        assert Indices(syncLog)[i..][1..] == Indices(syncLog)[i + 1..];
        i := i + 1;
      }
      hwCmd := null;
    }

    /** The end of `LaunchHwCommand`: drop the command, or launch it and log it. */
    method LaunchOrDrop(hwCmd: XCommand, hwq: HwQueue) returns (launched: bool)
      requires Valid() && hwCmd.Valid() && hwCmd.kind.Hardware? && Rank(hwCmd.state) <= Rank(Pending)
      requires forall c :: c in cmdLog ==> c.index < hwCmd.index
      modifies this`cmdLog, this`syncLog, this`lastSync, hwCmd`state, hwCmd`heard, hwCmd`synchronizable, hwq
      ensures Valid() && hwCmd.Valid() && launched == (hwCmd.index > dropIdx)
      ensures launched ==>
                && hwCmd.synchronizable == (old(hwCmd.synchronizable)
                                            || (EndsBatch(cfg, old(View()), hwCmd.index) && hwCmd.canEnable))
                && View() == LaunchedWorker(old(View()), hwCmd.index, hwCmd.synchronizable)
                && hwCmd.state == InFlight && hwq.calls == old(hwq.calls) + [MadeCall(Launched(hwCmd.index), state)]
                && cmdLog == old(cmdLog) + [hwCmd]
      ensures !launched ==>
                && View() == old(View()) && cmdLog == old(cmdLog) && syncLog == old(syncLog)
                && hwCmd.state == Completed && hwq.calls == old(hwq.calls)
                && hwCmd.synchronizable == old(hwCmd.synchronizable)
    {
      hide Increasing, Indices, XCommand.Valid;
      if hwCmd.index <= dropIdx {
        hwCmd.SetState(Completed);
        return false;
      }
      if hwCmd.index - lastSync >= cfg.batchSize {
        var _ := hwCmd.EnableSynchronization();
      }
      hwq.Call(Launched(hwCmd.index), state);
      hwCmd.SetState(InFlight);
      IndicesAppend(cmdLog, hwCmd);
      cmdLog := cmdLog + [hwCmd];
      if hwCmd.synchronizable {
        IndicesAppend(syncLog, hwCmd);
        syncLog := syncLog + [hwCmd];
        lastSync := hwCmd.index;
      }
      launched := true;
    }
  }

  /** In an increasing log the commands before the cut point are those up to the index. */
  lemma CutSplits(log: seq<XCommand>, idx: int)
    requires Increasing(Indices(log))
    ensures var k := CutPoint(Indices(log), idx);
            && (forall i :: 0 <= i < |log| ==> (i < k <==> log[i].index <= idx))
            && (forall c :: c in log && c.index > idx ==> c in log[k..])
            && (forall c :: c in log[k..] ==> c in log)
    ensures forall i, j :: 0 <= i < j < |log| ==> log[i] != log[j]
  {
    var s, k := Indices(log), CutPoint(Indices(log), idx);
    forall i | k <= i < |log|
      ensures log[i].index > idx
    {
      assert s[k] <= s[i];
    }
    forall c | c in log && c.index > idx
      ensures c in log[k..]
    {
      var i :| 0 <= i < |log| && log[i] == c;
      assert log[k..][i - k] == c;
    }
    forall i, j | 0 <= i < j < |log|
      ensures log[i] != log[j]
    {
      assert s[i] < s[j];
    }
  }

  /** Popping both logs through the same index leaves logs that fit together. */
  lemma PoppedLogsFit(log: seq<XCommand>, sync: seq<XCommand>, log': seq<XCommand>, sync': seq<XCommand>, idx: int)
    requires Increasing(Indices(log)) && Increasing(Indices(sync)) && forall c :: c in sync ==> c in log
    requires log' == log[CutPoint(Indices(log), idx)..]
    requires Indices(sync') == PopThrough(Indices(sync), idx) && forall c :: c in sync' ==> c in sync
    ensures Indices(log') == PopThrough(Indices(log), idx)
    ensures Increasing(Indices(log')) && Increasing(Indices(sync'))
    ensures forall c :: c in log' ==> c in log
    ensures forall c :: c in sync' ==> c in log'
  {
    assert Indices(log') == PopThrough(Indices(log), idx);
    CutSplits(log, idx);
    PopThroughKeepsLater(Indices(log), idx);
    PopThroughKeepsLater(Indices(sync), idx);
    hide Increasing, PopThrough, CutPoint, Indices;
    forall c | c in sync'
      ensures c in log'
    {
      IndexMember(sync', c);
    }
  }

  lemma CutIs(log: seq<XCommand>, k: nat, idx: int)
    requires k <= CutPoint(Indices(log), idx)
    ensures CutPoint(Indices(log), idx) <= |log|
    ensures k < CutPoint(Indices(log), idx) <==> k < |log| && log[k].index <= idx
  {
  }

  lemma IndexMember(s: seq<XCommand>, c: XCommand)
    requires c in s
    ensures c.index in Indices(s)
  {
    var i :| 0 <= i < |s| && s[i] == c;
    assert Indices(s)[i] == c.index;
  }

  function DeactivatableIn(s: seq<XCommand>): set<int> {
    set c | c in s && c.deactivatable :: c.index
  }

  function SynchronizableIn(s: seq<XCommand>): set<int>
    reads set c | c in s
  {
    set c | c in s && c.synchronizable :: c.index
  }

  /** In an increasing log an index names one command only. */
  lemma NamedOnce(s: seq<XCommand>, i: nat)
    requires Increasing(Indices(s)) && i < |s|
    ensures s[i].index in DeactivatableIn(s) <==> s[i].deactivatable
    ensures s[i].index in SynchronizableIn(s) <==> s[i].synchronizable
  {
    assert s[i] in s;
    forall c | c in s && c.index == s[i].index
      ensures c == s[i]
    {
      var j :| 0 <= j < |s| && s[j] == c;
      assert Indices(s)[j] == Indices(s)[i];
    }
  }

  lemma IndicesAppend(s: seq<XCommand>, c: XCommand)
    requires Increasing(Indices(s)) && forall x :: x in s ==> x.index < c.index
    ensures Indices(s + [c]) == Indices(s) + [c.index] && Increasing(Indices(s + [c]))
  {
    forall x | x in Indices(s)
      ensures x < c.index
    {
      var i :| 0 <= i < |s| && Indices(s)[i] == x;
      assert s[i] in s;
    }
    IncreasingAppend(Indices(s), c.index);
  }
}
