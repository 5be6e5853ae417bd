/** What the local scheduler knows of every process and queue, kept under the events that
    clients send and the suspensions and resumptions that the policy decides. */
module Mirror {
  import opened Options

  type Handle = nat
  type Pid = nat
  type Device = int

  /** The status of one queue as the scheduler last heard of it. */
  datatype XQueueStatus = XQueueStatus(device: Device, level: int, pid: Pid, threshold: int, batchSize: int,
                                       ready: bool, suspended: bool, readyTime: int)

  datatype ProcessStatus = ProcessStatus(cmdline: string, running: set<Handle>, parked: set<Handle>)

  datatype Mirror = Mirror(xqs: map<Handle, XQueueStatus>, procs: map<Pid, ProcessStatus>)

  datatype Event =
    | Hint
    | ProcessCreate(pid: Pid, cmdline: string)
    | ProcessDestroy(pid: Pid)
    | XQueueCreate(pid: Pid, handle: Handle, device: Device, level: int, threshold: int, batchSize: int)
    | XQueueDestroy(pid: Pid, handle: Handle)
    | XQueueReady(pid: Pid, handle: Handle, time: int)
    | XQueueIdle(pid: Pid, handle: Handle)
    | XQueueConfigUpdate(pid: Pid, handle: Handle, device: Device, level: int, threshold: int, batchSize: int)

  /** What changes the mirror: an event taken at some time, or a decision of the policy. */
  datatype Action =
    | Hear(event: Event, now: int)
    | Park(handle: Handle)
    | Release(handle: Handle)

  const UNKNOWN := 0

  function Empty(): Mirror { Mirror(map[], map[]) }

  /** A queue that the scheduler hears of for the first time runs; its process is made known too. */
  function WithNewQueue(m: Mirror, h: Handle, st: XQueueStatus): Mirror {
    var p := if st.pid in m.procs then m.procs[st.pid] else ProcessStatus("", {}, {});
    Mirror(m.xqs[h := st], m.procs[st.pid := p.(running := p.running + {h})])
  }

  function FirstStatus(pid: Pid, time: int, ready: bool): XQueueStatus {
    XQueueStatus(UNKNOWN, UNKNOWN, pid, 0, 0, ready, false, time)
  }

  function WithConfig(st: XQueueStatus, device: Device, level: int, threshold: int, batchSize: int): XQueueStatus {
    st.(device := device, level := level, threshold := threshold, batchSize := batchSize)
  }

  function Configured(m: Mirror, pid: Pid, h: Handle, device: Device, level: int, threshold: int, batchSize: int,
                      now: int): Mirror {
    if h in m.xqs then m.(xqs := m.xqs[h := WithConfig(m.xqs[h], device, level, threshold, batchSize)])
    else WithNewQueue(m, h, WithConfig(FirstStatus(pid, now, false), device, level, threshold, batchSize))
  }

  function Parked(m: Mirror, h: Handle): Mirror {
    if h !in m.xqs then m else
      var m := m.(xqs := m.xqs[h := m.xqs[h].(suspended := true)]);
      var pid := m.xqs[h].pid;
      if pid !in m.procs then m else
        var p := m.procs[pid];
        m.(procs := m.procs[pid := p.(running := p.running - {h}, parked := p.parked + {h})])
  }

  function Released(m: Mirror, h: Handle): Mirror {
    if h !in m.xqs then m else
      var m := m.(xqs := m.xqs[h := m.xqs[h].(suspended := false)]);
      var pid := m.xqs[h].pid;
      if pid !in m.procs then m else
        var p := m.procs[pid];
        m.(procs := m.procs[pid := p.(running := p.running + {h}, parked := p.parked - {h})])
  }

  /** A queue may only be destroyed by the process it belongs to: anything else stops the scheduler. */
  predicate Accepts(m: Mirror, e: Event) {
    e.XQueueDestroy? && e.handle in m.xqs ==> m.xqs[e.handle].pid == e.pid
  }

  function Heard(m: Mirror, e: Event, now: int): Mirror
    requires Accepts(m, e)
  {
    match e
    case Hint => m
    case ProcessCreate(pid, cmdline) =>
      if pid in m.procs then m.(procs := m.procs[pid := m.procs[pid].(cmdline := cmdline)])
      else m.(procs := m.procs[pid := ProcessStatus(cmdline, {}, {})])
    case ProcessDestroy(pid) =>
      if pid !in m.procs then m
      else Mirror(m.xqs - (m.procs[pid].running + m.procs[pid].parked), m.procs - {pid})
    case XQueueCreate(pid, h, device, level, threshold, batchSize) =>
      Configured(m, pid, h, device, level, threshold, batchSize, now)
    case XQueueDestroy(pid, h) =>
      if h !in m.xqs || pid !in m.procs then m
      else
        var p := m.procs[pid];
        Mirror(m.xqs - {h}, m.procs[pid := p.(running := p.running - {h}, parked := p.parked - {h})])
    case XQueueReady(pid, h, time) =>
      if h in m.xqs then m.(xqs := m.xqs[h := m.xqs[h].(ready := true, readyTime := time)])
      else WithNewQueue(m, h, FirstStatus(pid, time, true))
    case XQueueIdle(pid, h) =>
      if h in m.xqs then m.(xqs := m.xqs[h := m.xqs[h].(ready := false)])
      else WithNewQueue(m, h, FirstStatus(pid, now, false))
    case XQueueConfigUpdate(pid, h, device, level, threshold, batchSize) =>
      Configured(m, pid, h, device, level, threshold, batchSize, now)
  }

  /** The mirror after an action, or nothing when the scheduler stopped. */
  function Apply(m: Mirror, a: Action): Option<Mirror> {
    match a
    case Hear(e, now) => if Accepts(m, e) then Some(Heard(m, e, now)) else None
    case Park(h) => Some(Parked(m, h))
    case Release(h) => Some(Released(m, h))
  }

  function Run(actions: seq<Action>): Option<Mirror> {
    if actions == [] then Some(Empty()) else
      var before := Run(actions[..|actions| - 1]);
      if before.None? then None else Apply(before.value, actions[|actions| - 1])
  }

  /** Each known queue is in exactly one of its own process's two sets, the one its flag asks
      for, and neither set holds anything else. */
  ghost predicate MirrorOk(m: Mirror) {
    && (forall h :: h in m.xqs ==> m.xqs[h].pid in m.procs)
    && (forall p, h {:trigger h in m.procs[p].running} :: p in m.procs ==>
          (h in m.procs[p].running <==> h in m.xqs && m.xqs[h].pid == p && !m.xqs[h].suspended))
    && (forall p, h {:trigger h in m.procs[p].parked} :: p in m.procs ==>
          (h in m.procs[p].parked <==> h in m.xqs && m.xqs[h].pid == p && m.xqs[h].suspended))
  }

  lemma HeardKeepsMirror(m: Mirror, e: Event, now: int)
    requires MirrorOk(m) && Accepts(m, e)
    ensures MirrorOk(Heard(m, e, now))
  {
    if e.XQueueDestroy? {
      DestroyKeepsMirror(m, e, now);
    } else if e.ProcessDestroy? {
      ProcessDestroyKeepsMirror(m, e, now);
    }
  }

  lemma DestroyKeepsMirror(m: Mirror, e: Event, now: int)
    requires MirrorOk(m) && Accepts(m, e) && e.XQueueDestroy?
    ensures MirrorOk(Heard(m, e, now))
  {
  }

  lemma ProcessDestroyKeepsMirror(m: Mirror, e: Event, now: int)
    requires MirrorOk(m) && e.ProcessDestroy?
    ensures MirrorOk(Heard(m, e, now))
  {
  }

  function WithFlag(m: Mirror, h: Handle, suspended: bool): map<Handle, XQueueStatus> {
    if h in m.xqs then m.xqs[h := m.xqs[h].(suspended := suspended)] else m.xqs
  }

  /** A decision changes one flag, and the sets follow. */
  lemma DecisionKeepsMirror(m: Mirror, h: Handle)
    requires MirrorOk(m)
    ensures MirrorOk(Parked(m, h)) && Parked(m, h).xqs == WithFlag(m, h, true) && Parked(m, h).procs.Keys == m.procs.Keys
    ensures MirrorOk(Released(m, h)) && Released(m, h).xqs == WithFlag(m, h, false) && Released(m, h).procs.Keys == m.procs.Keys
  {
  }

  lemma NothingParked(m: Mirror)
    requires MirrorOk(m) && forall h :: h in m.xqs ==> !m.xqs[h].suspended
    ensures forall p :: p in m.procs ==> m.procs[p].parked == {}
  {
    forall p | p in m.procs ensures m.procs[p].parked == {} {
      forall h: Handle ensures h !in m.procs[p].parked { }
    }
  }

  /** Whatever events arrive and whatever the policy decides, the mirror stays consistent. */
  lemma {:induction false} RunKeepsMirror(actions: seq<Action>)
    requires Run(actions).Some?
    ensures MirrorOk(Run(actions).value)
  {
    if actions != [] {
      var before, a := actions[..|actions| - 1], actions[|actions| - 1];
      RunKeepsMirror(before);
      var m := Run(before).value;
      match a {
        case Hear(e, now) => HeardKeepsMirror(m, e, now);
        case Park(h) => DecisionKeepsMirror(m, h);
        case Release(h) => DecisionKeepsMirror(m, h);
      }
    }
  }

  /** The life of one queue on its own: what a history says about handle `h`, without any
      table of processes or set of queues. */
  function Track(actions: seq<Action>, h: Handle): Option<XQueueStatus> {
    if actions == [] then None else
      var st := Track(actions[..|actions| - 1], h);
      match actions[|actions| - 1]
      case Park(g) => if g == h && st.Some? then Some(st.value.(suspended := true)) else st
      case Release(g) => if g == h && st.Some? then Some(st.value.(suspended := false)) else st
      case Hear(e, now) => TrackEvent(st, e, now, h)
  }

  function TrackEvent(st: Option<XQueueStatus>, e: Event, now: int, h: Handle): Option<XQueueStatus> {
    match e
    case Hint => st
    case ProcessCreate(_, _) => st
    case ProcessDestroy(p) => if st.Some? && st.value.pid == p then None else st
    case XQueueDestroy(_, g) => if g == h then None else st
    case XQueueReady(p, g, time) =>
      if g != h then st
      else if st.Some? then Some(st.value.(ready := true, readyTime := time))
      else Some(FirstStatus(p, time, true))
    case XQueueIdle(p, g) =>
      if g != h then st
      else if st.Some? then Some(st.value.(ready := false))
      else Some(FirstStatus(p, now, false))
    case XQueueCreate(p, g, d, l, t, b) =>
      if g != h then st
      else Some(WithConfig(if st.Some? then st.value else FirstStatus(p, now, false), d, l, t, b))
    case XQueueConfigUpdate(p, g, d, l, t, b) =>
      if g != h then st
      else Some(WithConfig(if st.Some? then st.value else FirstStatus(p, now, false), d, l, t, b))
  }

  function Lookup(m: Mirror, h: Handle): Option<XQueueStatus> {
    if h in m.xqs then Some(m.xqs[h]) else None
  }

  lemma HeardTracks(m: Mirror, e: Event, now: int, h: Handle)
    requires MirrorOk(m) && Accepts(m, e)
    ensures Lookup(Heard(m, e, now), h) == TrackEvent(Lookup(m, h), e, now, h)
  {
  }

  /** The tables never mix queues up: what they say about a queue is what its own history says. */
  lemma {:induction false} MirrorTracksEachQueue(actions: seq<Action>, h: Handle)
    requires Run(actions).Some?
    ensures Lookup(Run(actions).value, h) == Track(actions, h)
  {
    if actions != [] {
      var before, a := actions[..|actions| - 1], actions[|actions| - 1];
      MirrorTracksEachQueue(before, h);
      RunKeepsMirror(before);
      var m := Run(before).value;
      if a.Hear? { HeardTracks(m, a.event, a.now, h); }
      hide MirrorOk, Heard, TrackEvent;
    }
  }

  /** What an event about one queue says is what the tables hold afterwards: a configuration is taken
      as it is and leaves a known queue ready or not as it was; a ready or idle event changes only
      that; a queue heard of for the first time is not suspended, belongs to the process of the
      event, and is ready exactly if the event says so. Other queues are not touched. */
  lemma QueueEventIs(m: Mirror, e: Event, now: int)
    requires e.XQueueCreate? || e.XQueueConfigUpdate? || e.XQueueReady? || e.XQueueIdle?
    ensures e.handle in Heard(m, e, now).xqs
    ensures var st := Heard(m, e, now).xqs[e.handle];
            && (e.XQueueCreate? || e.XQueueConfigUpdate? ==>
                  st.device == e.device && st.level == e.level && st.threshold == e.threshold && st.batchSize == e.batchSize)
            && (e.XQueueReady? ==> st.ready && st.readyTime == e.time)
            && (e.XQueueIdle? ==> !st.ready)
            && (e.handle in m.xqs ==>
                  var was := m.xqs[e.handle];
                  && st.pid == was.pid && st.suspended == was.suspended
                  && (!e.XQueueReady? ==> st.readyTime == was.readyTime)
                  && (e.XQueueReady? || e.XQueueIdle? ==>
                        st.device == was.device && st.level == was.level && st.threshold == was.threshold && st.batchSize == was.batchSize)
                  && (e.XQueueCreate? || e.XQueueConfigUpdate? ==> st.ready == was.ready))
            && (e.handle !in m.xqs ==>
                  && st.pid == e.pid && !st.suspended && (st.ready <==> e.XQueueReady?)
                  && (!e.XQueueReady? ==> st.readyTime == now)
                  && (e.XQueueReady? || e.XQueueIdle? ==> st.device == 0 && st.level == 0 && st.threshold == 0 && st.batchSize == 0))
    ensures forall g :: g != e.handle ==>
              && (g in Heard(m, e, now).xqs <==> g in m.xqs)
              && (g in m.xqs ==> Heard(m, e, now).xqs[g] == m.xqs[g])
  {
  }

  /** A process that is created keeps its queues if it was known, and has none if it was not. */
  lemma ProcessCreationIs(m: Mirror, pid: Pid, cmdline: string, now: int)
    ensures var after := Heard(m, ProcessCreate(pid, cmdline), now);
            && after.xqs == m.xqs && after.procs.Keys == m.procs.Keys + {pid} && after.procs[pid].cmdline == cmdline
            && (pid in m.procs ==> after.procs[pid].running == m.procs[pid].running && after.procs[pid].parked == m.procs[pid].parked)
            && (pid !in m.procs ==> after.procs[pid].running == {} && after.procs[pid].parked == {})
            && forall p :: p in m.procs && p != pid ==> after.procs[p] == m.procs[p]
  {
  }

  /** A destroyed queue is gone, and a destroyed process takes exactly its queues with it. */
  lemma DestructionIs(m: Mirror, e: Event, now: int, h: Handle)
    requires MirrorOk(m) && Accepts(m, e) && (e.XQueueDestroy? || e.ProcessDestroy?)
    ensures h in Heard(m, e, now).xqs
            <==> h in m.xqs && (if e.XQueueDestroy? then h != e.handle else m.xqs[h].pid != e.pid)
    ensures h in Heard(m, e, now).xqs ==> Heard(m, e, now).xqs[h] == m.xqs[h]
  {
    if e.ProcessDestroy? && e.pid in m.procs {
      var p := m.procs[e.pid];
      assert h in p.running + p.parked <==> h in p.running || h in p.parked;
    }
  }

  /** Two consistent mirrors that agree on the queues agree on every set. */
  lemma QueuesDetermineSets(m: Mirror, n: Mirror, p: Pid)
    requires MirrorOk(m) && MirrorOk(n) && m.xqs == n.xqs && p in m.procs && p in n.procs
    ensures m.procs[p].running == n.procs[p].running && m.procs[p].parked == n.procs[p].parked
  {
    forall h: Handle
      ensures h in m.procs[p].running <==> h in n.procs[p].running
      ensures h in m.procs[p].parked <==> h in n.procs[p].parked
    {
      assert h in m.xqs <==> h in n.xqs;
    }
  }

  /** The scheduler's tables, changed in place. */
  class LocalScheduler {
    var xqs: map<Handle, XQueueStatus>
    var procs: map<Pid, ProcessStatus>

    ghost function View(): Mirror
      reads this
    {
      Mirror(xqs, procs)
    }

    constructor ()
      ensures View() == Empty()
    {
      xqs, procs := map[], map[];
    }

    method CreateXQueueStatus(pid: Pid, h: Handle, device: Device, level: int, threshold: int, batchSize: int,
                              ready: bool, readyTime: int)
      modifies this
      ensures View() == WithNewQueue(old(View()), h,
                          XQueueStatus(device, level, pid, threshold, batchSize, ready, false, readyTime))
    {
      xqs := xqs[h := XQueueStatus(device, level, pid, threshold, batchSize, ready, false, readyTime)];
      if pid !in procs {
        procs := procs[pid := ProcessStatus("", {}, {})];
      }
      procs := procs[pid := procs[pid].(running := procs[pid].running + {h})];
    }

    /** Forgets every queue in `handles`, in whatever order the set yields them. */
    method EraseQueues(handles: set<Handle>)
      modifies this`xqs
      ensures xqs == old(xqs) - handles
    {
      var rest := handles;
      while rest != {}
        invariant rest <= handles && xqs == old(xqs) - (handles - rest)
      {
        var h: Handle :| h in rest;
        xqs := xqs - {h};
        rest := rest - {h};
      }
    }

    method Configure(pid: Pid, h: Handle, device: Device, level: int, threshold: int, batchSize: int, now: int)
      modifies this
      ensures View() == Configured(old(View()), pid, h, device, level, threshold, batchSize, now)
    {
      if h !in xqs {
        CreateXQueueStatus(pid, h, device, level, threshold, batchSize, false, now);
      } else {
        xqs := xqs[h := xqs[h].(device := device, level := level, threshold := threshold, batchSize := batchSize)];
      }
    }

    /** Takes one event in; `ok` is false when an assertion stops the scheduler. */
    method UpdateStatus(e: Event, now: int) returns (ok: bool)
      modifies this
      ensures ok == Accepts(old(View()), e)
      ensures View() == if ok then Heard(old(View()), e, now) else old(View())
    {
      ok := true;
      match e {
        case Hint =>
        case ProcessCreate(pid, cmdline) =>
          if pid in procs {
            procs := procs[pid := procs[pid].(cmdline := cmdline)];
          } else {
            procs := procs[pid := ProcessStatus(cmdline, {}, {})];
          }
        case ProcessDestroy(pid) =>
          if pid in procs {
            EraseQueues(procs[pid].running);
            EraseQueues(procs[pid].parked);
            procs := procs - {pid};
          }
        case XQueueCreate(pid, h, device, level, threshold, batchSize) =>
          Configure(pid, h, device, level, threshold, batchSize, now);
        case XQueueDestroy(pid, h) =>
          if h in xqs {
            if xqs[h].pid != pid { return false; }
            if pid in procs {
              procs := procs[pid := procs[pid].(running := procs[pid].running - {h}, parked := procs[pid].parked - {h})];
              xqs := xqs - {h};
            }
          }
        case XQueueReady(pid, h, time) =>
          if h !in xqs {
            CreateXQueueStatus(pid, h, UNKNOWN, UNKNOWN, 0, 0, true, time);
          } else {
            xqs := xqs[h := xqs[h].(ready := true, readyTime := time)];
          }
        case XQueueIdle(pid, h) =>
          if h !in xqs {
            CreateXQueueStatus(pid, h, UNKNOWN, UNKNOWN, 0, 0, false, now);
          } else {
            xqs := xqs[h := xqs[h].(ready := false)];
          }
        case XQueueConfigUpdate(pid, h, device, level, threshold, batchSize) =>
          Configure(pid, h, device, level, threshold, batchSize, now);
      }
    }

    method Suspend(h: Handle)
      modifies this
      ensures View() == Parked(old(View()), h)
    {
      if h !in xqs { return; }
      xqs := xqs[h := xqs[h].(suspended := true)];
      var pid := xqs[h].pid;
      if pid !in procs { return; }
      var p := procs[pid];
      procs := procs[pid := p.(running := p.running - {h}, parked := p.parked + {h})];
    }

    method Resume(h: Handle)
      modifies this
      ensures View() == Released(old(View()), h)
    {
      if h !in xqs { return; }
      xqs := xqs[h := xqs[h].(suspended := false)];
      var pid := xqs[h].pid;
      if pid !in procs { return; }
      var p := procs[pid];
      procs := procs[pid := p.(running := p.running + {h}, parked := p.parked - {h})];
    }

    /** Changing the policy resumes every queue: the new policy starts from an empty slate. */
    method ResumeAll()
      requires MirrorOk(View())
      modifies this
      ensures MirrorOk(View()) && procs.Keys == old(procs.Keys)
      ensures xqs == map h | h in old(xqs) :: old(xqs[h]).(suspended := false)
      ensures forall p :: p in procs ==> procs[p].parked == {}
    {
      hide MirrorOk, Released, Parked;
      var rest := xqs.Keys;
      while rest != {}
        invariant rest <= xqs.Keys == old(xqs.Keys) && procs.Keys == old(procs.Keys) && MirrorOk(View())
        invariant forall h :: h in xqs ==>
                    xqs[h] == if h in rest then old(xqs[h]) else old(xqs[h]).(suspended := false)
      {
        var h: Handle :| h in rest;
        DecisionKeepsMirror(View(), h);
        Resume(h);
        rest := rest - {h};
      }
      NothingParked(View());
    }
  }
}
