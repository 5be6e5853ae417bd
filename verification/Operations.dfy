/** How the scheduler's decisions travel: a process status is packed into an array of handles,
    sent over an in-order channel, and unpacked by the executor of that process. */
module Operations {
  import opened Options
  import opened Mirror

  /** What an operation says: `handles` lists the running queues first, then the suspended ones. */
  datatype Message = Message(pid: Pid, runningCnt: nat, suspendedCnt: nat, handles: seq<Handle>)

  predicate WellFormed(msg: Message) {
    |msg.handles| == msg.runningCnt + msg.suspendedCnt
  }

  /** `msg` carries the two sets of `p`, in any order within each of them and without repeats. */
  ghost predicate Carries(msg: Message, p: ProcessStatus) {
    && WellFormed(msg) && msg.runningCnt == |p.running| && msg.suspendedCnt == |p.parked|
    && (forall h :: h in msg.handles[..msg.runningCnt] <==> h in p.running)
    && (forall h :: h in msg.handles[msg.runningCnt..] <==> h in p.parked)
  }

  class SchedOperation {
    const pid: Pid
    const runningCnt: nat
    const suspendedCnt: nat
    const handles: array<Handle>

    ghost function View(): Message
      reads handles
    {
      Message(pid, runningCnt, suspendedCnt, handles[..])
    }

    constructor (pid: Pid, p: ProcessStatus)
      ensures fresh(handles) && View().pid == pid && Carries(View(), p)
    {
      this.pid, runningCnt, suspendedCnt := pid, |p.running|, |p.parked|;
      handles := new Handle[|p.running| + |p.parked|];
      new;
      FillFrom(0, p.running);
      FillFrom(|p.running|, p.parked);
      assert handles[..][..runningCnt] == handles[..runningCnt];
      assert handles[..][runningCnt..] == handles[runningCnt..runningCnt + suspendedCnt];
    }

    /** Writes the handles of a set one after the other, in whatever order the set yields them. */
    method FillFrom(start: nat, queues: set<Handle>)
      requires start + |queues| <= handles.Length
      modifies handles
      ensures handles[..start] == old(handles[..start])
      ensures forall h :: h in handles[start..start + |queues|] <==> h in queues
    {
      var i, rest := start, queues;
      while rest != {}
        invariant rest <= queues && start <= i && i - start + |rest| == |queues|
        invariant handles[..start] == old(handles[..start])
        invariant forall h :: h in handles[start..i] <==> h in queues && h !in rest
      {
        var h: Handle :| h in rest;
        handles[i] := h;
        assert handles[start..i + 1] == handles[start..i] + [h];
        i, rest := i + 1, rest - {h};
      }
    }
  }

  /** A queue on the client's side: a terminated one can no longer be suspended. */
  datatype ClientQueue = ClientQueue(suspended: bool, terminated: bool)

  /** One executed operation resumes the queues it lists first and suspends the others;
      queues that are gone are passed over. */
  function Executed(qs: map<Handle, ClientQueue>, msg: Message): map<Handle, ClientQueue>
    requires WellFormed(msg)
  {
    map h | h in qs ::
      if h in msg.handles[msg.runningCnt..] && !qs[h].terminated then qs[h].(suspended := true)
      else if h in msg.handles[..msg.runningCnt] then qs[h].(suspended := false)
      else qs[h]
  }

  class SchedExecutor {
    const pid: Pid
    var queues: map<Handle, ClientQueue>

    constructor (pid: Pid)
      ensures this.pid == pid && queues == map[]
    {
      this.pid, queues := pid, map[];
    }

    method Resume(h: Handle)
      modifies this
      ensures queues == if h in old(queues) then old(queues)[h := old(queues)[h].(suspended := false)] else old(queues)
    {
      if h in queues { queues := queues[h := queues[h].(suspended := false)]; }
    }

    method Suspend(h: Handle)
      modifies this
      ensures queues == if h in old(queues) && !old(queues)[h].terminated
                        then old(queues)[h := old(queues)[h].(suspended := true)] else old(queues)
    {
      if h in queues && !queues[h].terminated { queues := queues[h := queues[h].(suspended := true)]; }
    }

    method ExecuteSchedOperation(op: SchedOperation)
      requires WellFormed(op.View())
      modifies this
      ensures queues == Executed(old(queues), op.View())
    {
      ghost var msg := op.View();
      var i := 0;
      while i < op.runningCnt
        invariant i <= op.runningCnt && op.View() == msg && queues.Keys == old(queues.Keys)
        invariant forall h :: h in queues ==>
                    queues[h] == if h in msg.handles[..i] then old(queues)[h].(suspended := false) else old(queues)[h]
      {
        Resume(op.handles[i]);
        i := i + 1;
      }
      ghost var between := queues;
      i := 0;
      while i < op.suspendedCnt
        invariant i <= op.suspendedCnt && op.View() == msg && queues.Keys == old(queues.Keys)
        invariant forall h :: h in queues ==>
                    queues[h] == if h in msg.handles[op.runningCnt..op.runningCnt + i] && !between[h].terminated
                                 then between[h].(suspended := true) else between[h]
      {
        Suspend(op.handles[op.runningCnt + i]);
        i := i + 1;
      }
      assert msg.handles[op.runningCnt..op.runningCnt + i] == msg.handles[op.runningCnt..];
    }
  }

  /** What the executor is left with after working through its channel in order. */
  function ExecutedAll(qs: map<Handle, ClientQueue>, channel: seq<Message>): (r: map<Handle, ClientQueue>)
    requires forall i :: 0 <= i < |channel| ==> WellFormed(channel[i])
  {
    if channel == [] then qs
    else Executed(ExecutedAll(qs, channel[..|channel| - 1]), channel[|channel| - 1])
  }

  /** Executing operations neither makes queues nor terminates them. */
  lemma {:induction false} ExecutingKeepsQueues(qs: map<Handle, ClientQueue>, channel: seq<Message>)
    requires forall i :: 0 <= i < |channel| ==> WellFormed(channel[i])
    ensures ExecutedAll(qs, channel).Keys == qs.Keys
    ensures forall h :: h in qs ==> ExecutedAll(qs, channel)[h].terminated == qs[h].terminated
  {
    if channel != [] {
      ExecutingKeepsQueues(qs, channel[..|channel| - 1]);
    }
  }

  /** Decisions arrive intact: whatever history the scheduler has seen, whatever the flags of the
      client were and whatever older operations it has still to execute, once it has executed the
      operation made from the current mirror, every queue that is alive on both sides is
      suspended exactly when the mirror says so, and no other queue was touched by it. */
  lemma DecisionsArriveIntact(actions: seq<Action>, pid: Pid, qs: map<Handle, ClientQueue>,
                              backlog: seq<Message>, msg: Message)
    requires Run(actions).Some? && pid in Run(actions).value.procs
    requires forall i :: 0 <= i < |backlog| ==> WellFormed(backlog[i])
    requires msg.pid == pid && Carries(msg, Run(actions).value.procs[pid])
    ensures var m, qs' := Run(actions).value, ExecutedAll(qs, backlog + [msg]);
            && qs'.Keys == qs.Keys
            && (forall h :: h in qs && h in m.xqs && m.xqs[h].pid == pid && !qs[h].terminated ==>
                  qs'[h].suspended == m.xqs[h].suspended)
            && (forall h :: h in qs && !(h in m.xqs && m.xqs[h].pid == pid) ==>
                  qs'[h] == ExecutedAll(qs, backlog)[h])
  {
    var m := Run(actions).value;
    RunKeepsMirror(actions);
    ExecutingKeepsQueues(qs, backlog);
    assert (backlog + [msg])[..|backlog|] == backlog;
    var before := ExecutedAll(qs, backlog);
    assert ExecutedAll(qs, backlog + [msg]) == Executed(before, msg);
    forall h | h in qs
      ensures h in msg.handles[..msg.runningCnt] <==> h in m.xqs && m.xqs[h].pid == pid && !m.xqs[h].suspended
      ensures h in msg.handles[msg.runningCnt..] <==> h in m.xqs && m.xqs[h].pid == pid && m.xqs[h].suspended
    {
      assert h in msg.handles[..msg.runningCnt] <==> h in m.procs[pid].running;
      assert h in msg.handles[msg.runningCnt..] <==> h in m.procs[pid].parked;
    }
  }

  predicate HasQueues(p: ProcessStatus) {
    p.running != {} || p.parked != {}
  }

  lemma OwnerHasQueues(m: Mirror, h: Handle)
    requires MirrorOk(m) && h in m.xqs
    ensures m.xqs[h].pid in m.procs && HasQueues(m.procs[m.xqs[h].pid])
  {
    var p := m.procs[m.xqs[h].pid];
    assert h in p.running || h in p.parked;
  }

  predicate SentTo(sent: seq<SchedOperation>, p: Pid) {
    exists i :: 0 <= i < |sent| && sent[i].pid == p
  }

  lemma SentToAppend(sent: seq<SchedOperation>, op: SchedOperation, p: Pid)
    ensures SentTo(sent + [op], p) <==> SentTo(sent, p) || op.pid == p
  {
    var all := sent + [op];
    if SentTo(sent, p) {
      var i :| 0 <= i < |sent| && sent[i].pid == p;
      assert all[i].pid == p;
    }
    assert all[|sent|] == op;
  }

  /** Sends one operation for every process that has queues and none for any other, over the processes in any order.
      `sent` is what goes into the channels. */
  method ExecuteOperations(sched: LocalScheduler) returns (sent: seq<SchedOperation>)
    requires MirrorOk(sched.View())
    ensures forall i :: 0 <= i < |sent| ==>
              sent[i].pid in sched.procs && Carries(sent[i].View(), sched.procs[sent[i].pid])
    ensures forall i, j :: 0 <= i < j < |sent| ==> sent[i].pid != sent[j].pid
    ensures forall i :: 0 <= i < |sent| ==> HasQueues(sched.procs[sent[i].pid])
    ensures forall h :: h in sched.xqs ==> SentTo(sent, sched.xqs[h].pid)
  {
    hide MirrorOk, Carries, SentTo;
    sent := [];
    var rest := sched.procs.Keys;
    while rest != {}
      invariant rest <= sched.procs.Keys
      invariant forall i :: 0 <= i < |sent| ==> sent[i].pid in sched.procs && sent[i].pid !in rest
      invariant forall i :: 0 <= i < |sent| ==> Carries(sent[i].View(), sched.procs[sent[i].pid])
      invariant forall i, j :: 0 <= i < j < |sent| ==> sent[i].pid != sent[j].pid
      invariant forall i :: 0 <= i < |sent| ==> HasQueues(sched.procs[sent[i].pid])
      invariant forall p :: p in sched.procs && p !in rest && HasQueues(sched.procs[p]) ==> SentTo(sent, p)
    {
      var pid: Pid :| pid in rest;
      var p := sched.procs[pid];
      if p.running != {} || p.parked != {} {
        var op := new SchedOperation(pid, p);
        forall q { SentToAppend(sent, op, q); }
        sent := sent + [op];
      }
      rest := rest - {pid};
    }
    forall h | h in sched.xqs
      ensures SentTo(sent, sched.xqs[h].pid)
    {
      OwnerHasQueues(sched.View(), h);
    }
  }
}
