/** What the completely fair policy guarantees, on one round and over whole runs. */
module CfsTheorems {
  import opened Options
  import opened Mirror
  import opened Policies
  import opened Walks
  import opened Cfs

  /** `h` is ready on `d` and no ready queue of `d` has less virtual runtime. */
  ghost predicate IsLeast(infos: map<Handle, CfsNode>, xqs: map<Handle, XQueueStatus>, h: Handle, d: Device) {
    && ReadyOn(xqs, h, d) && h in infos
    && forall g :: ReadyOn(xqs, g, d) && g in infos ==> infos[h].vruntime <= infos[g].vruntime
  }

  /** The pick of a device is a least queue, and of several the first one in the walk. */
  lemma {:induction false} PickIsLeastSoFar(infos: map<Handle, CfsNode>, xqs: map<Handle, XQueueStatus>,
                                            walked: seq<Handle>, d: Device)
    requires Covers(infos, xqs)
    ensures var p := Pick(infos, xqs, walked, d);
            && (p.None? ==> forall g :: g in walked ==> !ReadyOn(xqs, g, d))
            && (p.Some? ==>
                  && ReadyOn(xqs, p.value, d)
                  && (forall g :: g in walked && ReadyOn(xqs, g, d) ==> infos[p.value].vruntime <= infos[g].vruntime))
  {
    if walked != [] {
      PickIsLeastSoFar(infos, xqs, walked[..|walked| - 1], d);
      assert walked == walked[..|walked| - 1] + [walked[|walked| - 1]];
    }
  }

  lemma PickIsLeast(infos: map<Handle, CfsNode>, xqs: map<Handle, XQueueStatus>, order: seq<Handle>, d: Device)
    requires Covers(infos, xqs) && Enumerates(order, xqs.Keys)
    ensures var p := Pick(infos, xqs, order, d);
            && (p.Some? <==> exists g :: ReadyOn(xqs, g, d))
            && (p.Some? ==> IsLeast(infos, xqs, p.value, d))
  {
    PickIsLeastSoFar(infos, xqs, order, d);
  }

  /** The floor of a device is the virtual runtime of a least known ready queue, if there is one. */
  lemma {:induction false} FloorIsLeast(infos: map<Handle, CfsNode>, xqs: map<Handle, XQueueStatus>,
                                        walked: seq<Handle>, d: Device)
    ensures var f := Floor(infos, xqs, walked, d);
            && (f.None? <==> forall g :: g in walked ==> !(ReadyOn(xqs, g, d) && g in infos))
            && (f.Some? ==>
                  && (exists g :: g in walked && ReadyOn(xqs, g, d) && g in infos && infos[g].vruntime == f.value)
                  && (forall g :: g in walked && ReadyOn(xqs, g, d) && g in infos ==> f.value <= infos[g].vruntime))
  {
    if walked != [] {
      FloorIsLeast(infos, xqs, walked[..|walked| - 1], d);
      assert walked == walked[..|walked| - 1] + [walked[|walked| - 1]];
    }
  }

  /** A queue that is first seen while others wait on its device starts level with the least of
      them: it neither jumps the queue nor has to catch up. */
  lemma NewcomerStartsLevel(infos: map<Handle, CfsNode>, xqs: map<Handle, XQueueStatus>, order: seq<Handle>,
                            now: int, h: Handle, d: Device)
    requires Enumerates(order, xqs.Keys) && ReadyOn(xqs, h, d) && h !in infos
    requires exists g :: ReadyOn(xqs, g, d) && g in infos
    ensures var r := Prepared(infos, xqs, order, now);
            && h in r && IsLeast(r, xqs, h, d)
            && exists g :: ReadyOn(xqs, g, d) && g in infos && r[g].vruntime == r[h].vruntime
  {
    var charged, r := Charged(infos, order, now), Prepared(infos, xqs, order, now);
    FloorIsLeast(charged, xqs, order, d);
    var f := Floor(charged, xqs, order, d);
    assert r[h].vruntime == f.value;
    forall g | ReadyOn(xqs, g, d) && g in r ensures f.value <= r[g].vruntime {
      if g in infos { assert r[g] == charged[g]; }
    }
    var g :| g in order && ReadyOn(xqs, g, d) && g in charged && charged[g].vruntime == f.value;
    assert r[g] == charged[g];
  }

  /** Every step of priority is worth a fifth of weight. */
  lemma WeightStep(priority: int)
    ensures WeightFor(priority + 1) == 1.2 * WeightFor(priority)
  {
    if priority < 0 {
      assert PowerOf12(-priority) == 1.2 * PowerOf12(-priority - 1);
    }
  }

  /** The scheduler together with the policy. */
  datatype System = System(m: Mirror, infos: map<Handle, CfsNode>)

  datatype Input =
    | Take(event: Event, now: int)
    | PriorityHint(handle: Handle, priority: int)
    | Round(order: seq<Handle>, now: int)

  ghost function AfterRound(s: System, order: seq<Handle>, now: int): System
    requires Enumerates(order, s.m.xqs.Keys)
  {
    var prepared := Prepared(s.infos, s.m.xqs, order, now);
    System(Carried(s.m, order, Verdicts(prepared, s.m.xqs, order)), Settled(prepared, s.m.xqs, order, order, now))
  }

  /** The system after some inputs; nothing if the scheduler stopped on the way, or if a round
      was given an order in which its table cannot be walked. */
  ghost function SystemAfter(inputs: seq<Input>): Option<System> {
    if inputs == [] then Some(System(Empty(), map[])) else
      var before := SystemAfter(inputs[..|inputs| - 1]);
      if before.None? then None else
        var s := before.value;
        match inputs[|inputs| - 1]
        case Take(e, now) => if Accepts(s.m, e) then Some(s.(m := Heard(s.m, e, now))) else None
        case PriorityHint(h, p) =>
          Some(s.(infos := s.infos[h := NodeOf(s.infos, h).(priority := p, weight := WeightFor(p))]))
        case Round(order, now) =>
          if Enumerates(order, s.m.xqs.Keys) then Some(AfterRound(s, order, now)) else None
  }

  /** A queue that the policy takes to be running is not suspended. */
  ghost predicate RunningIsNotParked(s: System) {
    forall h :: h in s.m.xqs && NodeOf(s.infos, h).running ==> !s.m.xqs[h].suspended
  }

  lemma EventKeepsRunning(s: System, e: Event, now: int)
    requires MirrorOk(s.m) && RunningIsNotParked(s) && Accepts(s.m, e)
    ensures MirrorOk(Heard(s.m, e, now)) && RunningIsNotParked(s.(m := Heard(s.m, e, now)))
  {
    HeardKeepsMirror(s.m, e, now);
    hide MirrorOk;
  }

  /** What one round does to a queue. */
  lemma RoundOnQueue(s: System, order: seq<Handle>, now: int, h: Handle)
    requires Enumerates(order, s.m.xqs.Keys) && MirrorOk(s.m) && h in s.m.xqs
    ensures var prepared, s' := Prepared(s.infos, s.m.xqs, order, now), AfterRound(s, order, now);
            var st := s.m.xqs[h];
            var wins := st.ready && Pick(prepared, s.m.xqs, order, st.device) == Some(h);
            && MirrorOk(s'.m) && s'.m.xqs.Keys == s.m.xqs.Keys && h in s'.infos
            && s'.infos[h] == Settle(NodeOf(prepared, h), st.ready, wins, now)
            && s'.m.xqs[h] == st.(suspended := FlagAfter(st.suspended, VerdictOn(NodeOf(prepared, h), st.ready, wins)))
            && NodeOf(prepared, h).running == NodeOf(s.infos, h).running
            && (h in s.infos || st.ready ==> h in prepared)
  {
    hide MirrorOk, Pick, Carried, Floor, Settle, VerdictOn;
    var prepared := Prepared(s.infos, s.m.xqs, order, now);
    CarriedFlags(s.m, order, Verdicts(prepared, s.m.xqs, order));
  }

  /** A round suspends no queue that is not ready, and resumes none. */
  lemma IdleQueuesAreLeft(s: System, order: seq<Handle>, now: int, h: Handle)
    requires Enumerates(order, s.m.xqs.Keys) && MirrorOk(s.m) && h in s.m.xqs && !s.m.xqs[h].ready
    ensures h in AfterRound(s, order, now).m.xqs && AfterRound(s, order, now).m.xqs[h] == s.m.xqs[h]
  {
    hide MirrorOk, AfterRound, Enumerates, Pick;
    RoundKeepsMirror(s, order, now);
    RoundOnQueue(s, order, now, h);
  }

  lemma RoundKeepsRunning(s: System, order: seq<Handle>, now: int)
    requires Enumerates(order, s.m.xqs.Keys) && MirrorOk(s.m) && RunningIsNotParked(s)
    ensures MirrorOk(AfterRound(s, order, now).m) && RunningIsNotParked(AfterRound(s, order, now))
  {
    hide MirrorOk, Enumerates, AfterRound, Prepared, Pick;
    var s' := AfterRound(s, order, now);
    RoundKeepsMirror(s, order, now);
    forall h | h in s'.m.xqs && NodeOf(s'.infos, h).running ensures !s'.m.xqs[h].suspended {
      RoundOnQueue(s, order, now, h);
    }
  }

  lemma RoundKeepsMirror(s: System, order: seq<Handle>, now: int)
    requires Enumerates(order, s.m.xqs.Keys) && MirrorOk(s.m)
    ensures MirrorOk(AfterRound(s, order, now).m) && AfterRound(s, order, now).m.xqs.Keys == s.m.xqs.Keys
  {
    hide MirrorOk, Pick, Carried, Prepared;
    CarriedFlags(s.m, order, Verdicts(Prepared(s.infos, s.m.xqs, order, now), s.m.xqs, order));
  }

  lemma {:induction false} RunKeepsRunning(inputs: seq<Input>)
    requires SystemAfter(inputs).Some?
    ensures MirrorOk(SystemAfter(inputs).value.m) && RunningIsNotParked(SystemAfter(inputs).value)
  {
    hide MirrorOk, Enumerates, AfterRound, Heard;
    if inputs == [] {
      assert MirrorOk(Empty()) by { RunKeepsMirror([]); }
    } else {
      RunKeepsRunning(inputs[..|inputs| - 1]);
      var s := SystemAfter(inputs[..|inputs| - 1]).value;
      match inputs[|inputs| - 1] {
        case Take(e, now) => EventKeepsRunning(s, e, now);
        case PriorityHint(h, p) =>
        case Round(order, now) => RoundKeepsRunning(s, order, now);
      }
    }
  }

  /** One running queue per device: whatever happened before, a round leaves every device that has
      a ready queue with exactly one ready queue that is not suspended, a least one. */
  lemma OneReadyQueuePerDevice(inputs: seq<Input>, order: seq<Handle>, now: int, d: Device, g: Handle)
    requires SystemAfter(inputs + [Round(order, now)]).Some?
    requires var s := SystemAfter(inputs + [Round(order, now)]).value; ReadyOn(s.m.xqs, g, d)
    ensures var s := SystemAfter(inputs + [Round(order, now)]).value;
            exists h :: IsLeast(s.infos, s.m.xqs, h, d) && !s.m.xqs[h].suspended
                        && forall k :: ReadyOn(s.m.xqs, k, d) && k != h ==> s.m.xqs[k].suspended
  {
    var all := inputs + [Round(order, now)];
    assert all[..|all| - 1] == inputs;
    RunKeepsRunning(inputs);
    OneReadyQueueAfterRound(SystemAfter(inputs).value, order, now, d, g);
  }

  /** After a round a ready queue is unsuspended exactly when it was picked. */
  lemma RoundOnReady(s: System, order: seq<Handle>, now: int, d: Device, k: Handle)
    requires Enumerates(order, s.m.xqs.Keys) && MirrorOk(s.m) && RunningIsNotParked(s)
    requires ReadyOn(AfterRound(s, order, now).m.xqs, k, d) || ReadyOn(s.m.xqs, k, d)
    ensures var s', prepared := AfterRound(s, order, now), Prepared(s.infos, s.m.xqs, order, now);
            && ReadyOn(s.m.xqs, k, d) && ReadyOn(s'.m.xqs, k, d) && k in prepared && k in s'.infos
            && s'.infos[k].vruntime == prepared[k].vruntime
            && (s'.m.xqs[k].suspended <==> Pick(prepared, s.m.xqs, order, d) != Some(k))
  {
    hide MirrorOk, Enumerates, AfterRound, Prepared, Pick;
    RoundKeepsMirror(s, order, now);
    RoundOnQueue(s, order, now, k);
  }

  lemma OneReadyQueueAfterRound(s: System, order: seq<Handle>, now: int, d: Device, g: Handle)
    requires Enumerates(order, s.m.xqs.Keys) && MirrorOk(s.m) && RunningIsNotParked(s)
    requires ReadyOn(AfterRound(s, order, now).m.xqs, g, d)
    ensures var s' := AfterRound(s, order, now);
            exists h :: IsLeast(s'.infos, s'.m.xqs, h, d) && !s'.m.xqs[h].suspended
                        && forall k :: ReadyOn(s'.m.xqs, k, d) && k != h ==> s'.m.xqs[k].suspended
  {
    hide MirrorOk, RunningIsNotParked, Enumerates, AfterRound, Prepared, Pick, ReadyOn, Covers;
    var s', prepared := AfterRound(s, order, now), Prepared(s.infos, s.m.xqs, order, now);
    RoundOnReady(s, order, now, d, g);
    PickIsLeast(prepared, s.m.xqs, order, d);
    var h := Pick(prepared, s.m.xqs, order, d).value;
    RoundOnReady(s, order, now, d, h);
    forall k | ReadyOn(s'.m.xqs, k, d)
      ensures ReadyOn(s.m.xqs, k, d) && k in prepared && k in s'.infos && s'.infos[k].vruntime == prepared[k].vruntime
      ensures k in s'.m.xqs && (s'.m.xqs[k].suspended <==> k != h)
    {
      RoundOnReady(s, order, now, d, k);
      InTable(s'.m.xqs, k, d);
    }
    assert IsLeast(s'.infos, s'.m.xqs, h, d);
  }
}
