/** What the SLO policy guarantees, on one round and over whole runs. */
module SloTheorems {
  import opened Options
  import opened Mirror
  import opened Policies
  import opened Walks
  import opened Slo

  /** Some ready queue of `d` is in class `c`. */
  ghost predicate SomeReady(infos: map<Handle, QueueInfo>, xqs: map<Handle, XQueueStatus>, now: int, tick: int, c: Class, d: Device)
    requires Covers(infos, xqs)
  {
    exists g :: ReadyOn(xqs, g, d) && InClass(infos, xqs, now, tick, c, g)
  }

  /** `h` is in class `c`, and no ready queue of `d` in that class goes before it. */
  ghost predicate FirstOf(infos: map<Handle, QueueInfo>, xqs: map<Handle, XQueueStatus>, now: int, tick: int, c: Class, d: Device, h: Handle)
    requires Covers(infos, xqs)
  {
    && ReadyOn(xqs, h, d) && InClass(infos, xqs, now, tick, c, h)
    && forall g :: ReadyOn(xqs, g, d) && InClass(infos, xqs, now, tick, c, g) ==> !Before(infos, xqs, now, c, g, h)
  }

  /** What the policy promises of the queue that runs: an urgent one with the least slack if any
      is urgent, else the latency-sensitive one of the highest priority if there is one, else the
      queue with the least virtual runtime. */
  ghost predicate Deserves(infos: map<Handle, QueueInfo>, xqs: map<Handle, XQueueStatus>, now: int, tick: int, d: Device, h: Handle)
    requires Covers(infos, xqs)
  {
    if SomeReady(infos, xqs, now, tick, UrgentClass, d) then FirstOf(infos, xqs, now, tick, UrgentClass, d, h)
    else if SomeReady(infos, xqs, now, tick, LatencyClass, d) then FirstOf(infos, xqs, now, tick, LatencyClass, d, h)
    else ReadyOn(xqs, h, d) && forall g :: ReadyOn(xqs, g, d) ==> infos[h].vruntime <= infos[g].vruntime
  }

  lemma BeforeIsTransitive(infos: map<Handle, QueueInfo>, xqs: map<Handle, XQueueStatus>, now: int, tick: int, c: Class,
                           a: Handle, b: Handle, g: Handle)
    requires Covers(infos, xqs) && a in xqs && b in xqs && g in xqs
    requires InClass(infos, xqs, now, tick, c, a) && InClass(infos, xqs, now, tick, c, b) && InClass(infos, xqs, now, tick, c, g)
    requires Before(infos, xqs, now, c, a, b) && !Before(infos, xqs, now, c, g, b)
    ensures !Before(infos, xqs, now, c, g, a)
  {
  }

  lemma BeforeIsIrreflexive(infos: map<Handle, QueueInfo>, xqs: map<Handle, XQueueStatus>, now: int, c: Class, a: Handle)
    requires Covers(infos, xqs) && a in xqs
    ensures !Before(infos, xqs, now, c, a, a)
  {
  }

  /** The walk finds a first of the class among the queues walked, and nothing only if there is none. */
  lemma {:induction false} BestOfIsFirst(infos: map<Handle, QueueInfo>, xqs: map<Handle, XQueueStatus>, now: int, tick: int, c: Class,
                                         walked: seq<Handle>, d: Device)
    requires Covers(infos, xqs) && (forall h :: h in walked ==> h in xqs)
    ensures var best := BestOf(infos, xqs, now, tick, c, walked, d);
            && (best.None? ==> forall g :: g in walked && ReadyOn(xqs, g, d) ==> !InClass(infos, xqs, now, tick, c, g))
            && (best.Some? ==> forall g :: g in walked && ReadyOn(xqs, g, d) && InClass(infos, xqs, now, tick, c, g) ==>
                  !Before(infos, xqs, now, c, g, best.value))
  {
    hide Before, InClass, Covers;
    if walked != [] {
      var rest, h := walked[..|walked| - 1], walked[|walked| - 1];
      assert walked == rest + [h];
      BestOfIsFirst(infos, xqs, now, tick, c, rest, d);
      var best := BestOf(infos, xqs, now, tick, c, rest, d);
      BeforeIsIrreflexive(infos, xqs, now, c, h);
      if ReadyOn(xqs, h, d) && InClass(infos, xqs, now, tick, c, h) && best.Some? && Before(infos, xqs, now, c, h, best.value) {
        forall g | g in rest && ReadyOn(xqs, g, d) && InClass(infos, xqs, now, tick, c, g)
          ensures !Before(infos, xqs, now, c, g, h)
        {
          BeforeIsTransitive(infos, xqs, now, tick, c, h, best.value, g);
        }
      }
    }
  }

  lemma BestOfWhole(infos: map<Handle, QueueInfo>, xqs: map<Handle, XQueueStatus>, now: int, tick: int, c: Class,
                    order: seq<Handle>, d: Device)
    requires Covers(infos, xqs) && Enumerates(order, xqs.Keys)
    ensures forall h :: h in order ==> h in xqs
    ensures var best := BestOf(infos, xqs, now, tick, c, order, d);
            && (best.Some? <==> SomeReady(infos, xqs, now, tick, c, d))
            && (best.Some? ==> FirstOf(infos, xqs, now, tick, c, d, best.value))
  {
    hide Before, InClass, Covers;
    BestOfIsFirst(infos, xqs, now, tick, c, order, d);
  }

  /** The best queue of the first class that has one. */
  function Winner(infos: map<Handle, QueueInfo>, xqs: map<Handle, XQueueStatus>, now: int, tick: int,
                  walked: seq<Handle>, d: Device): Option<Handle>
    requires Covers(infos, xqs) && forall h :: h in walked ==> h in xqs
  {
    var urgent := BestOf(infos, xqs, now, tick, UrgentClass, walked, d);
    var latency := BestOf(infos, xqs, now, tick, LatencyClass, walked, d);
    if urgent.Some? then urgent else if latency.Some? then latency
    else BestOf(infos, xqs, now, tick, BatchClass, walked, d)
  }

  lemma WinnerDeserves(infos: map<Handle, QueueInfo>, xqs: map<Handle, XQueueStatus>, now: int, tick: int,
                       order: seq<Handle>, d: Device, g: Handle)
    requires Covers(infos, xqs) && Enumerates(order, xqs.Keys) && ReadyOn(xqs, g, d)
    ensures forall h :: h in order ==> h in xqs
    ensures var w := Winner(infos, xqs, now, tick, order, d);
            w.Some? && ReadyOn(xqs, w.value, d) && Deserves(infos, xqs, now, tick, d, w.value)
  {
    BestOfWhole(infos, xqs, now, tick, UrgentClass, order, d);
    BestOfWhole(infos, xqs, now, tick, LatencyClass, order, d);
    BestOfWhole(infos, xqs, now, tick, BatchClass, order, d);
    assert InClass(infos, xqs, now, tick, LatencyClass, g) || InClass(infos, xqs, now, tick, BatchClass, g);
    if !SomeReady(infos, xqs, now, tick, LatencyClass, d) {
      forall k | ReadyOn(xqs, k, d) ensures InClass(infos, xqs, now, tick, BatchClass, k) {
        assert !InClass(infos, xqs, now, tick, LatencyClass, k);
      }
    }
  }

  /** Queue zero wins as an urgent or latency-sensitive queue while somebody else can be taken
      instead: a batch queue is ready, or another queue is the best latency-sensitive one. */
  ghost predicate ZeroIsPassedOver(infos: map<Handle, QueueInfo>, xqs: map<Handle, XQueueStatus>, now: int, tick: int,
                                   order: seq<Handle>, d: Device)
    requires Covers(infos, xqs) && forall h :: h in order ==> h in xqs
  {
    && Winner(infos, xqs, now, tick, order, d) == Some(0)
    && 0 in xqs && LatencySensitive(infos[0])
    && (SomeReady(infos, xqs, now, tick, BatchClass, d)
        || BestOf(infos, xqs, now, tick, LatencyClass, order, d) != Some(0))
  }

  /** The queue picked is ready, and it is the winner exactly if queue zero is not passed over; the
      winner deserves the device. */
  lemma BestDeserves(infos: map<Handle, QueueInfo>, xqs: map<Handle, XQueueStatus>, now: int, tick: int,
                     order: seq<Handle>, d: Device, g: Handle)
    requires Covers(infos, xqs) && Enumerates(order, xqs.Keys) && ReadyOn(xqs, g, d)
    ensures forall h :: h in order ==> h in xqs
    ensures var best, w := Best(infos, xqs, now, tick, order, d), Winner(infos, xqs, now, tick, order, d);
            && ReadyOn(xqs, best, d)
            && w.Some? && Deserves(infos, xqs, now, tick, d, w.value)
            && (best == w.value <==> !ZeroIsPassedOver(infos, xqs, now, tick, order, d))
  {
    WinnerDeserves(infos, xqs, now, tick, order, d, g);
    BestOfWhole(infos, xqs, now, tick, UrgentClass, order, d);
    BestOfWhole(infos, xqs, now, tick, LatencyClass, order, d);
    BestOfWhole(infos, xqs, now, tick, BatchClass, order, d);
    hide Covers, BestOf, FirstOf, Deserves, Enumerates;
    if Winner(infos, xqs, now, tick, order, d) == Some(0) {
      assert ReadyOn(xqs, 0, d);
      if LatencySensitive(infos[0]) { assert InClass(infos, xqs, now, tick, LatencyClass, 0); }
    }
  }

  /** Queue zero is urgent and a batch queue is ready on the same device: the batch queue gets it. */
  lemma UrgentZeroLoses(now: int, order: seq<Handle>)
    requires order in {[0, 1], [1, 0]}
    ensures var ready := XQueueStatus(0, 0, 1, 0, 0, true, false, now);
            var xqs := map[0 := ready, 1 := ready];
            var infos := map[0 := FirstInfo(now).(deadline := 1), 1 := FirstInfo(now)];
            && Covers(infos, xqs) && (forall h :: h in order ==> h in xqs)
            && Best(infos, xqs, now, TIMESLICE_DEFAULT, order, 0) == 1
            && !Deserves(infos, xqs, now, TIMESLICE_DEFAULT, 0, 1)
  {
    var ready := XQueueStatus(0, 0, 1, 0, 0, true, false, now);
    var xqs := map[0 := ready, 1 := ready];
    var infos := map[0 := FirstInfo(now).(deadline := 1), 1 := FirstInfo(now)];
    assert Enumerates(order, xqs.Keys);
    BestDeserves(infos, xqs, now, TIMESLICE_DEFAULT, order, 0, 0);
    BestOfWhole(infos, xqs, now, TIMESLICE_DEFAULT, UrgentClass, order, 0);
    assert ReadyOn(xqs, 0, 0) && InClass(infos, xqs, now, TIMESLICE_DEFAULT, UrgentClass, 0);
    assert ReadyOn(xqs, 1, 0) && InClass(infos, xqs, now, TIMESLICE_DEFAULT, BatchClass, 1);
    hide BestOf;
  }

  datatype System = System(m: Mirror, infos: map<Handle, QueueInfo>, utils: map<Pid, int>, tick: int)

  datatype Input =
    | Take(event: Event, now: int)
    | TakeHint(hint: Slo.Hint, now: int)
    | Round(order: seq<Handle>, now: int)

  ghost function AfterHint(s: System, hint: Slo.Hint, now: int): System {
    s.(infos := Hinted(s.infos, hint, now),
       utils := if hint.UtilizationHint? && hint.pid != 0
                then s.utils[hint.pid := Clamp(hint.utilization, UTILIZATION_MIN, UTILIZATION_MAX)] else s.utils,
       tick := if hint.TimesliceHint? && TIMESLICE_MIN <= hint.timeslice <= TIMESLICE_MAX then hint.timeslice else s.tick)
  }

  ghost function AfterRound(s: System, order: seq<Handle>, now: int): System
    requires Enumerates(order, s.m.xqs.Keys)
  {
    var charged := Prepared(s.infos, s.m.xqs, s.utils, order, now);
    s.(m := Carried(s.m, order, Verdicts(charged, s.m.xqs, now, s.tick, order)),
       infos := Settled(charged, s.m.xqs, now, s.tick, order, order))
  }

  /** The system after some inputs; nothing if the scheduler stopped on the way, or if a round was
      given an order in which its table cannot be walked. */
  ghost function SystemAfter(inputs: seq<Input>): Option<System> {
    if inputs == [] then Some(System(Empty(), map[], map[], TIMESLICE_DEFAULT)) else
      var before := SystemAfter(inputs[..|inputs| - 1]);
      if before.None? then None else
        var s := before.value;
        match inputs[|inputs| - 1]
        case Take(e, now) => if Accepts(s.m, e) then Some(s.(m := Heard(s.m, e, now))) else None
        case TakeHint(hint, now) => Some(AfterHint(s, hint, now))
        case Round(order, now) =>
          if Enumerates(order, s.m.xqs.Keys) then Some(AfterRound(s, order, now)) else None
  }

  /** A queue that the policy takes to be running is not suspended. */
  ghost predicate RunningIsNotParked(s: System) {
    forall h :: h in s.m.xqs && h in s.infos && s.infos[h].running ==> !s.m.xqs[h].suspended
  }

  ghost predicate SystemOk(s: System) {
    MirrorOk(s.m) && RunningIsNotParked(s) && PrioritiesOk(s.infos)
  }

  lemma EventKeepsSystem(s: System, e: Event, now: int)
    requires SystemOk(s) && Accepts(s.m, e)
    ensures SystemOk(s.(m := Heard(s.m, e, now)))
  {
    HeardKeepsMirror(s.m, e, now);
    hide MirrorOk;
  }

  lemma HintKeepsSystem(s: System, hint: Slo.Hint, now: int)
    requires SystemOk(s)
    ensures SystemOk(AfterHint(s, hint, now))
  {
    hide MirrorOk;
  }

  /** What one round does to a queue. */
  lemma RoundOnQueue(s: System, order: seq<Handle>, now: int, h: Handle)
    requires Enumerates(order, s.m.xqs.Keys) && MirrorOk(s.m) && h in s.m.xqs
    ensures forall g :: g in order ==> g in s.m.xqs
    ensures var charged, s' := Prepared(s.infos, s.m.xqs, s.utils, order, now), AfterRound(s, order, now);
            var st, wins := s.m.xqs[h], Wins(charged, s.m.xqs, now, s.tick, order, h);
            && h in s'.m.xqs && h in s'.infos && h in charged
            && s'.infos[h] == Settle(charged[h], st.ready, wins, now)
            && s'.m.xqs[h] == st.(suspended := FlagAfter(st.suspended, VerdictOn(charged[h], st, wins)))
            && charged[h].running == InfoOf(s.infos, h, now).running
  {
    hide MirrorOk, Wins, Settle, VerdictOn, Utilization;
    var charged := Prepared(s.infos, s.m.xqs, s.utils, order, now);
    CarriedFlags(s.m, order, Verdicts(charged, s.m.xqs, now, s.tick, order));
  }

  lemma RoundKeepsMirror(s: System, order: seq<Handle>, now: int)
    requires Enumerates(order, s.m.xqs.Keys) && MirrorOk(s.m)
    ensures forall g :: g in order ==> g in s.m.xqs
    ensures MirrorOk(AfterRound(s, order, now).m) && AfterRound(s, order, now).m.xqs.Keys == s.m.xqs.Keys
    ensures PrioritiesOk(s.infos) ==> PrioritiesOk(AfterRound(s, order, now).infos)
  {
    hide MirrorOk, Wins, Prepared;
    ChargedIs(s.infos, s.m.xqs, s.utils, order, now);
    CarriedFlags(s.m, order, Verdicts(Prepared(s.infos, s.m.xqs, s.utils, order, now), s.m.xqs, now, s.tick, order));
  }

  /** A round suspends no queue that is not ready, and resumes none. */
  lemma IdleQueuesAreLeft(s: System, order: seq<Handle>, now: int, h: Handle)
    requires Enumerates(order, s.m.xqs.Keys) && MirrorOk(s.m) && h in s.m.xqs && !s.m.xqs[h].ready
    ensures h in AfterRound(s, order, now).m.xqs && AfterRound(s, order, now).m.xqs[h] == s.m.xqs[h]
  {
    hide MirrorOk, AfterRound, Enumerates, Wins, Prepared;
    RoundOnQueue(s, order, now, h);
  }

  lemma RoundKeepsSystem(s: System, order: seq<Handle>, now: int)
    requires Enumerates(order, s.m.xqs.Keys) && SystemOk(s)
    ensures SystemOk(AfterRound(s, order, now))
  {
    hide MirrorOk, Enumerates, AfterRound, Prepared, Wins, PrioritiesOk;
    var s' := AfterRound(s, order, now);
    RoundKeepsMirror(s, order, now);
    forall h | h in s'.m.xqs && h in s'.infos && s'.infos[h].running ensures !s'.m.xqs[h].suspended {
      RoundOnQueue(s, order, now, h);
    }
  }

  lemma {:induction false} RunKeepsSystem(inputs: seq<Input>)
    requires SystemAfter(inputs).Some?
    ensures SystemOk(SystemAfter(inputs).value)
  {
    if inputs == [] {
      assert MirrorOk(Empty()) by { RunKeepsMirror([]); }
    } else {
      RunKeepsSystem(inputs[..|inputs| - 1]);
      hide SystemOk, Enumerates, AfterRound, Heard, AfterHint;
      var s := SystemAfter(inputs[..|inputs| - 1]).value;
      match inputs[|inputs| - 1] {
        case Take(e, now) => EventKeepsSystem(s, e, now);
        case TakeHint(hint, now) => HintKeepsSystem(s, hint, now);
        case Round(order, now) => RoundKeepsSystem(s, order, now);
      }
    }
  }

  /** After a round a ready queue is unsuspended exactly when it was picked. */
  lemma RoundOnReady(s: System, order: seq<Handle>, now: int, d: Device, k: Handle)
    requires Enumerates(order, s.m.xqs.Keys) && SystemOk(s)
    requires ReadyOn(AfterRound(s, order, now).m.xqs, k, d) || ReadyOn(s.m.xqs, k, d)
    ensures forall g :: g in order ==> g in s.m.xqs
    ensures var s', charged := AfterRound(s, order, now), Prepared(s.infos, s.m.xqs, s.utils, order, now);
            && ReadyOn(s.m.xqs, k, d) && ReadyOn(s'.m.xqs, k, d)
            && (s'.m.xqs[k].suspended <==> Best(charged, s.m.xqs, now, s.tick, order, d) != k)
  {
    hide MirrorOk, Enumerates, AfterRound, Prepared, Best, PrioritiesOk;
    RoundKeepsMirror(s, order, now);
    RoundOnQueue(s, order, now, k);
  }

  /** One running queue per device: whatever happened before, a round leaves every device that has
      a ready queue with exactly one ready queue that is not suspended, the one that deserves it
      unless queue zero does and is passed over. */
  lemma OneReadyQueuePerDevice(inputs: seq<Input>, order: seq<Handle>, now: int, d: Device, g: Handle)
    requires SystemAfter(inputs + [Round(order, now)]).Some?
    requires ReadyOn(SystemAfter(inputs + [Round(order, now)]).value.m.xqs, g, d)
    ensures SystemAfter(inputs).Some? && Enumerates(order, SystemAfter(inputs).value.m.xqs.Keys)
    ensures forall h :: h in order ==> h in SystemAfter(inputs).value.m.xqs
    ensures var s, s' := SystemAfter(inputs).value, SystemAfter(inputs + [Round(order, now)]).value;
            var charged := Prepared(s.infos, s.m.xqs, s.utils, order, now);
            exists h :: && ReadyOn(s'.m.xqs, h, d) && !s'.m.xqs[h].suspended
                        && (Deserves(charged, s.m.xqs, now, s.tick, d, h)
                            || ZeroIsPassedOver(charged, s.m.xqs, now, s.tick, order, d))
                        && forall k :: ReadyOn(s'.m.xqs, k, d) && k != h ==> s'.m.xqs[k].suspended
  {
    var all := inputs + [Round(order, now)];
    assert all[..|all| - 1] == inputs;
    RunKeepsSystem(inputs);
    hide SystemOk, Enumerates, AfterRound, Prepared, Best, Deserves, ReadyOn, Covers, ZeroIsPassedOver, Winner;
    var s, s' := SystemAfter(inputs).value, SystemAfter(all).value;
    var charged := Prepared(s.infos, s.m.xqs, s.utils, order, now);
    RoundOnReady(s, order, now, d, g);
    BestDeserves(charged, s.m.xqs, now, s.tick, order, d, g);
    var h := Best(charged, s.m.xqs, now, s.tick, order, d);
    RoundOnReady(s, order, now, d, h);
    forall k | ReadyOn(s'.m.xqs, k, d) ensures k in s'.m.xqs && (s'.m.xqs[k].suspended <==> k != h) {
      RoundOnReady(s, order, now, d, k);
      InTable(s'.m.xqs, k, d);
    }
  }
}
