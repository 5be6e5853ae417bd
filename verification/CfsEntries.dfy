/** How a queue gets its entry in the table of the completely fair policy, and what that means
    when it first competes for its device. */
module CfsEntries {
  import opened Options
  import opened Mirror
  import opened Policies
  import opened Walks
  import opened Cfs
  import opened CfsTheorems

  /** `g` is another ready queue of the device, and the policy knows it. */
  predicate Competitor(infos: map<Handle, CfsNode>, xqs: map<Handle, XQueueStatus>, h: Handle, d: Device, g: Handle) {
    g != h && ReadyOn(xqs, g, d) && g in infos
  }

  /** `h` is level with the least of its competitors. */
  ghost predicate Level(infos: map<Handle, CfsNode>, xqs: map<Handle, XQueueStatus>, h: Handle, d: Device, runtime: real) {
    && (exists g :: Competitor(infos, xqs, h, d, g) && infos[g].vruntime == runtime)
    && (forall g :: Competitor(infos, xqs, h, d, g) ==> runtime <= infos[g].vruntime)
  }

  /** A ready queue competes level with its device exactly if the policy did not know it, or if its
      entry happens to be level already. */
  lemma CompetesLevelIff(infos: map<Handle, CfsNode>, xqs: map<Handle, XQueueStatus>, order: seq<Handle>, now: int, h: Handle, d: Device)
    requires Enumerates(order, xqs.Keys) && ReadyOn(xqs, h, d)
    requires exists g :: Competitor(infos, xqs, h, d, g)
    ensures var charged := Charged(infos, order, now);
            Level(charged, xqs, h, d, Prepared(infos, xqs, order, now)[h].vruntime)
            <==> h !in infos || Level(charged, xqs, h, d, charged[h].vruntime)
  {
    var charged, r := Charged(infos, order, now), Prepared(infos, xqs, order, now);
    if h !in infos {
      FloorIsLeast(charged, xqs, order, d);
      var f := Floor(charged, xqs, order, d);
      assert r[h].vruntime == f.value;
      var g :| g in order && ReadyOn(xqs, g, d) && g in charged && charged[g].vruntime == f.value;
      assert Competitor(charged, xqs, h, d, g);
    } else {
      hide Floor;
      assert r[h] == charged[h];
    }
  }

  // ----- over runs -----

  /** The policy met the queue in input `k`: a hint named it, or a round found it in the scheduler's table. */
  ghost predicate Meets(inputs: seq<Input>, k: nat, h: Handle)
    requires k < |inputs|
  {
    match inputs[k]
    case Take(_, _) => false
    case PriorityHint(g, _) => g == h
    case Round(_, _) => SystemAfter(inputs[..k]).Some? && h in SystemAfter(inputs[..k]).value.m.xqs
  }

  ghost predicate MetBefore(inputs: seq<Input>, h: Handle) {
    exists k: nat :: k < |inputs| && Meets(inputs, k, h)
  }

  /** No round found the queue ready. */
  ghost predicate NeverReady(inputs: seq<Input>, h: Handle) {
    forall k: nat :: k < |inputs| && inputs[k].Round? && SystemAfter(inputs[..k]).Some? ==>
      var xqs := SystemAfter(inputs[..k]).value.m.xqs; h in xqs ==> !xqs[h].ready
  }

  lemma PrefixMet(inputs: seq<Input>, h: Handle)
    requires inputs != []
    ensures var rest := inputs[..|inputs| - 1];
            && (MetBefore(inputs, h) <==> MetBefore(rest, h) || Meets(inputs, |inputs| - 1, h))
            && (NeverReady(inputs, h) ==> NeverReady(rest, h))
  {
    hide SystemAfter;
    var rest := inputs[..|inputs| - 1];
    forall k: nat | k < |rest| ensures rest[..k] == inputs[..k] && Meets(rest, k, h) == Meets(inputs, k, h) {
      assert rest[..k] == inputs[..k];
    }
  }

  /** A round on a queue that is not ready leaves it an entry, at zero if it had none. */
  lemma IdleRound(s: System, order: seq<Handle>, now: int, h: Handle)
    requires Enumerates(order, s.m.xqs.Keys) && MirrorOk(s.m) && !NodeOf(s.infos, h).running
    requires h in s.m.xqs ==> !s.m.xqs[h].ready
    ensures var after := AfterRound(s, order, now).infos;
            && (h in after <==> h in s.infos || h in s.m.xqs)
            && NodeOf(after, h).vruntime == NodeOf(s.infos, h).vruntime && !NodeOf(after, h).running
  {
    hide MirrorOk, Floor, Pick;
    if h in s.m.xqs { RoundOnQueue(s, order, now, h); }
  }

  /** Until it is first found ready, a queue has an entry exactly if the policy met it, and then an
      entry at zero that nothing has been charged to. */
  lemma {:induction false} EntryBeforeFirstReady(inputs: seq<Input>, h: Handle)
    requires SystemAfter(inputs).Some? && NeverReady(inputs, h)
    ensures var infos := SystemAfter(inputs).value.infos;
            && (h in infos <==> MetBefore(inputs, h))
            && NodeOf(infos, h).vruntime == 0.0 && !NodeOf(infos, h).running
  {
    hide AfterRound, MirrorOk, Enumerates, Heard, NeverReady, MetBefore, Meets;
    if inputs == [] {
      NothingMet(h);
    } else {
      var rest, last := inputs[..|inputs| - 1], |inputs| - 1;
      PrefixMet(inputs, h);
      EntryBeforeFirstReady(rest, h);
      RunKeepsRunning(rest);
      LastMeets(inputs, h);
      match inputs[last] {
        case Take(e, now) =>
        case PriorityHint(g, p) =>
        case Round(order, now) => IdleRound(SystemAfter(rest).value, order, now, h);
      }
    }
  }

  lemma NothingMet(h: Handle)
    ensures !MetBefore([], h)
  {
  }

  lemma LastMeets(inputs: seq<Input>, h: Handle)
    requires inputs != [] && SystemAfter(inputs[..|inputs| - 1]).Some?
    ensures var last, xqs := inputs[|inputs| - 1], SystemAfter(inputs[..|inputs| - 1]).value.m.xqs;
            && (Meets(inputs, |inputs| - 1, h)
                <==> (last.PriorityHint? && last.handle == h) || (last.Round? && h in xqs))
            && (NeverReady(inputs, h) && last.Round? && h in xqs ==> !xqs[h].ready)
  {
    hide SystemAfter;
  }

  /** The first time a round finds a queue ready among competitors, it starts level with the least
      of them exactly if the policy had not met it before, or if that least is zero. */
  lemma FirstCompetition(inputs: seq<Input>, order: seq<Handle>, now: int, h: Handle, d: Device)
    requires SystemAfter(inputs).Some? && Enumerates(order, SystemAfter(inputs).value.m.xqs.Keys)
    requires NeverReady(inputs, h) && ReadyOn(SystemAfter(inputs).value.m.xqs, h, d)
    requires var s := SystemAfter(inputs).value; exists g :: Competitor(s.infos, s.m.xqs, h, d, g)
    ensures var s := SystemAfter(inputs).value;
            var charged := Charged(s.infos, order, now);
            Level(charged, s.m.xqs, h, d, Prepared(s.infos, s.m.xqs, order, now)[h].vruntime)
            <==> !MetBefore(inputs, h) || Level(charged, s.m.xqs, h, d, 0.0)
  {
    EntryBeforeFirstReady(inputs, h);
    hide SystemAfter, NeverReady, MetBefore, Level, Prepared;
    var s := SystemAfter(inputs).value;
    CompetesLevelIff(s.infos, s.m.xqs, order, now, h, d);
  }

  /** Such a queue is preferred until it has caught up: in any round of any run, a ready queue with
      less virtual runtime than every other ready queue of its device is the one that is not suspended. */
  lemma LowestIsPreferred(inputs: seq<Input>, order: seq<Handle>, now: int, h: Handle, d: Device)
    requires SystemAfter(inputs).Some? && Enumerates(order, SystemAfter(inputs).value.m.xqs.Keys)
    requires ReadyOn(SystemAfter(inputs).value.m.xqs, h, d)
    requires var s := SystemAfter(inputs).value;
             var r := Prepared(s.infos, s.m.xqs, order, now);
             forall g :: ReadyOn(s.m.xqs, g, d) && g != h ==> r[h].vruntime < r[g].vruntime
    ensures var xqs := AfterRound(SystemAfter(inputs).value, order, now).m.xqs;
            forall g :: ReadyOn(xqs, g, d) ==> (xqs[g].suspended <==> g != h)
  {
    var s := SystemAfter(inputs).value;
    var r := Prepared(s.infos, s.m.xqs, order, now);
    RunKeepsRunning(inputs);
    PickIsLeast(r, s.m.xqs, order, d);
    assert Pick(r, s.m.xqs, order, d) == Some(h);
    hide MirrorOk, RunningIsNotParked, Enumerates, AfterRound, Prepared, Pick, SystemAfter;
    forall g | ReadyOn(AfterRound(s, order, now).m.xqs, g, d)
      ensures AfterRound(s, order, now).m.xqs[g].suspended <==> g != h
    {
      RoundOnReady(s, order, now, d, g);
    }
  }

  // ----- the two ways of being met early -----

  const KNOWN := [Take(XQueueCreate(1, 1, 0, 0, 0, 0), 0), Take(XQueueReady(1, 1, 0), 0)]

  /** Queue 2 becomes known while it is idle, a round passes, and it gets ready. */
  const IDLE_ROUND := KNOWN + [Take(XQueueCreate(2, 2, 0, 0, 0, 0), 0), Round([1, 2], 0), Take(XQueueReady(2, 2, 0), 0)]

  /** Queue 2 gets a hint before it becomes known and ready. */
  const EARLY_HINT := KNOWN + [Round([1], 0), PriorityHint(2, 0), Take(XQueueReady(2, 2, 0), 0)]

  /** Queue 1 alone is ready, and the policy has met nobody. */
  ghost predicate Fresh(s: System, order: seq<Handle>) {
    && Enumerates(order, s.m.xqs.Keys) && MirrorOk(s.m) && s.infos == map[] && 1 in s.m.xqs
    && forall h :: h in s.m.xqs ==> (s.m.xqs[h].ready <==> h == 1) && s.m.xqs[h].device == 0
  }

  lemma FirstPrepared(s: System, order: seq<Handle>)
    requires Fresh(s, order)
    ensures var prepared := Prepared(s.infos, s.m.xqs, order, 0);
            && prepared == map[1 := CfsNode(BASE, 0.0, 0, false, 0)]
            && Pick(prepared, s.m.xqs, order, 0) == Some(1)
  {
    var prepared := Prepared(s.infos, s.m.xqs, order, 0);
    FloorIsLeast(Charged(s.infos, order, 0), s.m.xqs, order, 0);
    PickIsLeast(prepared, s.m.xqs, order, 0);
    assert ReadyOn(s.m.xqs, 1, 0);
    hide MirrorOk, Pick, Floor;
  }

  /** A first round lets queue 1 run and charges nothing. */
  lemma FirstRound(s: System, order: seq<Handle>, h: Handle)
    requires Fresh(s, order) && h in s.m.xqs
    ensures var after := AfterRound(s, order, 0);
            && after.m.xqs.Keys == s.m.xqs.Keys && MirrorOk(after.m) && h in after.infos
            && after.infos[h] == CfsNode(BASE, 0.0, 0, h == 1, 0)
            && after.m.xqs[h].ready == s.m.xqs[h].ready && after.m.xqs[h].device == 0
  {
    RoundKeepsMirror(s, order, 0);
    FirstPrepared(s, order);
    RoundOnQueue(s, order, 0, h);
    hide MirrorOk, Enumerates, Pick, Prepared, AfterRound;
  }

  /** Queue 1 runs since time 0, and queue 2 has an entry too; `ready` says whether queue 2 is known and ready. */
  ghost predicate OneRuns(s: System, ready: bool) {
    && 1 in s.infos && 2 in s.infos && ReadyOn(s.m.xqs, 1, 0)
    && s.infos[1] == CfsNode(BASE, 0.0, 0, true, 0) && s.infos[2].vruntime == 0.0 && !s.infos[2].running
    && if ready then s.m.xqs.Keys == {1, 2} && ReadyOn(s.m.xqs, 2, 0)
       else s.m.xqs.Keys <= {1, 2} && (2 in s.m.xqs ==> s.m.xqs[2].device == 0)
  }

  lemma SecondGetsReady(inputs: seq<Input>)
    requires SystemAfter(inputs).Some? && OneRuns(SystemAfter(inputs).value, false)
    ensures SystemAfter(inputs + [Take(XQueueReady(2, 2, 0), 0)]).Some?
    ensures OneRuns(SystemAfter(inputs + [Take(XQueueReady(2, 2, 0), 0)]).value, true)
  {
    TookEvent(inputs, XQueueReady(2, 2, 0));
    hide SystemAfter;
  }

  /** When queue 1 has run for 1000 units, queue 2 competes at zero. */
  lemma SecondRound(infos: map<Handle, CfsNode>, xqs: map<Handle, XQueueStatus>)
    requires OneRuns(System(Mirror(xqs, map[]), infos), true)
    ensures Enumerates([1, 2], xqs.Keys) && Competitor(infos, xqs, 2, 0, 1)
    ensures !Level(Charged(infos, [1, 2], 1000), xqs, 2, 0, Prepared(infos, xqs, [1, 2], 1000)[2].vruntime)
  {
    var charged := Charged(infos, [1, 2], 1000);
    assert charged[1].vruntime == 1000.0 && charged[2].vruntime == 0.0;
    assert Prepared(infos, xqs, [1, 2], 1000)[2] == charged[2];
    assert Competitor(charged, xqs, 2, 0, 1);
  }

  ghost predicate StartsBehind(inputs: seq<Input>) {
    && SystemAfter(inputs).Some? && NeverReady(inputs, 2)
    && var s := SystemAfter(inputs).value;
       && Enumerates([1, 2], s.m.xqs.Keys) && ReadyOn(s.m.xqs, 2, 0) && Competitor(s.infos, s.m.xqs, 2, 0, 1)
       && !Level(Charged(s.infos, [1, 2], 1000), s.m.xqs, 2, 0, Prepared(s.infos, s.m.xqs, [1, 2], 1000)[2].vruntime)
  }

  lemma TookEvent(inputs: seq<Input>, e: Event)
    requires SystemAfter(inputs).Some? && Accepts(SystemAfter(inputs).value.m, e)
    ensures var s := SystemAfter(inputs).value;
            SystemAfter(inputs + [Take(e, 0)]) == Some(s.(m := Heard(s.m, e, 0)))
  {
    hide Heard;
    assert (inputs + [Take(e, 0)])[..|inputs|] == inputs;
  }

  lemma TookFirstRound(inputs: seq<Input>, order: seq<Handle>)
    requires SystemAfter(inputs).Some? && Enumerates(order, SystemAfter(inputs).value.m.xqs.Keys)
    ensures SystemAfter(inputs + [Round(order, 0)]) == Some(AfterRound(SystemAfter(inputs).value, order, 0))
  {
    hide AfterRound, Enumerates;
    assert (inputs + [Round(order, 0)])[..|inputs|] == inputs;
  }

  lemma TookHint(inputs: seq<Input>, h: Handle)
    requires SystemAfter(inputs).Some?
    ensures var s := SystemAfter(inputs).value;
            SystemAfter(inputs + [PriorityHint(h, 0)])
            == Some(s.(infos := s.infos[h := NodeOf(s.infos, h).(priority := 0, weight := WeightFor(0))]))
  {
    hide WeightFor;
    assert (inputs + [PriorityHint(h, 0)])[..|inputs|] == inputs;
  }

  const READY_QUEUE := XQueueStatus(0, 0, 1, 0, 0, true, false, 0)
  const IDLE_QUEUE := XQueueStatus(0, 0, 2, 0, 0, false, false, 0)

  lemma KnownIs()
    ensures SystemAfter(KNOWN).Some?
    ensures SystemAfter(KNOWN).value.m.xqs == map[1 := READY_QUEUE] && SystemAfter(KNOWN).value.infos == map[]
  {
    var create, ready := XQueueCreate(1, 1, 0, 0, 0, 0), XQueueReady(1, 1, 0);
    assert KNOWN == [] + [Take(create, 0)] + [Take(ready, 0)];
    assert SystemAfter([]) == Some(System(Empty(), map[]));
    TookEvent([], create);
    TookEvent([] + [Take(create, 0)], ready);
    hide SystemAfter;
  }

  lemma TwoKnown()
    ensures var a := SystemAfter(IDLE_ROUND[..3]);
            a.Some? && a.value.m.xqs == map[1 := READY_QUEUE, 2 := IDLE_QUEUE] && a.value.infos == map[]
  {
    KnownIs();
    var create := XQueueCreate(2, 2, 0, 0, 0, 0);
    assert IDLE_ROUND[..3] == KNOWN + [Take(create, 0)];
    TookEvent(KNOWN, create);
    hide SystemAfter;
  }

  lemma IdleRoundIsNotReady()
    ensures NeverReady(IDLE_ROUND, 2)
  {
    TwoKnown();
    hide SystemAfter;
  }

  /** Being met by a round while idle is one way to start behind. */
  lemma IdleRoundStartsBehind()
    ensures StartsBehind(IDLE_ROUND)
  {
    TwoKnown();
    IdleRoundIsNotReady();
    var a := IDLE_ROUND[..3];
    var b := a + [Round([1, 2], 0)];
    assert IDLE_ROUND == b + [Take(XQueueReady(2, 2, 0), 0)];
    var s := SystemAfter(a).value;
    hide AfterRound, Level, Prepared, Charged, MirrorOk, SystemAfter, Heard, NeverReady;
    RunKeepsRunning(a);
    FirstRound(s, [1, 2], 1);
    FirstRound(s, [1, 2], 2);
    TookFirstRound(a, [1, 2]);
    hide IDLE_ROUND;
    SecondGetsReady(b);
    var t := SystemAfter(b + [Take(XQueueReady(2, 2, 0), 0)]).value;
    SecondRound(t.infos, t.m.xqs);
  }

  lemma EarlyHintIsNotReady()
    ensures NeverReady(EARLY_HINT, 2)
  {
    KnownIs();
    assert EARLY_HINT[..2] == KNOWN;
    hide SystemAfter;
  }

  /** A hint that arrives before the queue does is the other. */
  lemma EarlyHintStartsBehind()
    ensures StartsBehind(EARLY_HINT)
  {
    KnownIs();
    EarlyHintIsNotReady();
    var a := KNOWN + [Round([1], 0)];
    var b := a + [PriorityHint(2, 0)];
    assert EARLY_HINT == b + [Take(XQueueReady(2, 2, 0), 0)];
    var s := SystemAfter(KNOWN).value;
    hide AfterRound, Level, Prepared, Charged, MirrorOk, SystemAfter, WeightFor, NeverReady, KNOWN;
    RunKeepsRunning(KNOWN);
    FirstRound(s, [1], 1);
    TookFirstRound(KNOWN, [1]);
    TookHint(a, 2);
    hide EARLY_HINT;
    SecondGetsReady(b);
    var t := SystemAfter(b + [Take(XQueueReady(2, 2, 0), 0)]).value;
    SecondRound(t.infos, t.m.xqs);
  }
}
