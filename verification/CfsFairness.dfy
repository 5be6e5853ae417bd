/** The fairness bound of the completely fair policy over any number of rounds. */
module CfsFairness {
  import opened Options
  import opened Mirror
  import opened Policies
  import opened Walks
  import opened Cfs
  import opened CfsTheorems

  /** Any two queues of `S` are at most `bound` apart. */
  ghost predicate Within(infos: map<Handle, CfsNode>, S: set<Handle>, bound: real) {
    forall a, b :: a in S && b in S && a in infos && b in infos ==> infos[a].vruntime - infos[b].vruntime <= bound
  }

  ghost predicate ReadySetIs(s: System, S: set<Handle>, d: Device) {
    forall h :: h in S <==> ReadyOn(s.m.xqs, h, d)
  }

  ghost predicate WeightsAtLeast(infos: map<Handle, CfsNode>, S: set<Handle>, w: Weight) {
    forall h :: h in S && h in infos ==> infos[h].weight >= w
  }

  /** Between rounds: only a least queue of `S` runs, since the last round, and no other. */
  ghost predicate OnlyLeastRuns(infos: map<Handle, CfsNode>, S: set<Handle>, last: int) {
    && (forall h :: h in S ==> h in infos)
    && (forall h, g :: h in S && g in S && infos[h].running ==>
          infos[h].lastResume == last && infos[h].vruntime <= infos[g].vruntime)
    && (forall h, g :: h in S && g in S && infos[h].running && infos[g].running ==> h == g)
  }

  lemma ChargeIsBounded(node: CfsNode, now: int, T: int, w: Weight)
    requires 0 <= now - node.lastResume <= T && node.weight >= w
    ensures node.vruntime <= Charge(node, now).vruntime <= node.vruntime + T as real * (BASE / w)
  {
    var delta, r, R := (now - node.lastResume) as real, BASE / node.weight, BASE / w;
    assert R * w == BASE && r * node.weight == BASE;
    assert R * (node.weight - w) >= 0.0;
    assert (R - r) * node.weight >= 0.0;
    assert 0.0 < r <= R;
    assert delta * r <= T as real * r <= T as real * R;
  }

  /** Any round establishes that only a least queue runs. */
  lemma RoundLetsLeastRun(s: System, order: seq<Handle>, now: int, S: set<Handle>, d: Device)
    requires Enumerates(order, s.m.xqs.Keys) && MirrorOk(s.m) && RunningIsNotParked(s) && ReadySetIs(s, S, d)
    ensures OnlyLeastRuns(AfterRound(s, order, now).infos, S, now)
  {
    var s', prepared := AfterRound(s, order, now), Prepared(s.infos, s.m.xqs, order, now);
    PickIsLeast(prepared, s.m.xqs, order, d);
    hide MirrorOk, Enumerates, AfterRound, Prepared, Pick, RunningIsNotParked;
    forall h | h in S
      ensures h in prepared && h in s'.infos && s'.infos[h].vruntime == prepared[h].vruntime
      ensures s'.infos[h].running <==> Pick(prepared, s.m.xqs, order, d) == Some(h)
      ensures s'.infos[h].running ==> s'.infos[h].lastResume == now
    {
      RoundOnQueue(s, order, now, h);
    }
  }

  /** A round charges a queue that has an entry and was running, and no other. */
  lemma RoundCharges(s: System, order: seq<Handle>, now: int, h: Handle)
    requires Enumerates(order, s.m.xqs.Keys) && MirrorOk(s.m) && h in s.m.xqs && h in s.infos
    ensures h in AfterRound(s, order, now).infos
    ensures AfterRound(s, order, now).infos[h].vruntime
            == if s.infos[h].running then Charge(s.infos[h], now).vruntime else s.infos[h].vruntime
  {
    hide Floor, Pick, MirrorOk, Charge;
    RoundOnQueue(s, order, now, h);
  }

  /** One round keeps the queues of `S` within any bound that a longest gap at least weight
      cannot exceed: the only queue that moves was a least one. */
  lemma RoundKeepsBound(s: System, order: seq<Handle>, now: int, S: set<Handle>, d: Device, last: int,
                        T: int, w: Weight, bound: real)
    requires Enumerates(order, s.m.xqs.Keys) && MirrorOk(s.m) && RunningIsNotParked(s) && ReadySetIs(s, S, d)
    requires OnlyLeastRuns(s.infos, S, last) && WeightsAtLeast(s.infos, S, w) && Within(s.infos, S, bound)
    requires 0 <= now - last <= T && T as real * (BASE / w) <= bound
    ensures Within(AfterRound(s, order, now).infos, S, bound)
  {
    hide AfterRound, MirrorOk, RunningIsNotParked, Enumerates;
    var s' := AfterRound(s, order, now);
    forall a, b | a in S && b in S && a in s'.infos && b in s'.infos
      ensures s'.infos[a].vruntime - s'.infos[b].vruntime <= bound
    {
      RoundCharges(s, order, now, a);
      RoundCharges(s, order, now, b);
      if s.infos[a].running { ChargeIsBounded(s.infos[a], now, T, w); }
      if s.infos[b].running { ChargeIsBounded(s.infos[b], now, T, w); }
    }
  }

  /** When the last round of a history was. */
  function LastRound(inputs: seq<Input>): int {
    if inputs == [] then 0 else
      match inputs[|inputs| - 1]
      case Round(_, now) => now
      case _ => LastRound(inputs[..|inputs| - 1])
  }

  /** From input `first` on, every round finds exactly the queues `S` ready on `d`, none of them
      lighter than `w`, and follows the round before it within `T`. */
  ghost predicate Steady(inputs: seq<Input>, first: nat, S: set<Handle>, d: Device, T: int, w: Weight) {
    forall k :: first <= k < |inputs| && inputs[k].Round? ==>
      && SystemAfter(inputs[..k]).Some?
      && ReadySetIs(SystemAfter(inputs[..k]).value, S, d)
      && WeightsAtLeast(SystemAfter(inputs[..k]).value.infos, S, w)
      && 0 <= inputs[k].now - LastRound(inputs[..k]) <= T
  }

  lemma SteadyPrefix(inputs: seq<Input>, first: nat, S: set<Handle>, d: Device, T: int, w: Weight)
    requires inputs != [] && Steady(inputs, first, S, d, T, w)
    ensures Steady(inputs[..|inputs| - 1], first, S, d, T, w)
  {
    hide SystemAfter, ReadySetIs, WeightsAtLeast, LastRound;
    var rest := inputs[..|inputs| - 1];
    forall k | first <= k < |rest| && rest[k].Round?
      ensures rest[..k] == inputs[..k] && rest[k] == inputs[k]
    {
    }
  }

  /** The fairness bound. For a fixed set of always-ready queues on one device, with rounds at most
      `T` apart and weights of at least `w`, the spread of the virtual runtimes never exceeds the
      larger of the spread after the first round and `T * 1024 / w`, over any number of rounds and
      whatever else arrives between them. */
  lemma {:induction false} FairnessBound(inputs: seq<Input>, first: nat, S: set<Handle>, d: Device, T: int, w: Weight, bound: real)
    requires 0 < first <= |inputs| && SystemAfter(inputs).Some? && inputs[first - 1].Round?
    requires SystemAfter(inputs[..first - 1]).Some? && ReadySetIs(SystemAfter(inputs[..first - 1]).value, S, d)
    requires Steady(inputs, first, S, d, T, w)
    requires SystemAfter(inputs[..first]).Some? && Within(SystemAfter(inputs[..first]).value.infos, S, bound)
    requires T as real * (BASE / w) <= bound
    ensures Within(SystemAfter(inputs).value.infos, S, bound)
    ensures OnlyLeastRuns(SystemAfter(inputs).value.infos, S, LastRound(inputs))
  {
    hide AfterRound, MirrorOk, RunningIsNotParked, Enumerates, Within, OnlyLeastRuns, ReadySetIs, WeightsAtLeast, Heard;
    var rest := inputs[..|inputs| - 1];
    RunKeepsRunning(rest);
    var s := SystemAfter(rest).value;
    if first == |inputs| {
      assert inputs[..first] == inputs && inputs[..first - 1] == rest;
      var r := inputs[|inputs| - 1];
      RoundLetsLeastRun(s, r.order, r.now, S, d);
    } else {
      assert rest[..first] == inputs[..first] && rest[..first - 1] == inputs[..first - 1];
      SteadyPrefix(inputs, first, S, d, T, w);
      FairnessBound(rest, first, S, d, T, w, bound);
      match inputs[|inputs| - 1] {
        case Take(e, now) =>
        case PriorityHint(h, p) => HintKeepsRuntimes(s.infos, h, p, S, LastRound(rest), bound);
        case Round(order, now) =>
          assert inputs[..|inputs| - 1] == rest;
          RoundKeepsBound(s, order, now, S, d, LastRound(rest), T, w, bound);
          RoundLetsLeastRun(s, order, now, S, d);
      }
    }
  }

  lemma HintKeepsRuntimes(infos: map<Handle, CfsNode>, h: Handle, p: int, S: set<Handle>, last: int, bound: real)
    requires Within(infos, S, bound) && OnlyLeastRuns(infos, S, last)
    ensures var after := infos[h := NodeOf(infos, h).(priority := p, weight := WeightFor(p))];
            Within(after, S, bound) && OnlyLeastRuns(after, S, last)
  {
  }
}
