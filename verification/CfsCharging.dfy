/** What running costs under the completely fair policy, and that whoever is ready gets a turn. */
module CfsCharging {
  import opened Options
  import opened Sequences
  import opened Mirror
  import opened Policies
  import opened Walks
  import opened Cfs
  import opened CfsTheorems
  import opened CfsFairness

  /** The scale of the weights: 1024 at priority 0. */
  lemma WeightsAre()
    ensures WeightFor(0) == 1024.0 && WeightFor(1) == 1228.8
  {
    WeightStep(0);
  }

  /** One round: for a queue found running, the gain of virtual runtime times the weight is the time
      since it was let run times 1024; nobody else gains. */
  lemma RoundChargesByWeight(s: System, order: seq<Handle>, now: int, h: Handle)
    requires Enumerates(order, s.m.xqs.Keys) && MirrorOk(s.m) && h in s.infos
    ensures h in AfterRound(s, order, now).infos
    ensures var before, after := s.infos[h], AfterRound(s, order, now).infos[h];
            && after.weight == before.weight && after.priority == before.priority
            && (if h in s.m.xqs && before.running
                then (after.vruntime - before.vruntime) * before.weight == (now - before.lastResume) as real * 1024.0
                else after.vruntime == before.vruntime)
  {
    hide *;
    ChargeIs(s.infos[h], now);
    RoundOnEntry(s, order, now, h);
  }

  /** What a round does to an entry: it is charged if the queue is known and was running, and then
      runs exactly if the queue is picked. */
  lemma RoundOnEntry(s: System, order: seq<Handle>, now: int, h: Handle)
    requires Enumerates(order, s.m.xqs.Keys) && MirrorOk(s.m) && h in s.infos
    ensures var node := s.infos[h];
            var charged := if node.running then Charge(node, now) else node;
            && h in AfterRound(s, order, now).infos
            && (h !in s.m.xqs ==> AfterRound(s, order, now).infos[h] == node)
            && (h in s.m.xqs ==>
                  AfterRound(s, order, now).infos[h]
                  in {charged.(running := true, lastResume := now), charged.(running := false)})
  {
    hide Floor, Pick, MirrorOk, Charge, Carried, Verdicts;
    var charged := Charged(s.infos, order, now);
    var prepared := Prepared(s.infos, s.m.xqs, order, now);
    assert prepared[h] == charged[h];
    assert h in order <==> h in s.m.xqs;
  }

  lemma ChargeIs(node: CfsNode, now: int)
    ensures Charge(node, now).weight == node.weight && Charge(node, now).priority == node.priority
    ensures (Charge(node, now).vruntime - node.vruntime) * node.weight == (now - node.lastResume) as real * 1024.0
  {
    var t, w := (now - node.lastResume) as real, node.weight;
    assert t * (1024.0 / w) * w == t * 1024.0;
  }

  // ----- over runs -----

  /** When a round last found the queue in the scheduler's table. */
  ghost function LastMet(inputs: seq<Input>, h: Handle): int {
    if inputs == [] then 0 else
      var rest, last := inputs[..|inputs| - 1], inputs[|inputs| - 1];
      if last.Round? && SystemAfter(rest).Some? && h in SystemAfter(rest).value.m.xqs then last.now else LastMet(rest, h)
  }

  /** The time a queue has run since input `from`, each stretch over the weight it had at its end:
      a stretch ends with a round that finds the queue running, and began with the one before. */
  ghost function Earned(inputs: seq<Input>, from: nat, h: Handle): real {
    if |inputs| <= from then 0.0 else
      var rest, last := inputs[..|inputs| - 1], inputs[|inputs| - 1];
      Earned(rest, from, h)
      + if last.Round? && SystemAfter(rest).Some? && h in SystemAfter(rest).value.m.xqs
           && NodeOf(SystemAfter(rest).value.infos, h).running
        then (last.now - LastMet(rest, h)) as real * (1024.0 / NodeOf(SystemAfter(rest).value.infos, h).weight) else 0.0
  }

  /** A queue that runs does so since a round last met it. */
  lemma {:induction false} RunsSinceLastMet(inputs: seq<Input>, h: Handle)
    requires SystemAfter(inputs).Some? && NodeOf(SystemAfter(inputs).value.infos, h).running
    ensures SystemAfter(inputs).value.infos[h].lastResume == LastMet(inputs, h)
  {
    hide AfterRound, MirrorOk, Enumerates, Heard, WeightFor;
    if inputs != [] {
      var rest := inputs[..|inputs| - 1];
      RunKeepsRunning(rest);
      var s := SystemAfter(rest).value;
      match inputs[|inputs| - 1] {
        case Take(e, now) => RunsSinceLastMet(rest, h);
        case PriorityHint(g, p) => RunsSinceLastMet(rest, h);
        case Round(order, now) =>
          RoundSetsResume(s, order, now, h);
          if h !in s.m.xqs { RunsSinceLastMet(rest, h); }
      }
    }
  }

  lemma RoundSetsResume(s: System, order: seq<Handle>, now: int, h: Handle)
    requires Enumerates(order, s.m.xqs.Keys) && MirrorOk(s.m)
    ensures var after := NodeOf(AfterRound(s, order, now).infos, h);
            if h in s.m.xqs then after.running ==> after.lastResume == now else after == NodeOf(s.infos, h)
  {
    hide Floor, Pick, MirrorOk, Charge, Carried, Verdicts;
    assert h in order <==> h in s.m.xqs;
  }

  /** Conservation: whatever arrives in between, what a queue gains in virtual runtime is the time
      it has run over its weight, and nothing else. */
  lemma {:induction false} RuntimeIsEarned(inputs: seq<Input>, from: nat, h: Handle)
    requires from <= |inputs| && SystemAfter(inputs).Some? && SystemAfter(inputs[..from]).Some?
    requires h in SystemAfter(inputs[..from]).value.infos
    ensures h in SystemAfter(inputs).value.infos
    ensures SystemAfter(inputs).value.infos[h].vruntime == SystemAfter(inputs[..from]).value.infos[h].vruntime + Earned(inputs, from, h)
  {
    hide AfterRound, MirrorOk, Enumerates, Heard, WeightFor;
    if from == |inputs| {
      assert inputs[..from] == inputs;
    } else {
      var rest := inputs[..|inputs| - 1];
      assert rest[..from] == inputs[..from];
      RuntimeIsEarned(rest, from, h);
      RunKeepsRunning(rest);
      var s := SystemAfter(rest).value;
      if inputs[|inputs| - 1].Round? {
        var order, now := inputs[|inputs| - 1].order, inputs[|inputs| - 1].now;
        if s.infos[h].running { RunsSinceLastMet(rest, h); }
        GainInRound(s, order, now, h);
      }
    }
  }

  lemma GainInRound(s: System, order: seq<Handle>, now: int, h: Handle)
    requires Enumerates(order, s.m.xqs.Keys) && MirrorOk(s.m) && h in s.infos
    ensures h in AfterRound(s, order, now).infos
    ensures AfterRound(s, order, now).infos[h].vruntime
            == s.infos[h].vruntime + if h in s.m.xqs && s.infos[h].running
                                     then (now - s.infos[h].lastResume) as real * (1024.0 / s.infos[h].weight) else 0.0
  {
    hide *;
    RoundChargesByWeight(s, order, now, h);
    if s.infos[h].running {
      GainIs(AfterRound(s, order, now).infos[h].vruntime - s.infos[h].vruntime, s.infos[h].weight, (now - s.infos[h].lastResume) as real);
    }
  }

  lemma GainIs(gain: real, weight: Weight, time: real)
    ensures gain * weight == time * 1024.0 <==> gain == time * (1024.0 / weight)
  {
    assert time * (1024.0 / weight) * weight == time * 1024.0;
  }

  /** The priority that the last hint gave a queue; without one it is 0. */
  ghost function Hinted(inputs: seq<Input>, h: Handle): int {
    if inputs == [] then 0 else
      var last := inputs[|inputs| - 1];
      if last.PriorityHint? && last.handle == h then last.priority else Hinted(inputs[..|inputs| - 1], h)
  }

  lemma RoundKeepsWeight(s: System, order: seq<Handle>, now: int, h: Handle)
    requires Enumerates(order, s.m.xqs.Keys) && MirrorOk(s.m)
    ensures NodeOf(AfterRound(s, order, now).infos, h).weight == NodeOf(s.infos, h).weight
    ensures NodeOf(AfterRound(s, order, now).infos, h).priority == NodeOf(s.infos, h).priority
  {
    hide Floor, Pick, MirrorOk, Carried, Verdicts;
  }

  /** Whatever else arrives, a queue has the weight of the priority it was last given. */
  lemma {:induction false} WeightFollowsHints(inputs: seq<Input>, h: Handle)
    requires SystemAfter(inputs).Some?
    ensures var node := NodeOf(SystemAfter(inputs).value.infos, h);
            node.priority == Hinted(inputs, h) && node.weight == WeightFor(Hinted(inputs, h))
  {
    hide AfterRound, MirrorOk, Enumerates, Heard, WeightFor;
    if inputs == [] {
      WeightsAre();
    } else {
      var rest := inputs[..|inputs| - 1];
      WeightFollowsHints(rest, h);
      RunKeepsRunning(rest);
      if inputs[|inputs| - 1].Round? {
        RoundKeepsWeight(SystemAfter(rest).value, inputs[|inputs| - 1].order, inputs[|inputs| - 1].now, h);
      }
    }
  }
}
