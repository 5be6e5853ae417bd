/** What running costs under the SLO policy, and what its hints say. */
module SloCharging {
  import opened Options
  import opened Mirror
  import opened Policies
  import opened Walks
  import opened Slo
  import opened SloTheorems

  /** The share of a queue: its process's if a hint set one, else its own; at least one. */
  function ShareOf(s: System, h: Handle): int
    requires h in s.m.xqs
  {
    var util := if s.m.xqs[h].pid in s.utils then s.utils[s.m.xqs[h].pid] else if h in s.infos then s.infos[h].utilization else 100;
    if util < 1 then 1 else if util > 100 then 100 else util
  }

  predicate Runs(infos: map<Handle, QueueInfo>, h: Handle) {
    h in infos && infos[h].running
  }

  /** Virtual runtime counts from zero. */
  function Runtime(infos: map<Handle, QueueInfo>, h: Handle): real {
    if h in infos then infos[h].vruntime else 0.0
  }

  lemma ChargeIs(info: QueueInfo, util: int, now: int)
    ensures var after, share := Charge(info, util, now), if util > 1 then util else 1;
            && after.running == info.running && after.deadline == info.deadline
            && after.priority == info.priority && after.utilization == info.utilization
            && (if info.running && now > info.lastResume
                then (after.vruntime - info.vruntime) * share as real == (now - info.lastResume) as real * 100.0
                else after == info)
  {
    if info.running && now > info.lastResume {
      var t, share := (now - info.lastResume) as real, if util > 1 then util else 1;
      assert t * (100.0 / share as real) * share as real == t * 100.0;
    }
  }

  /** What a round does to an entry: it is charged, and then runs from now on exactly if the queue is chosen. */
  lemma RoundOnEntry(s: System, order: seq<Handle>, now: int, h: Handle)
    requires Enumerates(order, s.m.xqs.Keys) && MirrorOk(s.m)
    ensures h !in s.m.xqs ==>
              && (h in AfterRound(s, order, now).infos <==> h in s.infos)
              && (h in s.infos ==> AfterRound(s, order, now).infos[h] == s.infos[h])
    ensures h in s.m.xqs ==>
              var info := InfoOf(s.infos, h, now);
              var charged := Charge(info, Utilization(s.utils, s.m.xqs[h], info), now);
              && h in AfterRound(s, order, now).infos
              && AfterRound(s, order, now).infos[h] in {charged.(running := true, lastResume := now), charged.(running := false)}
  {
    hide Wins, MirrorOk, Charge, Carried, Verdicts, Utilization;
    assert h in order <==> h in s.m.xqs;
  }

  lemma ShareIs(s: System, h: Handle, now: int)
    requires h in s.m.xqs
    ensures var util := Utilization(s.utils, s.m.xqs[h], InfoOf(s.infos, h, now));
            ShareOf(s, h) == if util > 1 then util else 1
  {
  }

  /** One round: for a queue found running, the gain of virtual runtime times its share is the time
      since it was let run times 100; nobody else gains. */
  lemma RoundChargesByShare(s: System, order: seq<Handle>, now: int, h: Handle)
    requires Enumerates(order, s.m.xqs.Keys) && MirrorOk(s.m)
    ensures var after := AfterRound(s, order, now).infos;
            if h in s.m.xqs && Runs(s.infos, h) && now > s.infos[h].lastResume
            then (Runtime(after, h) - Runtime(s.infos, h)) * ShareOf(s, h) as real == (now - s.infos[h].lastResume) as real * 100.0
            else Runtime(after, h) == Runtime(s.infos, h)
    ensures var after := AfterRound(s, order, now).infos;
            h in s.infos ==>
              && h in after && after[h].deadline == s.infos[h].deadline
              && after[h].priority == s.infos[h].priority && after[h].utilization == s.infos[h].utilization
    ensures Runs(AfterRound(s, order, now).infos, h) && h in s.m.xqs ==> AfterRound(s, order, now).infos[h].lastResume == now
  {
    RoundOnEntry(s, order, now, h);
    if h in s.m.xqs {
      ShareIs(s, h, now);
      var info := InfoOf(s.infos, h, now);
      ChargeIs(info, Utilization(s.utils, s.m.xqs[h], info), now);
    }
    hide AfterRound, MirrorOk, Enumerates, Charge, Utilization, ShareOf;
  }

  // ----- over runs -----

  /** When a round last found the queue in the scheduler's table. */
  ghost function LastMet(inputs: seq<Input>, h: Handle): int {
    if inputs == [] then 0 else
      var rest, last := inputs[..|inputs| - 1], inputs[|inputs| - 1];
      if last.Round? && SystemAfter(rest).Some? && h in SystemAfter(rest).value.m.xqs then last.now else LastMet(rest, h)
  }

  /** The time a queue has run since input `from`, each stretch over the share it had at its end; a
      stretch over which the clock did not advance counts nothing. */
  ghost function Earned(inputs: seq<Input>, from: nat, h: Handle): real {
    if |inputs| <= from then 0.0 else
      var rest, last := inputs[..|inputs| - 1], inputs[|inputs| - 1];
      Earned(rest, from, h)
      + if last.Round? && SystemAfter(rest).Some? && h in SystemAfter(rest).value.m.xqs
           && Runs(SystemAfter(rest).value.infos, h) && last.now > LastMet(rest, h)
        then (last.now - LastMet(rest, h)) as real * (100.0 / ShareOf(SystemAfter(rest).value, h) as real) else 0.0
  }

  lemma HintKeepsRuntime(s: System, hint: Slo.Hint, now: int, h: Handle)
    ensures var after := AfterHint(s, hint, now).infos;
            && Runtime(after, h) == Runtime(s.infos, h) && Runs(after, h) == Runs(s.infos, h)
            && (Runs(s.infos, h) ==> after[h].lastResume == s.infos[h].lastResume)
  {
  }

  /** A queue that runs does so since a round last met it. */
  lemma {:induction false} RunsSinceLastMet(inputs: seq<Input>, h: Handle)
    requires SystemAfter(inputs).Some? && Runs(SystemAfter(inputs).value.infos, h)
    ensures SystemAfter(inputs).value.infos[h].lastResume == LastMet(inputs, h)
  {
    hide AfterRound, MirrorOk, Enumerates, Heard, AfterHint;
    if inputs != [] {
      var rest := inputs[..|inputs| - 1];
      RunKeepsSystem(rest);
      var s := SystemAfter(rest).value;
      match inputs[|inputs| - 1] {
        case Take(e, now) => RunsSinceLastMet(rest, h);
        case TakeHint(hint, now) =>
          HintKeepsRuntime(s, hint, now, h);
          RunsSinceLastMet(rest, h);
        case Round(order, now) =>
          RoundChargesByShare(s, order, now, h);
          RoundOnEntry(s, order, now, h);
          if h !in s.m.xqs { RunsSinceLastMet(rest, h); }
      }
    }
  }

  /** Conservation: whatever arrives in between, what a queue gains in virtual runtime is the time
      it has run over its share, and nothing else. */
  lemma {:induction false} RuntimeIsEarned(inputs: seq<Input>, from: nat, h: Handle)
    requires from <= |inputs| && SystemAfter(inputs).Some? && SystemAfter(inputs[..from]).Some?
    ensures Runtime(SystemAfter(inputs).value.infos, h) == Runtime(SystemAfter(inputs[..from]).value.infos, h) + Earned(inputs, from, h)
  {
    hide AfterRound, MirrorOk, Enumerates, Heard, AfterHint, Runtime, ShareOf;
    if from == |inputs| {
      assert inputs[..from] == inputs;
    } else {
      var rest := inputs[..|inputs| - 1];
      assert rest[..from] == inputs[..from];
      RuntimeIsEarned(rest, from, h);
      RunKeepsSystem(rest);
      var s := SystemAfter(rest).value;
      match inputs[|inputs| - 1] {
        case Take(e, now) =>
        case TakeHint(hint, now) => HintKeepsRuntime(s, hint, now, h);
        case Round(order, now) =>
          RoundChargesByShare(s, order, now, h);
          if h in s.m.xqs && Runs(s.infos, h) {
            RunsSinceLastMet(rest, h);
            GainIs(Runtime(AfterRound(s, order, now).infos, h) - Runtime(s.infos, h), s, h, (now - s.infos[h].lastResume) as real);
          }
      }
    }
  }

  lemma GainIs(gain: real, s: System, h: Handle, time: real)
    requires h in s.m.xqs
    ensures var share := ShareOf(s, h) as real;
            share > 0.0 && (gain * share == time * 100.0 ==> gain == time * (100.0 / share))
  {
    var share := ShareOf(s, h) as real;
    assert time * (100.0 / share) * share == time * 100.0;
  }

  /** What a hint changes, field by field. */
  lemma HintIs(s: System, hint: Slo.Hint, now: int, h: Handle)
    ensures var before, after := InfoOf(s.infos, h, now), InfoOf(AfterHint(s, hint, now).infos, h, now);
            && after.vruntime == before.vruntime && after.running == before.running && after.lastResume == before.lastResume
            && (hint.PriorityHint? && hint.handle == h
                ==> -255 <= after.priority <= 255 && (-255 <= hint.priority <= 255 ==> after.priority == hint.priority)
                    && (hint.priority < -255 ==> after.priority == -255) && (hint.priority > 255 ==> after.priority == 255))
            && (!(hint.PriorityHint? && hint.handle == h) ==> after.priority == before.priority)
            && after.deadline == (if hint.DeadlineHint? && hint.handle == h then hint.deadline else before.deadline)
            && (hint.UtilizationHint? && hint.handle == h && h != 0
                ==> 0 <= after.utilization <= 100 && (0 <= hint.utilization <= 100 ==> after.utilization == hint.utilization)
                    && (hint.utilization < 0 ==> after.utilization == 0) && (hint.utilization > 100 ==> after.utilization == 100))
            && (!(hint.UtilizationHint? && hint.handle == h && h != 0) ==> after.utilization == before.utilization)
  {
  }
}
