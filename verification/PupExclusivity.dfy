/** How long the exclusivity of a turn lasts under the process utilization policy. */
module PupExclusivity {
  import opened Options
  import opened Mirror
  import opened Policies
  import opened Walks
  import opened Pup
  import opened PupTheorems

  /** The unsuspended queues are exactly those of one process. */
  ghost predicate ExclusiveFor(m: Mirror, p: Pid) {
    forall h :: h in m.xqs ==> (m.xqs[h].suspended <==> m.xqs[h].pid != p)
  }

  /** The event makes a handle known that was not, for a process other than `p`. */
  predicate BringsStranger(m: Mirror, p: Pid, e: Event) {
    (e.XQueueCreate? || e.XQueueReady? || e.XQueueIdle? || e.XQueueConfigUpdate?) && e.handle !in m.xqs && e.pid != p
  }

  /** One event ends the exclusivity exactly if it brings a stranger. */
  lemma EventEndsExclusivityIff(m: Mirror, p: Pid, e: Event, now: int)
    requires Accepts(m, e) && ExclusiveFor(m, p)
    ensures ExclusiveFor(Heard(m, e, now), p) <==> !BringsStranger(m, p, e)
  {
    if BringsStranger(m, p, e) {
      assert e.handle in Heard(m, e, now).xqs;
    }
  }

  ghost predicate ExclusiveAt(inputs: seq<Input>, k: nat, p: Pid)
    requires k <= |inputs|
  {
    SystemAfter(inputs[..k]).Some? && ExclusiveFor(SystemAfter(inputs[..k]).value.m, p)
  }

  ghost predicate StrangerAt(inputs: seq<Input>, k: nat, p: Pid)
    requires k < |inputs|
  {
    inputs[k].Take? && SystemAfter(inputs[..k]).Some? && BringsStranger(SystemAfter(inputs[..k]).value.m, p, inputs[k].event)
  }

  ghost predicate SwitchAt(inputs: seq<Input>, k: nat)
    requires k < |inputs|
  {
    && inputs[k].Round? && SystemAfter(inputs[..k]).Some?
    && TurnOf(SystemAfter(inputs[..k]).value, inputs[k].order, inputs[k].now).Switch?
  }

  ghost predicate StaysExclusive(inputs: seq<Input>, from: nat, p: Pid) {
    forall k :: from <= k <= |inputs| ==> ExclusiveAt(inputs, k, p)
  }

  ghost predicate NoStranger(inputs: seq<Input>, from: nat, p: Pid) {
    forall k :: from <= k < |inputs| ==> !StrangerAt(inputs, k, p)
  }

  ghost predicate NoSwitch(inputs: seq<Input>, from: nat) {
    forall k :: from <= k < |inputs| ==> !SwitchAt(inputs, k)
  }

  lemma OneInputMore(inputs: seq<Input>, from: nat, p: Pid)
    requires from < |inputs|
    ensures var rest := inputs[..|inputs| - 1];
            && rest[..from] == inputs[..from]
            && (StaysExclusive(inputs, from, p) <==> StaysExclusive(rest, from, p) && ExclusiveAt(inputs, |inputs|, p))
            && (NoStranger(inputs, from, p) <==> NoStranger(rest, from, p) && !StrangerAt(inputs, |rest|, p))
            && (NoSwitch(inputs, from) <==> NoSwitch(rest, from) && !SwitchAt(inputs, |rest|))
            && (StaysExclusive(rest, from, p) ==> ExclusiveAt(rest, |rest|, p))
  {
    hide SystemAfter, ExclusiveFor, BringsStranger, TurnOf;
    var rest := inputs[..|inputs| - 1];
    forall k: nat | k <= |rest| ensures rest[..k] == inputs[..k] && ExclusiveAt(rest, k, p) == ExclusiveAt(inputs, k, p) {
      assert rest[..k] == inputs[..k];
    }
    forall k: nat | k < |rest|
      ensures StrangerAt(rest, k, p) == StrangerAt(inputs, k, p) && SwitchAt(rest, k) == SwitchAt(inputs, k)
    {
      assert rest[..k] == inputs[..k];
    }
  }

  /** From any exclusive state on, as long as no round switches, exclusivity lasts exactly as long
      as no event brings a stranger. */
  lemma {:induction false} ExclusivityLastsIff(inputs: seq<Input>, from: nat, p: Pid)
    requires from <= |inputs| && SystemAfter(inputs).Some? && ExclusiveAt(inputs, from, p) && NoSwitch(inputs, from)
    ensures StaysExclusive(inputs, from, p) <==> NoStranger(inputs, from, p)
  {
    if from < |inputs| {
      var rest, input := inputs[..|inputs| - 1], inputs[|inputs| - 1];
      OneInputMore(inputs, from, p);
      assert rest[..|rest|] == rest && inputs[..|inputs|] == inputs;
      ExclusivityLastsIff(rest, from, p);
      if StaysExclusive(rest, from, p) {
        hide StaysExclusive, NoStranger, NoSwitch, ExclusiveFor, BringsStranger, Heard, AfterRound, TurnOf;
        var s := SystemAfter(rest).value;
        match input {
          case Take(e, now) => EventEndsExclusivityIff(s.m, p, e, now);
          case Round(order, now) => StayKeepsMirror(s, order, now);
          case _ =>
        }
      }
    }
  }

  lemma StayKeepsMirror(s: System, order: seq<Pid>, now: int)
    requires TurnOf(s, order, now).Stay?
    ensures AfterRound(s, order, now).m == s.m
  {
  }

  /** A turn that begins with a switch is exclusive, and until the next switch it stays so exactly
      as long as no event makes a handle known for a process other than the one that runs. */
  lemma TurnStaysExclusiveIff(inputs: seq<Input>, from: nat)
    requires from < |inputs| && SystemAfter(inputs).Some? && SwitchAt(inputs, from) && NoSwitch(inputs, from + 1)
    ensures SystemAfter(inputs[..from + 1]).Some? && SystemAfter(inputs[..from + 1]).value.q != []
    ensures var p := SystemAfter(inputs[..from + 1]).value.q[0].pid;
            StaysExclusive(inputs, from + 1, p) <==> NoStranger(inputs, from + 1, p)
  {
    hide NoSwitch, StaysExclusive, NoStranger, TurnOf;
    PrefixRuns(inputs, from + 1);
    var before, round := inputs[..from], inputs[from];
    assert inputs[..from + 1] == before + [round];
    SwitchIsExclusive(before, round.order, round.now);
    ExclusivityLastsIff(inputs, from + 1, SystemAfter(inputs[..from + 1]).value.q[0].pid);
  }

  lemma {:induction false} PrefixRuns(inputs: seq<Input>, k: nat)
    requires k <= |inputs| && SystemAfter(inputs).Some?
    ensures SystemAfter(inputs[..k]).Some?
  {
    hide StepOf;
    if k == |inputs| {
      assert inputs[..k] == inputs;
    } else {
      var rest := inputs[..|inputs| - 1];
      assert rest[..k] == inputs[..k];
      PrefixRuns(rest, k);
    }
  }
}
