/** Nobody starves under the completely fair policy: running costs at least so much, so a ready
    queue gets its turn within a number of rounds. */
module CfsTurns {
  import opened Options
  import opened Sequences
  import opened Mirror
  import opened Policies
  import opened Walks
  import opened Cfs
  import opened CfsTheorems
  import opened CfsFairness
  import opened CfsCharging

  /** From input `first` on, rounds are at least `gap` apart and the weights of `S` at most `most`. */
  ghost predicate Brisk(inputs: seq<Input>, first: nat, S: set<Handle>, gap: int, most: Weight) {
    forall k :: first <= k < |inputs| && inputs[k].Round? ==>
      && SystemAfter(inputs[..k]).Some?
      && inputs[k].now - LastRound(inputs[..k]) >= gap
      && forall h :: h in S && h in SystemAfter(inputs[..k]).value.infos ==> SystemAfter(inputs[..k]).value.infos[h].weight <= most
  }

  /** The queues `S` are always ready on `d`; they are within `bound` after the round before input
      `first`, and nothing from there on allows for more. */
  ghost predicate Contest(inputs: seq<Input>, first: nat, S: set<Handle>, d: Device, T: int, w: Weight, bound: real) {
    && 0 < first <= |inputs| && SystemAfter(inputs).Some? && inputs[first - 1].Round?
    && SystemAfter(inputs[..first - 1]).Some? && ReadySetIs(SystemAfter(inputs[..first - 1]).value, S, d)
    && Steady(inputs, first, S, d, T, w)
    && SystemAfter(inputs[..first]).Some? && CfsFairness.Within(SystemAfter(inputs[..first]).value.infos, S, bound)
    && T as real * (BASE / w) <= bound
  }

  ghost predicate RunsAt(inputs: seq<Input>, k: nat, h: Handle)
    requires k <= |inputs|
  {
    SystemAfter(inputs[..k]).Some? && NodeOf(SystemAfter(inputs[..k]).value.infos, h).running
  }

  ghost predicate HasTurn(inputs: seq<Input>, first: nat, h: Handle) {
    exists k :: first <= k <= |inputs| && RunsAt(inputs, k, h)
  }

  ghost function Rounds(inputs: seq<Input>, first: nat): nat {
    if |inputs| <= first then 0 else
      Rounds(inputs[..|inputs| - 1], first) + if inputs[|inputs| - 1].Round? then 1 else 0
  }

  lemma ContestBefore(inputs: seq<Input>, first: nat, S: set<Handle>, d: Device, T: int, w: Weight, bound: real)
    requires first < |inputs| && Contest(inputs, first, S, d, T, w, bound)
    ensures Contest(inputs[..|inputs| - 1], first, S, d, T, w, bound) && inputs[..|inputs| - 1][..first] == inputs[..first]
  {
    var rest := inputs[..|inputs| - 1];
    assert SystemAfter(rest).Some?;
    SteadyPrefix(inputs, first, S, d, T, w);
    hide SystemAfter, ReadySetIs, CfsFairness.Within, Steady;
    assert rest[..first] == inputs[..first] && rest[..first - 1] == inputs[..first - 1];
  }

  lemma BriskBefore(inputs: seq<Input>, first: nat, S: set<Handle>, gap: int, most: Weight)
    requires first < |inputs| && Brisk(inputs, first, S, gap, most)
    ensures Brisk(inputs[..|inputs| - 1], first, S, gap, most)
  {
    hide SystemAfter, LastRound;
    var rest := inputs[..|inputs| - 1];
    forall k: nat | k < |rest| ensures rest[..k] == inputs[..k] && rest[k] == inputs[k] {
    }
  }

  lemma TurnBefore(inputs: seq<Input>, first: nat, h: Handle)
    requires first < |inputs| && HasTurn(inputs[..|inputs| - 1], first, h)
    ensures HasTurn(inputs, first, h)
  {
    hide SystemAfter;
    var rest := inputs[..|inputs| - 1];
    var k: nat :| first <= k <= |rest| && RunsAt(rest, k, h);
    assert rest[..k] == inputs[..k] && RunsAt(inputs, k, h);
  }

  /** What the conditions say about a last round. */
  lemma LastRoundIs(inputs: seq<Input>, first: nat, S: set<Handle>, d: Device, T: int, w: Weight, bound: real, gap: int, most: Weight)
    requires first < |inputs| && Contest(inputs, first, S, d, T, w, bound) && Brisk(inputs, first, S, gap, most)
    requires inputs[|inputs| - 1].Round?
    ensures var rest := inputs[..|inputs| - 1];
            && SystemAfter(rest).Some? && ReadySetIs(SystemAfter(rest).value, S, d)
            && inputs[|inputs| - 1].now - LastRound(rest) >= gap
            && forall h :: h in S && h in SystemAfter(rest).value.infos ==> SystemAfter(rest).value.infos[h].weight <= most
  {
    hide SystemAfter, LastRound, ReadySetIs, CfsFairness.Within, WeightsAtLeast;
  }

  /** The virtual runtimes of some queues together. */
  ghost function Total(infos: map<Handle, CfsNode>, some: seq<Handle>): real {
    if some == [] then 0.0 else Total(infos, some[..|some| - 1]) + NodeOf(infos, some[|some| - 1]).vruntime
  }

  function Times(n: nat, x: real): real {
    if n == 0 then 0.0 else Times(n - 1, x) + x
  }

  lemma {:induction false} TimesIs(n: nat, x: real)
    ensures Times(n, x) == n as real * x
  {
    if n > 0 {
      TimesIs(n - 1, x);
      OneTimeMore(n - 1, x);
    }
  }

  lemma OneTimeMore(n: nat, x: real)
    ensures (n + 1) as real * x == n as real * x + x
  {
  }

  lemma {:induction false} TotalWithin(infos: map<Handle, CfsNode>, some: seq<Handle>, low: real, high: real)
    requires forall g :: g in some ==> low <= NodeOf(infos, g).vruntime <= high
    ensures Times(|some|, low) <= Total(infos, some) <= Times(|some|, high)
  {
    hide NodeOf;
    if some != [] {
      assert some[|some| - 1] in some;
      TotalWithin(infos, some[..|some| - 1], low, high);
    }
  }

  lemma {:induction false} TotalGrows(a: map<Handle, CfsNode>, b: map<Handle, CfsNode>, some: seq<Handle>, g: Handle, more: real)
    requires forall x :: x in some ==> NodeOf(b, x).vruntime >= NodeOf(a, x).vruntime
    requires g in some ==> NodeOf(b, g).vruntime >= NodeOf(a, g).vruntime + more
    ensures Total(b, some) >= Total(a, some) + if g in some then more else 0.0
    decreases |some|
  {
    if some != [] {
      var rest, x := some[..|some| - 1], some[|some| - 1];
      assert some == rest + [x];
      hide NodeOf;
      if x == g && g in rest {
        TotalGrows(a, b, rest, g, more);
        assert NodeOf(b, x).vruntime >= NodeOf(a, x).vruntime;
      } else {
        TotalGrows(a, b, rest, g, more);
      }
    }
  }

  lemma ChargeIsAtLeast(gain: real, weight: Weight, time: int, gap: int, most: Weight)
    requires gain * weight == time as real * 1024.0 && 0 <= gap <= time && weight <= most
    ensures gain >= gap as real * (1024.0 / most)
  {
    GainIs(gain, weight, time as real);
    var r, R := 1024.0 / most, 1024.0 / weight;
    assert r * most == 1024.0 && R * weight == 1024.0;
    assert (R - r) * weight >= 0.0;
    assert time as real * R >= gap as real * R >= gap as real * r;
  }

  /** After a round some queue of a device runs that has a ready queue. */
  lemma RoundLetsOneRun(s: System, order: seq<Handle>, now: int, S: set<Handle>, d: Device, h: Handle) returns (g: Handle)
    requires Enumerates(order, s.m.xqs.Keys) && MirrorOk(s.m) && ReadySetIs(s, S, d) && h in S
    ensures g in S && NodeOf(AfterRound(s, order, now).infos, g).running
  {
    var prepared := Prepared(s.infos, s.m.xqs, order, now);
    PickIsLeast(prepared, s.m.xqs, order, d);
    g := Pick(prepared, s.m.xqs, order, d).value;
    hide MirrorOk, Enumerates, AfterRound, Prepared, Pick;
    RoundOnQueue(s, order, now, g);
  }

  /** One round while `h` waits: somebody else of `S` was running, is charged, and somebody runs again. */
  lemma RoundCostsSomebody(s: System, order: seq<Handle>, now: int, S: set<Handle>, d: Device, last: int, gap: int, most: Weight,
                           h: Handle, others: seq<Handle>, runner: Handle)
    requires Enumerates(order, s.m.xqs.Keys) && MirrorOk(s.m) && ReadySetIs(s, S, d) && OnlyLeastRuns(s.infos, S, last)
    requires h in S && (forall g :: g in others <==> g in S && g != h)
    requires runner in S && runner != h && NodeOf(s.infos, runner).running && !NodeOf(s.infos, h).running
    requires 0 <= gap <= now - last && forall g :: g in S && g in s.infos ==> s.infos[g].weight <= most
    ensures var after := AfterRound(s, order, now).infos;
            && Total(after, others) >= Total(s.infos, others) + gap as real * (1024.0 / most)
            && NodeOf(after, h).vruntime == NodeOf(s.infos, h).vruntime
  {
    hide AfterRound, MirrorOk, Enumerates, Total, ReadySetIs;
    var after := AfterRound(s, order, now).infos;
    forall g | g in S
      ensures g in s.infos && g in after
      ensures after[g].vruntime >= s.infos[g].vruntime + if g == runner then gap as real * (1024.0 / most) else 0.0
      ensures g != runner ==> after[g].vruntime == s.infos[g].vruntime
    {
      RoundChargesByWeight(s, order, now, g);
      assert g in s.m.xqs by { ReadyIsKnown(s, S, d, g); }
      if g == runner { ChargeIsAtLeast(after[g].vruntime - s.infos[g].vruntime, s.infos[g].weight, now - last, gap, most); }
    }
    TotalGrows(s.infos, after, others, runner, gap as real * (1024.0 / most));
  }

  lemma ReadyIsKnown(s: System, S: set<Handle>, d: Device, g: Handle)
    requires ReadySetIs(s, S, d) && g in S
    ensures g in s.m.xqs
  {
  }

  lemma {:induction false} SameTotal(a: map<Handle, CfsNode>, b: map<Handle, CfsNode>, some: seq<Handle>)
    requires forall g :: g in some ==> NodeOf(a, g).vruntime == NodeOf(b, g).vruntime
    ensures Total(a, some) == Total(b, some)
  {
    hide NodeOf;
    if some != [] {
      assert some[|some| - 1] in some;
      SameTotal(a, b, some[..|some| - 1]);
    }
  }

  /** The same about the last input of a run that meets the conditions. */
  lemma WaitingRound(inputs: seq<Input>, first: nat, S: set<Handle>, d: Device, T: int, w: Weight, bound: real,
                     gap: int, most: Weight, h: Handle, others: seq<Handle>, runner: Handle) returns (next: Handle)
    requires first < |inputs| && Contest(inputs, first, S, d, T, w, bound) && Brisk(inputs, first, S, gap, most) && gap >= 0
    requires inputs[|inputs| - 1].Round? && h in S && (forall g :: g in others <==> g in S && g != h)
    requires SystemAfter(inputs[..|inputs| - 1]).Some?
    requires var s := SystemAfter(inputs[..|inputs| - 1]).value;
             runner in S && runner != h && NodeOf(s.infos, runner).running && !NodeOf(s.infos, h).running
    ensures SystemAfter(inputs).Some?
    ensures var s, after := SystemAfter(inputs[..|inputs| - 1]).value, SystemAfter(inputs).value.infos;
            && next in S && NodeOf(after, next).running
            && Total(after, others) >= Total(s.infos, others) + gap as real * (1024.0 / most)
            && NodeOf(after, h).vruntime == NodeOf(s.infos, h).vruntime
  {
    hide AfterRound, MirrorOk, RunningIsNotParked, Enumerates, OnlyLeastRuns, ReadySetIs, Total, Contest, Brisk, NodeOf;
    var rest := inputs[..|inputs| - 1];
    ContestIsRun(inputs, first, S, d, T, w, bound);
    RunKeepsRunning(rest);
    ContestBefore(inputs, first, S, d, T, w, bound);
    LastRoundIs(inputs, first, S, d, T, w, bound, gap, most);
    ContestBounds(rest, first, S, d, T, w, bound);
    var s, order, now := SystemAfter(rest).value, inputs[|inputs| - 1].order, inputs[|inputs| - 1].now;
    RoundCostsSomebody(s, order, now, S, d, LastRound(rest), gap, most, h, others, runner);
    next := RoundLetsOneRun(s, order, now, S, d, h);
  }

  /** While `h` waits, every round costs the others together at least the charge for a shortest gap
      at the greatest weight. */
  lemma {:induction false} WaitingCosts(inputs: seq<Input>, first: nat, S: set<Handle>, d: Device, T: int, w: Weight, bound: real,
                                        gap: int, most: Weight, h: Handle, others: seq<Handle>) returns (runner: Handle)
    requires Contest(inputs, first, S, d, T, w, bound) && Brisk(inputs, first, S, gap, most) && gap >= 0
    requires h in S && (forall g :: g in others <==> g in S && g != h) && !HasTurn(inputs, first, h)
    ensures var infos, start := SystemAfter(inputs).value.infos, SystemAfter(inputs[..first]).value.infos;
            && runner in S && runner != h && NodeOf(infos, runner).running && !NodeOf(infos, h).running
            && Total(infos, others) >= Total(start, others) + Rounds(inputs, first) as real * (gap as real * (1024.0 / most))
            && NodeOf(infos, h).vruntime == NodeOf(start, h).vruntime
  {
    hide AfterRound, MirrorOk, RunningIsNotParked, Enumerates, OnlyLeastRuns, ReadySetIs, Heard, Total, WeightFor, Contest, Brisk;
    ContestIsRun(inputs, first, S, d, T, w, bound);
    var rest := inputs[..|inputs| - 1];
    RunKeepsRunning(rest);
    var s := SystemAfter(rest).value;
    assert inputs[..|inputs|] == inputs;
    assert !RunsAt(inputs, |inputs|, h);
    if first == |inputs| {
      assert inputs[..first] == inputs && inputs[..first - 1] == rest;
      var r := inputs[|inputs| - 1];
      runner := RoundLetsOneRun(s, r.order, r.now, S, d, h);
    } else {
      ContestBefore(inputs, first, S, d, T, w, bound);
      BriskBefore(inputs, first, S, gap, most);
      if HasTurn(rest, first, h) { TurnBefore(inputs, first, h); }
      runner := WaitingCosts(rest, first, S, d, T, w, bound, gap, most, h, others);
      match inputs[|inputs| - 1] {
        case Take(e, now) =>
        case PriorityHint(g, p) => SameTotal(s.infos, SystemAfter(inputs).value.infos, others);
        case Round(order, now) =>
          hide NodeOf, SystemAfter, HasTurn, RunsAt;
          runner := WaitingRound(inputs, first, S, d, T, w, bound, gap, most, h, others, runner);
          OneTimeMore(Rounds(rest, first), gap as real * (1024.0 / most));
      }
    }
  }

  lemma ContestIsRun(inputs: seq<Input>, first: nat, S: set<Handle>, d: Device, T: int, w: Weight, bound: real)
    requires Contest(inputs, first, S, d, T, w, bound)
    ensures 0 < first <= |inputs| && SystemAfter(inputs).Some? && SystemAfter(inputs[..|inputs| - 1]).Some?
    ensures SystemAfter(inputs[..first]).Some?
    ensures inputs[first - 1].Round? && ReadySetIs(SystemAfter(inputs[..first - 1]).value, S, d)
  {
    hide ReadySetIs, CfsFairness.Within, Steady, AfterRound, Heard, Enumerates;
  }

  lemma ContestBounds(inputs: seq<Input>, first: nat, S: set<Handle>, d: Device, T: int, w: Weight, bound: real)
    requires Contest(inputs, first, S, d, T, w, bound)
    ensures SystemAfter(inputs).Some?
    ensures CfsFairness.Within(SystemAfter(inputs).value.infos, S, bound) && OnlyLeastRuns(SystemAfter(inputs).value.infos, S, LastRound(inputs))
  {
    hide SystemAfter, ReadySetIs, CfsFairness.Within, Steady, OnlyLeastRuns;
    FairnessBound(inputs, first, S, d, T, w, bound);
  }

  /** So `h` cannot wait for long: the charges of the rounds it waits stay within twice the fairness
      bound for each other queue. */
  lemma WaitingIsBounded(inputs: seq<Input>, first: nat, S: set<Handle>, d: Device, T: int, w: Weight, bound: real,
                         gap: int, most: Weight, h: Handle, others: seq<Handle>)
    requires Contest(inputs, first, S, d, T, w, bound) && Brisk(inputs, first, S, gap, most) && gap >= 0
    requires h in S && (forall g :: g in others <==> g in S && g != h) && !HasTurn(inputs, first, h)
    ensures Rounds(inputs, first) as real * (gap as real * (1024.0 / most)) <= 2.0 * |others| as real * bound
  {
    hide *;
    ContestIsRun(inputs, first, S, d, T, w, bound);
    var start, end := SystemAfter(inputs[..first]).value.infos, SystemAfter(inputs).value.infos;
    var _ := WaitingCosts(inputs, first, S, d, T, w, bound, gap, most, h, others);
    ContestBounds(inputs, first, S, d, T, w, bound);
    StartHasAll(inputs, first, S, d, T, w, bound);
    TotalNear(start, S, LastRound(inputs[..first]), bound, h, others);
    TotalNear(end, S, LastRound(inputs), bound, h, others);
    CostIsBounded(|others|, NodeOf(end, h).vruntime, bound, Total(start, others), Total(end, others),
      Rounds(inputs, first) as real * (gap as real * (1024.0 / most)));
  }

  lemma CostIsBounded(n: nat, v: real, bound: real, start: real, end: real, cost: real)
    requires Times(n, v - bound) <= start && end <= Times(n, v + bound) && end >= start + cost
    ensures cost <= 2.0 * n as real * bound
  {
    TimesIs(n, v - bound);
    TimesIs(n, v + bound);
    var x := n as real;
    assert x * (v + bound) - x * (v - bound) == 2.0 * x * bound;
  }

  /** Nobody starves. For a fixed set of always-ready queues on one device, with rounds at least
      `gap` and at most `T` apart and weights between `w` and `most`, every one of them gets a turn
      as soon as the charges of so many rounds exceed twice the fairness bound for each other queue. */
  lemma NobodyStarves(inputs: seq<Input>, first: nat, S: set<Handle>, d: Device, T: int, w: Weight, bound: real,
                      gap: int, most: Weight, h: Handle, others: seq<Handle>)
    requires Contest(inputs, first, S, d, T, w, bound) && Brisk(inputs, first, S, gap, most) && gap >= 0
    requires h in S && (forall g :: g in others <==> g in S && g != h)
    requires Rounds(inputs, first) as real * (gap as real * (1024.0 / most)) > 2.0 * |others| as real * bound
    ensures HasTurn(inputs, first, h)
  {
    hide *;
    if !HasTurn(inputs, first, h) {
      WaitingIsBounded(inputs, first, S, d, T, w, bound, gap, most, h, others);
    }
  }

  lemma TotalNear(infos: map<Handle, CfsNode>, S: set<Handle>, last: int, bound: real, h: Handle, others: seq<Handle>)
    requires OnlyLeastRuns(infos, S, last) && CfsFairness.Within(infos, S, bound) && h in S && forall g :: g in others ==> g in S
    ensures var n, v := |others|, NodeOf(infos, h).vruntime;
            Times(n, v - bound) <= Total(infos, others) <= Times(n, v + bound)
  {
    var v := NodeOf(infos, h).vruntime;
    forall g | g in others ensures v - bound <= NodeOf(infos, g).vruntime <= v + bound {
      assert infos[h].vruntime - infos[g].vruntime <= bound && infos[g].vruntime - infos[h].vruntime <= bound;
    }
    TotalWithin(infos, others, v - bound, v + bound);
  }

  lemma StartHasAll(inputs: seq<Input>, first: nat, S: set<Handle>, d: Device, T: int, w: Weight, bound: real)
    requires Contest(inputs, first, S, d, T, w, bound)
    ensures OnlyLeastRuns(SystemAfter(inputs[..first]).value.infos, S, LastRound(inputs[..first]))
    ensures CfsFairness.Within(SystemAfter(inputs[..first]).value.infos, S, bound)
  {
    hide AfterRound, MirrorOk, RunningIsNotParked, Enumerates, CfsFairness.Within, ReadySetIs, Heard;
    var before := inputs[..first - 1];
    assert inputs[..first][..first - 1] == before && inputs[..first][first - 1] == inputs[first - 1];
    RunKeepsRunning(before);
    RoundLetsLeastRun(SystemAfter(before).value, inputs[first - 1].order, inputs[first - 1].now, S, d);
  }
}
