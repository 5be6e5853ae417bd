/** Saved budgets and time slices stay bounded, however often they are added up. */
module PupBudgets {
  import opened Options
  import opened Mirror
  import opened Policies
  import opened Walks
  import opened Pup
  import opened PupTheorems

  lemma {:induction false} TotalUtilSplits(a: seq<RunEntry>, b: seq<RunEntry>, utils: map<Pid, int>)
    ensures TotalUtil(a + b, utils) == TotalUtil(a, utils) + TotalUtil(b, utils)
  {
    if b == [] {
      assert a + b == a;
    } else {
      assert (a + b)[..|a + b| - 1] == a + b[..|b| - 1];
      TotalUtilSplits(a, b[..|b| - 1], utils);
    }
  }

  /** Shares do not depend on who is at the front. */
  lemma RotationKeepsShares(q: seq<RunEntry>, e: RunEntry, utils: map<Pid, int>, average: int, pid: Pid)
    requires q != [] && e.pid == q[0].pid
    ensures Budget(q[1..] + [e], utils, average, pid) == Budget(q, utils, average, pid)
  {
    assert q == [q[0]] + q[1..];
    TotalUtilSplits([q[0]], q[1..], utils);
    TotalUtilSplits(q[1..], [e], utils);
    assert TotalUtil([q[0]], utils) == TotalUtil([e], utils);
  }

  lemma {:induction false} OwnUtilIsPart(q: seq<RunEntry>, utils: map<Pid, int>, i: nat)
    requires UtilsOk(utils) && i < |q|
    ensures 0 <= Util(utils, q[i].pid) <= TotalUtil(q, utils)
  {
    if i < |q| - 1 {
      OwnUtilIsPart(q[..|q| - 1], utils, i);
    } else {
      TotalUtilIsPositive(q[..|q| - 1], utils);
    }
  }

  lemma {:induction false} TotalUtilIsPositive(q: seq<RunEntry>, utils: map<Pid, int>)
    requires UtilsOk(utils)
    ensures 0 <= TotalUtil(q, utils)
  {
    if q != [] { TotalUtilIsPositive(q[..|q| - 1], utils); }
  }

  lemma QuotientAtMost(n: int, whole: int, x: int)
    requires 0 <= n <= x * whole && whole > 0
    ensures 0 <= n / whole <= x
  {
    var d := n / whole;
    assert n == d * whole + n % whole;
    assert d >= x + 1 ==> d * whole >= (x + 1) * whole;
  }

  lemma QuotientIsBounded(x: int, part: int, whole: int)
    requires 0 <= x && 0 <= part <= whole && whole > 0
    ensures 0 <= x * part / whole <= x
  {
    assert 0 <= x * part <= x * whole;
    QuotientAtMost(x * part, whole, x);
  }

  /** A share is never negative and never more than the whole round. */
  lemma ShareIsBounded(q: seq<RunEntry>, utils: map<Pid, int>, average: int, i: nat)
    requires UtilsOk(utils) && average >= 0 && i < |q|
    ensures 0 <= Budget(q, utils, average, q[i].pid) <= average * |q|
  {
    OwnUtilIsPart(q, utils, i);
    if TotalUtil(q, utils) != 0 {
      QuotientIsBounded(average * |q|, Util(utils, q[i].pid), TotalUtil(q, utils));
    }
  }

  /** Eleven shares are the fixed point of the decay. */
  lemma GrowIsBounded(budget: int, share: int, B: int)
    requires 0 <= budget <= 11 * B && 0 <= share <= B
    ensures 0 <= Grow(budget, share) <= 11 * B
  {
    if budget > share {
      assert (budget - share) * 9 / 10 * 10 <= (budget - share) * 9;
    }
  }

  ghost predicate BudgetsWithin(q: seq<RunEntry>, limit: int) {
    forall i :: 0 <= i < |q| ==> 0 <= q[i].budget <= limit
  }

  ghost predicate SharesWithin(q: seq<RunEntry>, utils: map<Pid, int>, average: int, B: int) {
    forall i :: 0 <= i < |q| ==> 0 <= Budget(q, utils, average, q[i].pid) <= B
  }

  /** No process of the queue has a share of more than `B`. */
  ghost predicate SharesAtMost(q: seq<RunEntry>, utils: map<Pid, int>, average: int, B: int) {
    forall i :: 0 <= i < |q| ==> Budget(q, utils, average, q[i].pid) <= B
  }

  lemma SharesAreNonNegative(q: seq<RunEntry>, utils: map<Pid, int>, average: int, B: int)
    requires SharesAtMost(q, utils, average, B) && UtilsOk(utils) && average >= 0
    ensures SharesWithin(q, utils, average, B)
  {
    hide Budget;
    forall i | 0 <= i < |q| ensures 0 <= Budget(q, utils, average, q[i].pid) <= B {
      ShareIsBounded(q, utils, average, i);
    }
  }

  lemma RotationKeepsSharesWithin(q: seq<RunEntry>, e: RunEntry, utils: map<Pid, int>, average: int, B: int)
    requires q != [] && e.pid == q[0].pid && SharesWithin(q, utils, average, B)
    ensures SharesWithin(q[1..] + [e], utils, average, B)
  {
    hide Budget;
    var r := q[1..] + [e];
    forall i | 0 <= i < |r| ensures 0 <= Budget(r, utils, average, r[i].pid) <= B {
      RotationKeepsShares(q, e, utils, average, r[i].pid);
      assert r[i].pid == q[if i == |q| - 1 then 0 else i + 1].pid;
    }
  }

  lemma {:induction false} SkipKeepsBudgets(q: seq<RunEntry>, utils: map<Pid, int>, average: int, B: int)
    requires AnyReady(q) && BudgetsWithin(q, 11 * B) && SharesWithin(q, utils, average, B)
    ensures BudgetsWithin(SkipToReady(q, utils, average), 11 * B)
    ensures SharesWithin(SkipToReady(q, utils, average), utils, average, B)
    decreases FirstReady(q)
  {
    hide Budget, AnyReady, FirstReady, Grow;
    ReadyIsNotEmpty(q);
    if !q[0].ready {
      var s := Skipped(q, utils, average);
      SkippingNearsReady(q, utils, average);
      RotationKeepsSharesWithin(q, s[|q| - 1], utils, average, B);
      GrowIsBounded(q[0].budget, Budget(q, utils, average, q[0].pid), B);
      SkipKeepsBudgets(s, utils, average, B);
    }
  }

  /** When the front process yields it saves at most what its slice had left. */
  lemma OfferedKeepsBudgets(q: seq<RunEntry>, utils: map<Pid, int>, average: int, sliceEnd: int, now: int, B: int)
    requires q != [] && BudgetsWithin(q, 11 * B) && SharesWithin(q, utils, average, B) && B >= 0
    requires q[0].running ==> sliceEnd - now <= 11 * B
    ensures BudgetsWithin(Offered(q, sliceEnd, now), 11 * B)
    ensures SharesWithin(Offered(q, sliceEnd, now), utils, average, B)
  {
    hide Budget, SharesWithin;
    if q[0].running { RotationKeepsSharesWithin(q, Offered(q, sliceEnd, now)[|q| - 1], utils, average, B); }
  }

  lemma MarkingKeepsBudgets(q: seq<RunEntry>, pid: Pid, limit: int)
    requires BudgetsWithin(q, limit)
    ensures BudgetsWithin(MarkedRunning(q, pid), limit)
  {
  }

  lemma SwitchKeepsBudgets(q: seq<RunEntry>, utils: map<Pid, int>, average: int, sliceEnd: int, now: int, B: int)
    requires PidsDistinct(q) && OnlyFrontRuns(q) && BudgetsWithin(q, 11 * B) && SharesWithin(q, utils, average, B)
    requires q != [] && q[0].running ==> sliceEnd - now <= 11 * B
    requires B >= 0 && Decide(q, utils, average, sliceEnd, now).Switch?
    ensures var t := Decide(q, utils, average, sliceEnd, now);
            t.queue != [] && 0 <= t.slice <= 11 * B && BudgetsWithin(MarkedRunning(t.queue, t.queue[0].pid), 11 * B)
  {
    SwitchShape(q, utils, average, sliceEnd, now);
    var o := Offered(q, sliceEnd, now);
    hide Budget, AnyReady, FirstReady, Grow, PidsDistinct, SkipToReady, Pids, OnlyFrontRuns, NoneRuns, MarkedRunning;
    OfferedKeepsBudgets(q, utils, average, sliceEnd, now, B);
    SkipKeepsBudgets(o, utils, average, B);
    var s := SkipToReady(o, utils, average);
    GrowIsBounded(s[0].budget, Budget(s, utils, average, s[0].pid), B);
    MarkingKeepsBudgets(s, s[0].pid, 11 * B);
  }

  lemma RefreshedKeepsBudgets(q: seq<RunEntry>, m: Mirror, order: seq<Pid>, limit: int)
    requires PidsDistinct(q) && BudgetsWithin(q, limit) && limit >= 0
    ensures BudgetsWithin(Refreshed(q, m, order), limit)
  {
    hide Purged, Joined, PidsDistinct, ProcessReady;
    var p, r := Purged(q, m), Refreshed(q, m, order);
    PurgedKeepsShape(q, m);
    JoinedExtends(p, m, order);
    forall i | 0 <= i < |r| ensures 0 <= r[i].budget <= limit {
      if i < |p| {
        var k := PurgedOrigin(q, m, i);
        assert r[i] == r[..|p|][i];
      }
    }
  }

  /** Refreshing neither moves another entry to the front while the running one stays there, nor
      makes anyone run. */
  lemma RefreshedFront(q: seq<RunEntry>, m: Mirror, order: seq<Pid>)
    requires PidsDistinct(q) && OnlyFrontRuns(q)
    ensures var r := Refreshed(q, m, order); r != [] && r[0].running ==> q != [] && q[0].running
  {
    hide Purged, Joined, PidsDistinct, ProcessReady;
    var p, r := Purged(q, m), Refreshed(q, m, order);
    PurgedKeepsShape(q, m);
    JoinedExtends(p, m, order);
    if r != [] && r[0].running && p != [] {
      assert r[0] == r[..|p|][0] == p[0];
      var k := PurgedOrigin(q, m, 0);
    }
  }

  /** What holds of the budgets between rounds. */
  ghost predicate BudgetsOk(s: System, B: int) {
    && BudgetsWithin(s.q, 11 * B)
    && (s.q != [] && s.q[0].running ==> s.sliceEnd <= s.last + 11 * B)
  }

  /** In each round of a run, no share exceeds `B`. */
  ghost predicate RoundsWithin(inputs: seq<Input>, B: int) {
    forall k :: 0 <= k < |inputs| && inputs[k].Round? && SystemAfter(inputs[..k]).Some? ==>
      var s := SystemAfter(inputs[..k]).value;
      SharesAtMost(Refreshed(s.q, s.m, inputs[k].order), KnownUtils(s.utils, s.m), s.average, B)
  }

  lemma RoundKeepsBudgets(s: System, order: seq<Pid>, now: int, B: int)
    requires SystemOk(s) && BudgetsOk(s, B) && Enumerates(order, s.m.procs.Keys) && now >= s.last && B >= 0
    requires SharesAtMost(Refreshed(s.q, s.m, order), KnownUtils(s.utils, s.m), s.average, B)
    ensures BudgetsOk(AfterRound(s, order, now), B)
    ensures TurnOf(s, order, now).Switch? ==> 0 <= TurnOf(s, order, now).slice <= 11 * B
  {
    var r := Refreshed(s.q, s.m, order);
    hide MirrorOk, PidsDistinct, OnlyFrontRuns, Refreshed, Decide, Enumerates, Rebuilt, Exclusive, BudgetsWithin, SharesWithin, SharesAtMost;
    SharesAreNonNegative(r, KnownUtils(s.utils, s.m), s.average, B);
    RefreshedKeepsShape(s.q, s.m, order);
    RefreshedKeepsBudgets(s.q, s.m, order, 11 * B);
    RefreshedFront(s.q, s.m, order);
    if TurnOf(s, order, now).Switch? {
      SwitchKeepsBudgets(r, KnownUtils(s.utils, s.m), s.average, s.sliceEnd, now, B);
    }
  }

  /** Budgets cannot pile up: if no share ever exceeds `B`, every saved budget and every time slice
      of the run lies between zero and eleven times `B`. */
  lemma {:induction false} BudgetsAreBounded(inputs: seq<Input>, B: int)
    requires SystemAfter(inputs).Some? && RoundsWithin(inputs, B) && B >= 0
    ensures BudgetsOk(SystemAfter(inputs).value, B)
    ensures forall order, now :: inputs != [] && inputs[|inputs| - 1] == Round(order, now) ==>
              && SystemAfter(inputs[..|inputs| - 1]).Some?
              && var turn := TurnOf(SystemAfter(inputs[..|inputs| - 1]).value, order, now);
                 turn.Switch? ==> 0 <= turn.slice <= 11 * B
  {
    if inputs != [] {
      var rest := inputs[..|inputs| - 1];
      RoundsPrefix(inputs, B);
      BudgetsAreBounded(rest, B);
      RunQueueKeepsShape(rest);
      var s := SystemAfter(rest).value;
      if inputs[|inputs| - 1].Round? {
        var r := inputs[|inputs| - 1];
        RoundKeepsBudgets(s, r.order, r.now, B);
      }
    }
  }

  lemma RoundsPrefix(inputs: seq<Input>, B: int)
    requires inputs != [] && RoundsWithin(inputs, B)
    ensures RoundsWithin(inputs[..|inputs| - 1], B)
  {
    hide SystemAfter, SharesAtMost, Refreshed;
    var rest := inputs[..|inputs| - 1];
    forall k | 0 <= k < |rest| ensures rest[..k] == inputs[..k] && rest[k] == inputs[k] {
    }
  }
}
