/** What a turn is worth under the process utilization policy: shares are to the round as
    utilizations are to their sum, and what a process does not use it keeps. */
module PupShares {
  import opened Options
  import opened Mirror
  import opened Policies
  import opened Walks
  import opened Pup
  import opened PupTheorems
  import opened PupBudgets
  import opened PupTurns

  /** The utilization of a process is what a hint set, or 100; the total is their sum over the run queue. */
  lemma TotalIsSum(q: seq<RunEntry>, e: RunEntry, utils: map<Pid, int>)
    ensures TotalUtil([], utils) == 0
    ensures TotalUtil(q + [e], utils) == TotalUtil(q, utils) + if e.pid in utils then utils[e.pid] else 100
  {
    assert (q + [e])[..|q|] == q;
  }

  /** `share` is to a round of `n` average slices as a utilization is to the total, rounded down;
      nothing if nobody is to be utilized. */
  predicate IsShare(average: int, n: nat, util: int, total: int, share: int) {
    if total == 0 then share == 0 else share * total <= average * n * util < (share + 1) * total
  }

  lemma QuotientIs(x: int, whole: int)
    requires whole > 0
    ensures x / whole * whole <= x < (x / whole + 1) * whole
  {
    assert x == x / whole * whole + x % whole;
    assert (x / whole + 1) * whole == x / whole * whole + whole;
  }

  lemma ShareIsProportional(q: seq<RunEntry>, utils: map<Pid, int>, average: int, pid: Pid)
    requires UtilsOk(utils)
    ensures IsShare(average, |q|, if pid in utils then utils[pid] else 100, TotalUtil(q, utils), Budget(q, utils, average, pid))
  {
    TotalUtilIsPositive(q, utils);
    if TotalUtil(q, utils) != 0 {
      QuotientIs(average * |q| * Util(utils, pid), TotalUtil(q, utils));
    }
  }

  /** The shares of some processes of the run queue together. */
  function SharesOf(q: seq<RunEntry>, utils: map<Pid, int>, average: int, some: seq<RunEntry>): int {
    if some == [] then 0 else
      SharesOf(q, utils, average, some[..|some| - 1]) + Budget(q, utils, average, some[|some| - 1].pid)
  }

  lemma {:induction false} SharesOfSome(q: seq<RunEntry>, utils: map<Pid, int>, average: int, some: seq<RunEntry>)
    requires UtilsOk(utils) && TotalUtil(q, utils) > 0
    ensures var whole, total, shares := average * |q|, TotalUtil(q, utils), SharesOf(q, utils, average, some);
            shares * total <= whole * TotalUtil(some, utils) <= (shares + |some|) * total - |some|
  {
    if some != [] {
      var rest, last := some[..|some| - 1], some[|some| - 1];
      var whole, total := average * |q|, TotalUtil(q, utils);
      SharesOfSome(q, utils, average, rest);
      QuotientIs(whole * Util(utils, last.pid), total);
      OneMoreShare(SharesOf(q, utils, average, rest), |rest|, Budget(q, utils, average, last.pid), whole, total,
        TotalUtil(rest, utils), Util(utils, last.pid));
    }
  }

  lemma OneMoreShare(shares: int, n: int, share: int, whole: int, total: int, utils: int, util: int)
    requires shares * total <= whole * utils <= (shares + n) * total - n
    requires share * total <= whole * util < (share + 1) * total
    ensures (shares + share) * total <= whole * (utils + util) <= (shares + share + (n + 1)) * total - (n + 1)
  {
    assert whole * (utils + util) == whole * utils + whole * util;
    assert (shares + share) * total == shares * total + share * total;
    assert (shares + share + (n + 1)) * total == (shares + n) * total + (share + 1) * total;
  }

  /** The shares of all processes use the round up: what rounding leaves over is less than one
      microsecond for each of them. */
  lemma SharesUseTheRound(q: seq<RunEntry>, utils: map<Pid, int>, average: int)
    requires UtilsOk(utils) && TotalUtil(q, utils) > 0
    ensures average * |q| - |q| < SharesOf(q, utils, average, q) <= average * |q|
  {
    SharesOfSome(q, utils, average, q);
    var total, shares := TotalUtil(q, utils), SharesOf(q, utils, average, q);
    FactorsCompare(shares, average * |q|, total);
    assert q != [];
    StrictFactorsCompare(average * |q|, shares + |q|, total);
  }

  lemma FactorsCompare(a: int, b: int, k: int)
    requires a * k <= b * k && k > 0
    ensures a <= b
  {
    assert a >= b + 1 ==> a * k >= (b + 1) * k;
  }

  lemma StrictFactorsCompare(a: int, b: int, k: int)
    requires a * k < b * k && k > 0
    ensures a < b
  {
    assert a >= b ==> a * k >= b * k;
  }

  /** What a saved budget is after one more share: the share is added, and what was saved beyond
      one share decays by a tenth first, rounded down. */
  predicate IsGrown(saved: int, share: int, grown: int) {
    if saved <= share then grown == saved + share
    else 10 * (grown - 2 * share) <= 9 * (saved - share) < 10 * (grown - 2 * share + 1)
  }

  lemma GrowIs(saved: int, share: int)
    ensures IsGrown(saved, share, Grow(saved, share))
  {
  }

  /** `s` is the run queue `q` after the first `k` processes have passed: they are at the end, in
      order, with a share added to what they had saved; nobody else has changed. */
  ghost predicate HavePassed(q: seq<RunEntry>, utils: map<Pid, int>, average: int, k: nat, s: seq<RunEntry>) {
    && k <= |q| == |s|
    && (forall i :: 0 <= i < |q| - k ==> s[i] == q[k + i])
    && forall j :: 0 <= j < k ==> HasPassed(q, utils, average, q[j], s[|q| - k + j])
  }

  predicate HasPassed(q: seq<RunEntry>, utils: map<Pid, int>, average: int, before: RunEntry, after: RunEntry) {
    && after == RunEntry(before.pid, false, false, after.budget)
    && IsGrown(before.budget, Budget(q, utils, average, before.pid), after.budget)
  }

  lemma OneHasPassed(q: seq<RunEntry>, utils: map<Pid, int>, average: int, k: nat, s: seq<RunEntry>)
    requires q != [] && HavePassed(Skipped(q, utils, average), utils, average, k, s) && k < |q|
    ensures HavePassed(q, utils, average, k + 1, s)
  {
    var r, n := Skipped(q, utils, average), |q|;
    GrowIs(q[0].budget, Budget(q, utils, average, q[0].pid));
    assert HasPassed(q, utils, average, q[0], r[n - 1]);
    forall pid ensures Budget(r, utils, average, pid) == Budget(q, utils, average, pid) {
      RotationKeepsShares(q, r[n - 1], utils, average, pid);
    }
    hide Budget, Grow, IsGrown;
    forall j | 0 <= j < k + 1 ensures HasPassed(q, utils, average, q[j], s[n - (k + 1) + j]) {
      if j == 0 {
        assert s[n - k - 1] == r[n - 1];
      } else {
        assert r[j - 1] == q[j] && HasPassed(r, utils, average, r[j - 1], s[n - k + (j - 1)]);
      }
    }
  }

  /** Skipping lets exactly the processes before the first ready one pass. */
  lemma {:induction false} SkippingIs(q: seq<RunEntry>, utils: map<Pid, int>, average: int)
    requires AnyReady(q)
    ensures FirstReady(q) < |q| && HavePassed(q, utils, average, FirstReady(q), SkipToReady(q, utils, average))
    decreases FirstReady(q)
  {
    FirstReadyIs(q);
    if !q[0].ready {
      SkippingNearsReady(q, utils, average);
      OneNearer(q, utils, average);
      SkipsOne(q, utils, average);
      SkippingIs(Skipped(q, utils, average), utils, average);
      hide Skipped, AnyReady, HavePassed, SkipToReady;
      OneHasPassed(q, utils, average, FirstReady(q) - 1, SkipToReady(q, utils, average));
    }
  }

  lemma SkipsOne(q: seq<RunEntry>, utils: map<Pid, int>, average: int)
    requires AnyReady(q) && !q[0].ready && AnyReady(Skipped(q, utils, average))
    ensures SkipToReady(q, utils, average) == SkipToReady(Skipped(q, utils, average), utils, average)
  {
    SkippingNearsReady(q, utils, average);
  }

  lemma OneNearer(q: seq<RunEntry>, utils: map<Pid, int>, average: int)
    requires AnyReady(q) && !q[0].ready
    ensures AnyReady(Skipped(q, utils, average)) && FirstReady(Skipped(q, utils, average)) == FirstReady(q) - 1
  {
    var r := Skipped(q, utils, average);
    SkippingNearsReady(q, utils, average);
    FirstReadyIs(q);
    FirstReadyIs(r);
    var k := FirstReady(r);
    assert r[k].ready && r[k] == q[k + 1];
  }

  lemma RotationKeepsTotal(q: seq<RunEntry>, e: RunEntry, utils: map<Pid, int>)
    requires q != [] && e.pid == q[0].pid
    ensures TotalUtil(q[1..] + [e], utils) == TotalUtil(q, utils)
  {
    assert q == [q[0]] + q[1..];
    TotalUtilSplits([q[0]], q[1..], utils);
    TotalUtilSplits(q[1..], [e], utils);
    assert TotalUtil([q[0]], utils) == TotalUtil([e], utils);
  }

  lemma {:induction false} SkipKeepsTotal(q: seq<RunEntry>, utils: map<Pid, int>, average: int)
    requires AnyReady(q)
    ensures var s := SkipToReady(q, utils, average); |s| == |q| && TotalUtil(s, utils) == TotalUtil(q, utils)
    decreases FirstReady(q)
  {
    if !q[0].ready {
      var r := Skipped(q, utils, average);
      SkippingNearsReady(q, utils, average);
      RotationKeepsTotal(q, r[|q| - 1], utils);
      hide TotalUtil, Budget;
      SkipKeepsTotal(r, utils, average);
    }
  }

  /** The entry that a switch puts in front, and what it had saved: the rest of its slice if it was
      running, else its budget. */
  lemma ChosenEntry(r: seq<RunEntry>, utils: map<Pid, int>, average: int, sliceEnd: int, now: int, i: nat)
    requires PidsDistinct(r) && OnlyFrontRuns(r) && i < |r|
    requires Decide(r, utils, average, sliceEnd, now).Switch?
    requires var t := Decide(r, utils, average, sliceEnd, now).queue; t != [] && t[0].pid == r[i].pid
    ensures Decide(r, utils, average, sliceEnd, now).queue[0].budget
            == if !r[i].running then r[i].budget else if sliceEnd > now then sliceEnd - now else 0
  {
    SwitchShape(r, utils, average, sliceEnd, now);
    SkippingIs(Offered(r, sliceEnd, now), utils, average);
    hide Decide, SkipToReady, HasPassed, AnyReady, FirstReady, Pids, PidsDistinct, OnlyFrontRuns, NoneRuns, Offered;
    OfferedEntry(r, sliceEnd, now, FirstReady(Offered(r, sliceEnd, now)), i);
  }

  lemma OfferedEntry(r: seq<RunEntry>, sliceEnd: int, now: int, k: nat, i: nat)
    requires PidsDistinct(r) && OnlyFrontRuns(r) && i < |r|
    requires |Offered(r, sliceEnd, now)| == |r| && k < |r| && Offered(r, sliceEnd, now)[k].pid == r[i].pid
    ensures Offered(r, sliceEnd, now)[k].budget
            == if !r[i].running then r[i].budget else if sliceEnd > now then sliceEnd - now else 0
  {
    assert i == if !r[0].running then k else if k == |r| - 1 then 0 else k + 1;
  }

  /** In every run a switch gives the chosen process a slice of one share and what it had saved,
      decayed: `i` is where its entry stood. */
  lemma TurnIsEarned(inputs: seq<Input>, order: seq<Pid>, now: int, i: nat) returns (share: int)
    requires SystemAfter(inputs).Some? && SystemAfter(inputs + [Round(order, now)]).Some?
    requires var s := SystemAfter(inputs).value;
             var r := Refreshed(s.q, s.m, order);
             var after := SystemAfter(inputs + [Round(order, now)]).value;
             TurnOf(s, order, now).Switch? && i < |r| && after.q != [] && r[i].pid == after.q[0].pid
    ensures var s := SystemAfter(inputs).value;
            var r, utils := Refreshed(s.q, s.m, order), KnownUtils(s.utils, s.m);
            var saved := if !r[i].running then r[i].budget else if s.sliceEnd > now then s.sliceEnd - now else 0;
            var util := if r[i].pid in utils then utils[r[i].pid] else 100;
            && IsShare(s.average, |r|, util, TotalUtil(r, utils), share)
            && IsGrown(saved, share, SystemAfter(inputs + [Round(order, now)]).value.sliceEnd - now)
  {
    var all := inputs + [Round(order, now)];
    assert all[..|all| - 1] == inputs;
    RunQueueKeepsShape(inputs);
    share := TurnIsEarnedNow(SystemAfter(inputs).value, order, now, i);
  }

  lemma TurnIsEarnedNow(s: System, order: seq<Pid>, now: int, i: nat) returns (share: int)
    requires SystemOk(s) && Enumerates(order, s.m.procs.Keys) && TurnOf(s, order, now).Switch?
    requires var r, after := Refreshed(s.q, s.m, order), AfterRound(s, order, now);
             i < |r| && after.q != [] && r[i].pid == after.q[0].pid
    ensures var r, utils := Refreshed(s.q, s.m, order), KnownUtils(s.utils, s.m);
            var saved := if !r[i].running then r[i].budget else if s.sliceEnd > now then s.sliceEnd - now else 0;
            var util := if r[i].pid in utils then utils[r[i].pid] else 100;
            && IsShare(s.average, |r|, util, TotalUtil(r, utils), share)
            && IsGrown(saved, share, AfterRound(s, order, now).sliceEnd - now)
  {
    hide MirrorOk, PidsDistinct, OnlyFrontRuns, Refreshed, Enumerates, ProcessReady, Rebuilt, Exclusive, IsShare, IsGrown, Budget, Grow, TotalUtil;
    var r, utils := Refreshed(s.q, s.m, order), KnownUtils(s.utils, s.m);
    RefreshedKeepsShape(s.q, s.m, order);
    SwitchShape(r, utils, s.average, s.sliceEnd, now);
    var t := TurnOf(s, order, now).queue;
    SliceIsGrown(r, utils, s.average, s.sliceEnd, now);
    SkipKeepsTotal(Offered(r, s.sliceEnd, now), utils, s.average);
    OfferedKeepsTotal(r, utils, s.sliceEnd, now);
    share := Budget(t, utils, s.average, t[0].pid);
    ShareIsProportional(t, utils, s.average, t[0].pid);
    ChosenEntry(r, utils, s.average, s.sliceEnd, now, i);
    hide Decide, SkipToReady, Offered;
    assert AfterRound(s, order, now).q[0].pid == t[0].pid;
  }

  lemma SliceIsGrown(q: seq<RunEntry>, utils: map<Pid, int>, average: int, sliceEnd: int, now: int)
    requires Decide(q, utils, average, sliceEnd, now).Switch? && Decide(q, utils, average, sliceEnd, now).queue != []
    ensures var t := Decide(q, utils, average, sliceEnd, now);
            IsGrown(t.queue[0].budget, Budget(t.queue, utils, average, t.queue[0].pid), t.slice)
  {
    var t := Decide(q, utils, average, sliceEnd, now);
    GrowIs(t.queue[0].budget, Budget(t.queue, utils, average, t.queue[0].pid));
    hide Grow, IsGrown, Budget, SkipToReady;
  }

  lemma OfferedKeepsTotal(q: seq<RunEntry>, utils: map<Pid, int>, sliceEnd: int, now: int)
    requires q != []
    ensures |Offered(q, sliceEnd, now)| == |q| && TotalUtil(Offered(q, sliceEnd, now), utils) == TotalUtil(q, utils)
  {
    if q[0].running { RotationKeepsTotal(q, Yielded(q, sliceEnd, now)[|q| - 1], utils); }
  }

  /** How long a turn lasts: a round leaves the running process alone exactly if it is ready and has
      time left, or if no process is ready. */
  lemma TurnLastsIff(s: System, order: seq<Pid>, now: int)
    requires SystemOk(s) && Enumerates(order, s.m.procs.Keys) && s.q != [] && s.q[0].running && Alive(s.m, s.q[0].pid)
    ensures TurnOf(s, order, now).Stay?
            <==> (ProcessReady(s.m, s.q[0].pid) && s.sliceEnd > now) || forall p :: !ProcessReady(s.m, p)
  {
    RefreshedKeepsShape(s.q, s.m, order);
    PurgedPosition(s.q, s.m, 0);
    PurgedKeepsShape(s.q, s.m);
    assert s.q[..0] == [];
    JoinedExtends(Purged(s.q, s.m), s.m, order);
    hide Purged, Joined, ProcessReady, Alive, SkipToReady, Budget, Grow;
    var r := Refreshed(s.q, s.m, order);
    assert r[0] == r[..|Purged(s.q, s.m)|][0];
    if p :| ProcessReady(s.m, p) {
      ReadyIsAlive(s.m, p);
      var i :| 0 <= i < |r| && r[i].pid == p;
      assert r[i].ready;
    }
  }

  /** A round forgets the utilizations of processes that are gone and keeps all others. */
  lemma UtilizationsAreKept(s: System, order: seq<Pid>, now: int)
    ensures var after := AfterRound(s, order, now).utils;
            && (forall p :: p in after <==> p in s.utils && p in s.m.procs) && (forall p :: p in after ==> after[p] == s.utils[p])
            && AfterRound(s, order, now).average == s.average
  {
    hide Refreshed, Decide, MarkedRunning, Rebuilt, Exclusive;
  }
}
