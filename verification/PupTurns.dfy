/** Who gets a turn when: a process that stays ready is never overtaken and never starves. */
module PupTurns {
  import opened Options
  import opened Mirror
  import opened Policies
  import opened Walks
  import opened Pup
  import opened PupTheorems

  /** `r` has no entry in front of an entry of `p`. */
  predicate NotAhead(q: seq<RunEntry>, r: Pid, p: Pid) {
    forall i, j :: 0 <= i < j < |q| && q[i].pid == r ==> q[j].pid != p
  }

  /** `p` has its entry at `i` and does not have its turn. */
  predicate WaitsAt(q: seq<RunEntry>, p: Pid, i: nat) {
    i < |q| && q[i].pid == p && !q[i].running
  }

  /** How long `p` waits at most: the entries in front of it, and one more turn when nobody runs. */
  function Distance(q: seq<RunEntry>, i: nat): nat {
    i + if q != [] && q[0].running then 0 else 1
  }

  lemma PurgedKeepsOrder(q: seq<RunEntry>, m: Mirror, r: Pid, p: Pid)
    requires NotAhead(q, r, p)
    ensures NotAhead(Purged(q, m), r, p)
  {
    hide Purged, Alive, ProcessReady, Kept;
    var s := Purged(q, m);
    forall a, b | 0 <= a < b < |s| && s[a].pid == r ensures s[b].pid != p {
      var i := PurgedOrigin(q, m, a);
      var j := PurgedOrigin(q, m, b);
      if j <= i { KeptIsMonotone(q, m, j, i); }
    }
  }

  /** A ready process that waits keeps waiting, no further back than before, when the queue is refreshed. */
  lemma RefreshedKeepsWaiting(q: seq<RunEntry>, m: Mirror, order: seq<Pid>, p: Pid, i: nat) returns (k: nat)
    requires PidsDistinct(q) && OnlyFrontRuns(q) && WaitsAt(q, p, i) && Alive(m, p)
    ensures var r := Refreshed(q, m, order); WaitsAt(r, p, k) && Distance(r, k) <= Distance(q, i)
  {
    var s, r := Purged(q, m), Refreshed(q, m, order);
    PurgedPosition(q, m, i);
    hide Alive, ProcessReady, Joined;
    PurgedKeepsShape(q, m);
    JoinedExtends(s, m, order);
    k := Kept(q, m, i);
    assert r[k] == r[..|s|][k] && r[0] == r[..|s|][0];
    assert q[..0] == [];
    if Alive(m, q[0].pid) {
      PurgedPosition(q, m, 0);
    } else if i > 0 {
      FrontLeaves(q, m, i);
    }
  }

  /** If the first entry leaves, everyone moves up. */
  lemma {:induction false} FrontLeaves(q: seq<RunEntry>, m: Mirror, i: nat)
    requires 0 < i <= |q| && !Alive(m, q[0].pid)
    ensures Kept(q, m, i) < i
    decreases i
  {
    hide Alive, ProcessReady;
    assert q[..i][..i - 1] == q[..i - 1];
    if i == 1 {
      assert Purged(q[..1][..0], m) == [];
      assert q[..1][0] == q[0];
    } else {
      FrontLeaves(q, m, i - 1);
    }
  }

  lemma RefreshedKeepsOrder(q: seq<RunEntry>, m: Mirror, order: seq<Pid>, r: Pid, p: Pid, k: nat)
    requires PidsDistinct(q) && NotAhead(q, r, p) && Alive(m, p) && k < |q| && q[k].pid == p
    ensures NotAhead(Refreshed(q, m, order), r, p)
  {
    var s, f := Purged(q, m), Refreshed(q, m, order);
    PurgedPosition(q, m, k);
    hide Purged, Joined, Alive, ProcessReady;
    PurgedKeepsShape(q, m);
    PurgedKeepsOrder(q, m, r, p);
    JoinedExtends(s, m, order);
    assert p in Pids(s) by { assert s[Kept(q, m, k)].pid == p; }
    forall a, b | 0 <= a < b < |f| && f[a].pid == r ensures f[b].pid != p {
      if b < |s| { assert f[a] == f[..|s|][a] && f[b] == f[..|s|][b]; }
    }
  }

  /** Rotating somebody else to the end moves `p` up and lets nobody past it. */
  lemma RotationKeepsWaiting(q: seq<RunEntry>, e: RunEntry, r: Pid, p: Pid, i: nat)
    requires 0 < i && WaitsAt(q, p, i) && NotAhead(q, r, p) && e.pid == q[0].pid && q[0].pid != p
    ensures WaitsAt(q[1..] + [e], p, i - 1) && NotAhead(q[1..] + [e], r, p)
  {
  }

  /** Skipping processes that are not ready never reaches past `p`, which is. */
  lemma {:induction false} SkipKeepsWaiting(q: seq<RunEntry>, utils: map<Pid, int>, average: int, r: Pid, p: Pid, i: nat)
    returns (k: nat)
    requires AnyReady(q) && PidsDistinct(q) && WaitsAt(q, p, i) && NotAhead(q, r, p) && q[i].ready
    ensures var s := SkipToReady(q, utils, average); WaitsAt(s, p, k) && NotAhead(s, r, p) && k <= i
    decreases FirstReady(q)
  {
    if q[0].ready {
      k := i;
    } else {
      hide Budget, FirstReady, AnyReady, NotAhead;
      var s := Skipped(q, utils, average);
      SkippingNearsReady(q, utils, average);
      RotationKeepsWaiting(q, s[|q| - 1], r, p, i);
      RotateEntry(q, s[|q| - 1]);
      k := SkipKeepsWaiting(s, utils, average, r, p, i - 1);
    }
  }

  /** A switch brings `p` closer to its turn or gives it its turn. */
  lemma SwitchKeepsWaiting(q: seq<RunEntry>, utils: map<Pid, int>, average: int, sliceEnd: int, now: int,
                           r: Pid, p: Pid, i: nat) returns (k: nat)
    requires PidsDistinct(q) && OnlyFrontRuns(q) && WaitsAt(q, p, i) && NotAhead(q, r, p) && q[i].ready
    requires Decide(q, utils, average, sliceEnd, now).Switch?
    ensures var s := Decide(q, utils, average, sliceEnd, now).queue;
            && s != [] && WaitsAt(s, p, k) && NotAhead(s, r, p) && k < Distance(q, i)
  {
    SwitchShape(q, utils, average, sliceEnd, now);
    OfferedKeepsShape(q, sliceEnd, now);
    var o := Offered(q, sliceEnd, now);
    hide Budget, FirstReady, SkipToReady, NotAhead;
    if q[0].running {
      RotationKeepsWaiting(q, o[|q| - 1], r, p, i);
      k := SkipKeepsWaiting(o, utils, average, r, p, i - 1);
    } else {
      k := SkipKeepsWaiting(o, utils, average, r, p, i);
    }
  }

  /** `p` has its turn. */
  predicate HasTurn(q: seq<RunEntry>, p: Pid) {
    q != [] && q[0].pid == p && q[0].running
  }

  lemma MarkingKeepsWaiting(q: seq<RunEntry>, r: Pid, p: Pid, k: nat)
    requires PidsDistinct(q) && WaitsAt(q, p, k) && NotAhead(q, r, p)
    ensures var t := MarkedRunning(q, q[0].pid);
            if k == 0 then HasTurn(t, p) else WaitsAt(t, p, k) && NotAhead(t, r, p) && t[0].running && t[0].pid != p
  {
    assert k > 0 ==> q[0].pid != q[k].pid;
  }

  lemma ReadyIsAlive(m: Mirror, p: Pid)
    requires ProcessReady(m, p)
    ensures Alive(m, p)
  {
  }

  /** One round while `p` is ready: `p` gets its turn, or it goes on waiting with nobody past it,
      closer by one if the turn changed. */
  lemma RoundKeepsWaiting(s: System, order: seq<Pid>, now: int, r: Pid, p: Pid, i: nat) returns (k: nat)
    requires SystemOk(s) && Enumerates(order, s.m.procs.Keys)
    requires WaitsAt(s.q, p, i) && NotAhead(s.q, r, p) && ProcessReady(s.m, p)
    ensures var s' := AfterRound(s, order, now);
            HasTurn(s'.q, p)
            || (WaitsAt(s'.q, p, k) && NotAhead(s'.q, r, p)
                && Distance(s'.q, k) + (if TurnOf(s, order, now).Switch? then 1 else 0) <= Distance(s.q, i))
  {
    ReadyIsAlive(s.m, p);
    hide Refreshed, Decide, PidsDistinct, OnlyFrontRuns, NotAhead, Enumerates, MirrorOk, ProcessReady, Alive, MarkedRunning;
    var q := Refreshed(s.q, s.m, order);
    RefreshedKeepsShape(s.q, s.m, order);
    k := RefreshedKeepsWaiting(s.q, s.m, order, p, i);
    RefreshedKeepsOrder(s.q, s.m, order, r, p, i);
    if TurnOf(s, order, now).Switch? {
      SwitchShape(q, KnownUtils(s.utils, s.m), s.average, s.sliceEnd, now);
      k := SwitchKeepsWaiting(q, KnownUtils(s.utils, s.m), s.average, s.sliceEnd, now, r, p, k);
      MarkingKeepsWaiting(TurnOf(s, order, now).queue, r, p, k);
    }
  }

  /** Events and hints leave the run queue alone. */
  lemma OtherInputsKeepQueue(s: System, input: Input)
    requires !input.Round? && StepOf(s, input).Some?
    ensures StepOf(s, input).value.q == s.q
  {
  }

  /** `p` is ready at every round from input `from` on. */
  ghost predicate StaysReady(inputs: seq<Input>, from: nat, p: Pid) {
    forall k :: from <= k < |inputs| && inputs[k].Round? ==>
      SystemAfter(inputs[..k]).Some? && ProcessReady(SystemAfter(inputs[..k]).value.m, p)
  }

  /** `p` has had its turn at some point after the first `from` inputs. */
  ghost predicate HadTurn(inputs: seq<Input>, from: nat, p: Pid) {
    exists k :: from < k <= |inputs| && SystemAfter(inputs[..k]).Some? && HasTurn(SystemAfter(inputs[..k]).value.q, p)
  }

  /** How many rounds from input `from` on gave a process a new time slice. */
  ghost function Turns(inputs: seq<Input>, from: nat): nat {
    if |inputs| <= from then 0 else
      var rest, input := inputs[..|inputs| - 1], inputs[|inputs| - 1];
      Turns(rest, from)
      + if input.Round? && SystemAfter(rest).Some? && TurnOf(SystemAfter(rest).value, input.order, input.now).Switch? then 1 else 0
  }

  lemma PrefixFacts(inputs: seq<Input>, from: nat, p: Pid)
    requires from < |inputs| && StaysReady(inputs, from, p)
    ensures var rest := inputs[..|inputs| - 1];
            StaysReady(rest, from, p) && rest[..from] == inputs[..from] && (HadTurn(rest, from, p) ==> HadTurn(inputs, from, p))
  {
    hide SystemAfter, ProcessReady;
    var rest := inputs[..|inputs| - 1];
    forall k | 0 <= k <= |rest| ensures rest[..k] == inputs[..k] {
    }
    forall k | 0 <= k < |rest| ensures rest[k] == inputs[k] {
    }
  }

  /** Never overtaken, never starved. Say `p` waits at position `i` and `r` has no entry in front
      of it, or none at all. As long as `p` is ready at every round, either it has had its turn,
      or `r` still is not in front of it and does not run, and fewer turns were given than the
      number of entries in front of `p` and one. */
  lemma {:induction false} NeverOvertaken(inputs: seq<Input>, from: nat, r: Pid, p: Pid, i: nat) returns (k: nat)
    requires from <= |inputs| && SystemAfter(inputs).Some? && SystemAfter(inputs[..from]).Some? && r != p
    requires var s := SystemAfter(inputs[..from]).value; WaitsAt(s.q, p, i) && NotAhead(s.q, r, p)
    requires StaysReady(inputs, from, p)
    ensures HadTurn(inputs, from, p)
            || (var s := SystemAfter(inputs).value;
                && WaitsAt(s.q, p, k) && NotAhead(s.q, r, p) && !HasTurn(s.q, r)
                && Turns(inputs, from) + Distance(s.q, k) <= i + 1)
  {
    if from == |inputs| {
      k := i;
      assert inputs[..from] == inputs;
    } else {
      var rest, input := inputs[..|inputs| - 1], inputs[|inputs| - 1];
      PrefixFacts(inputs, from, p);
      k := NeverOvertaken(rest, from, r, p, i);
      if !HadTurn(rest, from, p) {
        RunQueueKeepsShape(rest);
        var s, s' := SystemAfter(rest).value, SystemAfter(inputs).value;
        hide WaitsAt, NotAhead, HasTurn, SystemOk, Enumerates, AfterRound, ProcessReady, TurnOf, Distance;
        if input.Round? {
          k := RoundKeepsWaiting(s, input.order, input.now, r, p, k);
          if HasTurn(s'.q, p) {
            assert inputs[..|inputs|] == inputs;
          }
        } else {
          OtherInputsKeepQueue(s, input);
        }
        if WaitsAt(s'.q, p, k) && NotAhead(s'.q, r, p) { BehindDoesNotRun(s'.q, r, p, k); }
      }
    }
  }

  lemma BehindDoesNotRun(q: seq<RunEntry>, r: Pid, p: Pid, k: nat)
    requires WaitsAt(q, p, k) && NotAhead(q, r, p) && r != p
    ensures !HasTurn(q, r)
  {
  }

  /** A process that has its turn, is ready and has time left stays at the front of the refreshed queue. */
  lemma TurnIsKept(s: System, order: seq<Pid>, now: int, p: Pid)
    requires SystemOk(s) && Enumerates(order, s.m.procs.Keys)
    requires HasTurn(s.q, p) && ProcessReady(s.m, p) && s.sliceEnd > now
    ensures TurnOf(s, order, now) == Stay && HasTurn(AfterRound(s, order, now).q, p)
    ensures AfterRound(s, order, now).m == s.m
  {
    ReadyIsAlive(s.m, p);
    PurgedPosition(s.q, s.m, 0);
    PurgedKeepsShape(s.q, s.m);
    assert s.q[..0] == [];
    JoinedExtends(Purged(s.q, s.m), s.m, order);
    hide Alive, ProcessReady, Joined;
    var f := Refreshed(s.q, s.m, order);
    assert f[0] == f[..|Purged(s.q, s.m)|][0];
  }

  /** A turn is exclusive only when it begins: a queue that another process makes known during it
      is not suspended before the next switch. */
  lemma NewQueueRunsBesideTheTurn(inputs: seq<Input>, p: Pid, other: Pid, h: Handle, order: seq<Pid>, now: int)
    requires var all := inputs + [Take(XQueueReady(other, h, now), now), Round(order, now)]; SystemAfter(all).Some?
    requires SystemAfter(inputs).Some?
    requires var s := SystemAfter(inputs).value;
             HasTurn(s.q, p) && ProcessReady(s.m, p) && s.sliceEnd > now && h !in s.m.xqs && other != p
    ensures var s := SystemAfter(inputs + [Take(XQueueReady(other, h, now), now), Round(order, now)]).value;
            && HasTurn(s.q, p) && h in s.m.xqs
            && s.m.xqs[h].ready && !s.m.xqs[h].suspended && s.m.xqs[h].pid == other
  {
    var take, round := Take(XQueueReady(other, h, now), now), Round(order, now);
    var all := inputs + [take, round];
    assert all[..|all| - 1] == inputs + [take];
    assert (inputs + [take])[..|inputs|] == inputs;
    var s := SystemAfter(inputs).value;
    var s1 := SystemAfter(inputs + [take]).value;
    RunQueueKeepsShape(inputs + [take]);
    var g :| g in s.m.procs[p].running + s.m.procs[p].parked && g in s.m.xqs && s.m.xqs[g].ready;
    assert g in s1.m.procs[p].running + s1.m.procs[p].parked && g in s1.m.xqs && s1.m.xqs[g].ready;
    TurnIsKept(s1, order, now, p);
  }
}
