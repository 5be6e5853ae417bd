/** The completely fair policy: every queue carries a virtual runtime, and on every device the
    ready queue with the least of it runs. */
module Cfs {
  import opened Sequences
  import opened Options
  import opened Mirror
  import opened Policies
  import opened Walks

  type Weight = w: real | w > 0.0 witness 1024.0

  const BASE: Weight := 1024.0
  const TIME_SLICE := 1000

  datatype CfsNode = CfsNode(weight: Weight, vruntime: real, lastResume: int, running: bool, priority: int)

  const DEFAULT_NODE := CfsNode(BASE, 0.0, 0, false, 0)

  function PowerOf12(n: nat): Weight {
    if n == 0 then 1.0 else 1.2 * PowerOf12(n - 1)
  }

  function WeightFor(priority: int): Weight {
    if priority >= 0 then BASE * PowerOf12(priority) else BASE / PowerOf12(-priority)
  }

  function Charge(node: CfsNode, now: int): CfsNode {
    node.(vruntime := node.vruntime + (now - node.lastResume) as real * (BASE / node.weight))
  }

  /** The queues that were running have their time added to their virtual runtime. */
  function Charged(infos: map<Handle, CfsNode>, walked: seq<Handle>, now: int): map<Handle, CfsNode> {
    map h | h in infos :: if h in walked && infos[h].running then Charge(infos[h], now) else infos[h]
  }

  /** The least virtual runtime of the known ready queues of a device. */
  function Floor(infos: map<Handle, CfsNode>, xqs: map<Handle, XQueueStatus>, walked: seq<Handle>, d: Device): Option<real> {
    if walked == [] then None else
      var floor, h := Floor(infos, xqs, walked[..|walked| - 1], d), walked[|walked| - 1];
      if ReadyOn(xqs, h, d) && h in infos && (floor.None? || infos[h].vruntime < floor.value)
      then Some(infos[h].vruntime) else floor
  }

  /** A queue seen for the first time starts level with the least of its device. */
  function Newcomer(floor: Option<real>, now: int): CfsNode {
    CfsNode(BASE, if floor.Some? then floor.value else 0.0, now, false, 0)
  }

  function Enrolled(infos: map<Handle, CfsNode>, xqs: map<Handle, XQueueStatus>, order: seq<Handle>,
                    walked: seq<Handle>, now: int): map<Handle, CfsNode> {
    map h | h in infos.Keys + (set g | g in walked && g in xqs && xqs[g].ready) ::
      if h in infos then infos[h] else Newcomer(Floor(infos, xqs, order, xqs[h].device), now)
  }

  /** Every ready queue has an entry. */
  predicate Covers(infos: map<Handle, CfsNode>, xqs: map<Handle, XQueueStatus>) {
    forall h :: h in xqs && xqs[h].ready ==> h in infos
  }

  /** The first of the ready queues of a device with the least virtual runtime. */
  function Pick(infos: map<Handle, CfsNode>, xqs: map<Handle, XQueueStatus>, walked: seq<Handle>, d: Device): (p: Option<Handle>)
    requires Covers(infos, xqs)
    ensures p.Some? ==> p.value in walked && ReadyOn(xqs, p.value, d)
  {
    if walked == [] then None else
      var p, h := Pick(infos, xqs, walked[..|walked| - 1], d), walked[|walked| - 1];
      if ReadyOn(xqs, h, d) && (p.None? || infos[h].vruntime < infos[p.value].vruntime) then Some(h) else p
  }

  function NodeOf(infos: map<Handle, CfsNode>, h: Handle): CfsNode {
    if h in infos then infos[h] else DEFAULT_NODE
  }

  /** What a round leaves in the entry of a queue. */
  function Settle(node: CfsNode, ready: bool, chosen: bool, now: int): CfsNode {
    if ready && chosen then node.(running := true, lastResume := now) else node.(running := false)
  }

  function Settled(infos: map<Handle, CfsNode>, xqs: map<Handle, XQueueStatus>, order: seq<Handle>,
                   walked: seq<Handle>, now: int): map<Handle, CfsNode>
    requires Covers(infos, xqs)
  {
    map h | h in infos.Keys + (set g | g in walked && g in xqs) ::
      if h in walked && h in xqs
      then Settle(NodeOf(infos, h), xqs[h].ready, Pick(infos, xqs, order, xqs[h].device) == Some(h), now)
      else NodeOf(infos, h)
  }

  /** The winner of a device is resumed unless it runs already; the other ready queues are
      suspended; a queue that is not ready is left alone. */
  function VerdictOn(node: CfsNode, ready: bool, chosen: bool): Verdict {
    if !ready then Leave else if !chosen then ToPark else if node.running then Leave else ToRun
  }

  function Verdicts(infos: map<Handle, CfsNode>, xqs: map<Handle, XQueueStatus>, order: seq<Handle>): map<Handle, Verdict>
    requires Covers(infos, xqs)
  {
    map h | h in xqs ::
      VerdictOn(NodeOf(infos, h), xqs[h].ready, Pick(infos, xqs, order, xqs[h].device) == Some(h))
  }

  /** The entries a round decides on: charged, and with every ready queue enrolled. */
  function Prepared(infos: map<Handle, CfsNode>, xqs: map<Handle, XQueueStatus>, order: seq<Handle>, now: int):
    (r: map<Handle, CfsNode>)
    requires Enumerates(order, xqs.Keys)
    ensures Covers(r, xqs)
  {
    Enrolled(Charged(infos, order, now), xqs, order, order, now)
  }

  /** `chosen` holds the pick of every device that has one. */
  ghost predicate PicksAre(infos: map<Handle, CfsNode>, xqs: map<Handle, XQueueStatus>, walked: seq<Handle>,
                           chosen: map<Device, Handle>)
    requires Covers(infos, xqs)
  {
    && (forall d :: Pick(infos, xqs, walked, d) == if d in chosen then Some(chosen[d]) else None)
    && (forall d :: d in chosen ==> chosen[d] in walked && ReadyOn(xqs, chosen[d], d))
  }

  lemma NoPicks(infos: map<Handle, CfsNode>, xqs: map<Handle, XQueueStatus>)
    requires Covers(infos, xqs)
    ensures PicksAre(infos, xqs, [], map[])
  {
  }

  lemma PicksStep(infos: map<Handle, CfsNode>, xqs: map<Handle, XQueueStatus>, walked: seq<Handle>, h: Handle,
                  chosen: map<Device, Handle>)
    requires Covers(infos, xqs) && PicksAre(infos, xqs, walked, chosen) && h in xqs
    ensures var d := xqs[h].device;
            PicksAre(infos, xqs, walked + [h],
              if xqs[h].ready && (d !in chosen || infos[h].vruntime < infos[chosen[d]].vruntime)
              then chosen[d := h] else chosen)
  {
    assert (walked + [h])[..|walked|] == walked;
  }

  lemma NewcomerFloor(a: Option<real>, b: Option<real>, now: int)
    requires a == b || (a.None? && b == Some(0.0))
    ensures Newcomer(a, now) == Newcomer(b, now)
  {
  }

  lemma EnrolledNothing(infos: map<Handle, CfsNode>, xqs: map<Handle, XQueueStatus>, order: seq<Handle>, now: int)
    ensures Enrolled(infos, xqs, order, [], now) == infos
  {
  }

  lemma EnrolledStep(infos: map<Handle, CfsNode>, xqs: map<Handle, XQueueStatus>, order: seq<Handle>,
                     walked: seq<Handle>, h: Handle, now: int)
    requires h in xqs
    ensures var before, after := Enrolled(infos, xqs, order, walked, now), Enrolled(infos, xqs, order, walked + [h], now);
            after == if !xqs[h].ready || h in before then before
                     else before[h := Newcomer(Floor(infos, xqs, order, xqs[h].device), now)]
  {
  }

  /** Enrolling never changes an entry, and walking over everything enrolls every ready queue. */
  lemma EnrolledCovers(infos: map<Handle, CfsNode>, xqs: map<Handle, XQueueStatus>, order: seq<Handle>,
                       walked: seq<Handle>, now: int)
    requires Enumerates(order, xqs.Keys) && forall h :: h in walked ==> h in order
    ensures Covers(Enrolled(infos, xqs, order, order, now), xqs)
    ensures forall h :: h in walked && xqs[h].ready ==>
              h in Enrolled(infos, xqs, order, walked, now)
              && Enrolled(infos, xqs, order, walked, now)[h] == Enrolled(infos, xqs, order, order, now)[h]
  {
  }

  datatype Walk = Walk(infos: map<Handle, CfsNode>, floors: map<Device, real>, chosen: map<Device, Handle>)

  predicate PicksKnown(infos: map<Handle, CfsNode>, chosen: map<Device, Handle>) {
    forall d :: d in chosen ==> chosen[d] in infos
  }

  /** One turn of that walk: `h` is enrolled if it is ready and new, and competes for its device. */
  function Turn(infos: map<Handle, CfsNode>, st: XQueueStatus, floors: map<Device, real>, chosen: map<Device, Handle>,
                h: Handle, now: int): Walk
    requires PicksKnown(infos, chosen)
  {
    if !st.ready then Walk(infos, floors, chosen) else
      var d := st.device;
      var floors' := if h in infos || d in floors then floors else floors[d := 0.0];
      var infos' := if h in infos then infos
                    else infos[h := Newcomer(if d in floors then Some(floors[d]) else None, now)];
      var wins := d !in chosen || infos'[h].vruntime < infos'[chosen[d]].vruntime;
      Walk(infos', floors', if wins then chosen[d := h] else chosen)
  }

  /** The state of the walk that enrolls newcomers and picks queues. */
  ghost predicate MidWalk(before: map<Handle, CfsNode>, infos: map<Handle, CfsNode>, xqs: map<Handle, XQueueStatus>,
                          order: seq<Handle>, walked: seq<Handle>, known: map<Device, real>,
                          floors: map<Device, real>, chosen: map<Device, Handle>, now: int)
  {
    && Enumerates(order, xqs.Keys) && (forall h :: h in walked ==> h in order)
    && Covers(Enrolled(before, xqs, order, order, now), xqs)
    && infos == Enrolled(before, xqs, order, walked, now)
    && (forall d :: Floor(before, xqs, order, d) == if d in known then Some(known[d]) else None)
    && (forall d :: if d in known then d in floors && floors[d] == known[d] else d in floors ==> floors[d] == 0.0)
    && PicksAre(Enrolled(before, xqs, order, order, now), xqs, walked, chosen)
  }

  lemma StartWalk(infos: map<Handle, CfsNode>, xqs: map<Handle, XQueueStatus>, order: seq<Handle>,
                  known: map<Device, real>, now: int)
    requires Enumerates(order, xqs.Keys)
    requires forall d :: Floor(infos, xqs, order, d) == if d in known then Some(known[d]) else None
    ensures MidWalk(infos, infos, xqs, order, [], known, known, map[], now)
  {
    EnrolledNothing(infos, xqs, order, now);
    EnrolledCovers(infos, xqs, order, order, now);
    NoPicks(Enrolled(infos, xqs, order, order, now), xqs);
  }

  lemma WalkOn(before: map<Handle, CfsNode>, infos: map<Handle, CfsNode>, xqs: map<Handle, XQueueStatus>,
               order: seq<Handle>, walked: seq<Handle>, known: map<Device, real>,
               floors: map<Device, real>, chosen: map<Device, Handle>, now: int, h: Handle)
    requires MidWalk(before, infos, xqs, order, walked, known, floors, chosen, now) && h in order
    ensures h in xqs && PicksKnown(infos, chosen)
    ensures var t := Turn(infos, xqs[h], floors, chosen, h, now);
            MidWalk(before, t.infos, xqs, order, walked + [h], known, t.floors, t.chosen, now)
  {
    hide Enrolled, Floor, Newcomer, Pick;
    var d := xqs[h].device;
    EnrolledStep(before, xqs, order, walked, h, now);
    EnrolledCovers(before, xqs, order, walked + [h], now);
    EnrolledCovers(before, xqs, order, walked, now);
    NewcomerFloor(Floor(before, xqs, order, d), if d in floors then Some(floors[d]) else None, now);
    PicksStep(Enrolled(before, xqs, order, order, now), xqs, walked, h, chosen);
  }

  lemma EndWalk(before: map<Handle, CfsNode>, infos: map<Handle, CfsNode>, xqs: map<Handle, XQueueStatus>,
                order: seq<Handle>, known: map<Device, real>, floors: map<Device, real>, chosen: map<Device, Handle>, now: int)
    requires MidWalk(before, infos, xqs, order, order, known, floors, chosen, now)
    ensures infos == Enrolled(before, xqs, order, order, now)
    ensures Covers(infos, xqs) && PicksAre(infos, xqs, order, chosen)
  {
  }

  /** The state of the walk that carries the decisions out. */
  ghost predicate Settling(before: map<Handle, CfsNode>, infos: map<Handle, CfsNode>, m: Mirror, n: Mirror,
                           order: seq<Handle>, walked: seq<Handle>, chosen: map<Device, Handle>, now: int)
  {
    && Enumerates(order, m.xqs.Keys) && MirrorOk(m) && Covers(before, m.xqs)
    && PicksAre(before, m.xqs, order, chosen) && (forall h :: h in walked ==> h in m.xqs)
    && infos == Settled(before, m.xqs, order, walked, now)
    && n == Carried(m, walked, Verdicts(before, m.xqs, order))
  }

  lemma StartSettling(infos: map<Handle, CfsNode>, m: Mirror, order: seq<Handle>, chosen: map<Device, Handle>, now: int)
    requires Enumerates(order, m.xqs.Keys) && MirrorOk(m) && Covers(infos, m.xqs) && PicksAre(infos, m.xqs, order, chosen)
    ensures Settling(infos, infos, m, m, order, [], chosen, now)
  {
    hide MirrorOk, Enumerates, Pick;
    assert Settled(infos, m.xqs, order, [], now) == infos;
  }

  lemma {:induction false} ReadyIsPicked(infos: map<Handle, CfsNode>, xqs: map<Handle, XQueueStatus>, walked: seq<Handle>,
                                         h: Handle, d: Device)
    requires Covers(infos, xqs) && h in walked && ReadyOn(xqs, h, d)
    ensures Pick(infos, xqs, walked, d).Some?
  {
    var last := walked[|walked| - 1];
    if last != h {
      assert walked == walked[..|walked| - 1] + [last];
      ReadyIsPicked(infos, xqs, walked[..|walked| - 1], h, d);
    }
  }

  lemma SettledStep(infos: map<Handle, CfsNode>, xqs: map<Handle, XQueueStatus>, order: seq<Handle>, walked: seq<Handle>,
                    h: Handle, now: int)
    requires Covers(infos, xqs) && h in xqs && h !in walked
    ensures var before := Settled(infos, xqs, order, walked, now);
            && NodeOf(before, h) == NodeOf(infos, h) && (h in infos ==> h in before)
            && Settled(infos, xqs, order, walked + [h], now)
               == before[h := Settle(NodeOf(infos, h), xqs[h].ready, Pick(infos, xqs, order, xqs[h].device) == Some(h), now)]
  {
    hide Pick, Settle;
  }

  lemma SettleOn(before: map<Handle, CfsNode>, infos: map<Handle, CfsNode>, m: Mirror, n: Mirror,
                 order: seq<Handle>, walked: seq<Handle>, chosen: map<Device, Handle>, now: int, h: Handle)
    requires Settling(before, infos, m, n, order, walked, chosen, now)
    requires h in m.xqs && h !in walked && Distinct(walked)
    ensures h in n.xqs && (n.xqs[h].ready ==> h in infos && n.xqs[h].device in chosen)
    ensures var st := n.xqs[h];
            var wins := st.ready && chosen[st.device] == h;
            Settling(before, infos[h := Settle(NodeOf(infos, h), st.ready, wins, now)],
              m, CarriedOne(n, h, VerdictOn(NodeOf(infos, h), st.ready, wins)), order, walked + [h], chosen, now)
  {
    hide MirrorOk, Pick, Settle, VerdictOn, CarriedOne, Settled;
    var st := m.xqs[h];
    CarriedFlags(m, walked, Verdicts(before, m.xqs, order));
    SettledStep(before, m.xqs, order, walked, h, now);
    if st.ready { ReadyIsPicked(before, m.xqs, order, h, st.device); }
    assert (walked + [h])[..|walked|] == walked;
  }

  lemma EndSettling(before: map<Handle, CfsNode>, infos: map<Handle, CfsNode>, m: Mirror, n: Mirror,
                    order: seq<Handle>, chosen: map<Device, Handle>, now: int)
    requires Settling(before, infos, m, n, order, order, chosen, now)
    ensures Covers(before, m.xqs) && infos == Settled(before, m.xqs, order, order, now)
    ensures n == Carried(m, order, Verdicts(before, m.xqs, order))
  {
  }

  lemma PreparedIs(infos: map<Handle, CfsNode>, xqs: map<Handle, XQueueStatus>, order: seq<Handle>, now: int)
    requires Enumerates(order, xqs.Keys)
    ensures Prepared(infos, xqs, order, now) == Enrolled(Charged(infos, order, now), xqs, order, order, now)
  {
  }

  lemma ChargedNothing(infos: map<Handle, CfsNode>, now: int)
    ensures Charged(infos, [], now) == infos
  {
  }

  lemma ChargedStep(infos: map<Handle, CfsNode>, walked: seq<Handle>, h: Handle, now: int)
    requires h !in walked
    ensures var before := Charged(infos, walked, now);
            Charged(infos, walked + [h], now)
            == if h in before && before[h].running then before[h := Charge(before[h], now)] else before
  {
    hide Charge;
  }

  class CompletelyFairSchedulerPolicy {
    const scheduler: LocalScheduler
    var infos: map<Handle, CfsNode>

    constructor (scheduler: LocalScheduler)
      ensures this.scheduler == scheduler && infos == map[]
    {
      this.scheduler, infos := scheduler, map[];
    }

    method RecvPriorityHint(h: Handle, priority: int)
      modifies this
      ensures infos == old(infos)[h := NodeOf(old(infos), h).(priority := priority, weight := WeightFor(priority))]
    {
      if h !in infos { infos := infos[h := DEFAULT_NODE]; }
      infos := infos[h := infos[h].(priority := priority)];
      infos := infos[h := infos[h].(weight := WeightFor(priority))];
    }

    method UpdateRuntimes(order: seq<Handle>, now: int)
      requires Enumerates(order, scheduler.xqs.Keys)
      modifies `infos
      ensures infos == Charged(old(infos), order, now)
    {
      assert order[..0] == [];
      ChargedNothing(infos, now);
      hide Charged, Enumerates;
      var i := 0;
      while i < |order|
        invariant i <= |order| && infos == Charged(old(infos), order[..i], now)
      {
        var h := order[i];
        WalkedApart(order, scheduler.xqs.Keys, i);
        ChargedStep(old(infos), order[..i], h, now);
        if h in infos && infos[h].running {
          infos := infos[h := Charge(infos[h], now)];
        }
        i := i + 1;
      }
      assert order[..i] == order;
    }

    method FindFloors(order: seq<Handle>) returns (floors: map<Device, real>, hasReady: bool)
      requires Enumerates(order, scheduler.xqs.Keys)
      ensures hasReady <==> exists h :: h in scheduler.xqs && scheduler.xqs[h].ready
      ensures forall d :: Floor(infos, scheduler.xqs, order, d) == if d in floors then Some(floors[d]) else None
    {
      floors, hasReady := map[], false;
      var i := 0;
      while i < |order|
        invariant i <= |order|
        invariant hasReady <==> exists k :: 0 <= k < i && scheduler.xqs[order[k]].ready
        invariant forall d :: Floor(infos, scheduler.xqs, order[..i], d) == if d in floors then Some(floors[d]) else None
      {
        var h := order[i];
        assert order[..i + 1][..i] == order[..i];
        if scheduler.xqs[h].ready {
          hasReady := true;
          var d := scheduler.xqs[h].device;
          if h in infos && (d !in floors || infos[h].vruntime < floors[d]) {
            floors := floors[d := infos[h].vruntime];
          }
        }
        i := i + 1;
      }
      assert order[..i] == order;
    }

    method EnrollAndCompare(h: Handle, known: map<Device, real>, best: map<Device, Handle>, now: int)
      returns (floors: map<Device, real>, chosen: map<Device, Handle>)
      requires h in scheduler.xqs && PicksKnown(infos, best)
      modifies `infos
      ensures Walk(infos, floors, chosen) == Turn(old(infos), scheduler.xqs[h], known, best, h, now)
    {
      floors, chosen := known, best;
      if scheduler.xqs[h].ready {
        var d := scheduler.xqs[h].device;
        if h !in infos {
          infos := infos[h := DEFAULT_NODE];
          infos := infos[h := infos[h].(lastResume := now)];
          if d in floors {
            infos := infos[h := infos[h].(vruntime := floors[d])];
          } else {
            infos := infos[h := infos[h].(vruntime := 0.0)];
          }
          if d !in floors { floors := floors[d := infos[h].vruntime]; }
        }
        if d !in chosen || infos[h].vruntime < infos[chosen[d]].vruntime {
          chosen := chosen[d := h];
        }
      }
    }

    method EnrollAndPick(order: seq<Handle>, known: map<Device, real>, now: int) returns (chosen: map<Device, Handle>)
      requires Enumerates(order, scheduler.xqs.Keys)
      requires forall d :: Floor(infos, scheduler.xqs, order, d) == if d in known then Some(known[d]) else None
      modifies `infos
      ensures infos == Enrolled(old(infos), scheduler.xqs, order, order, now)
      ensures Covers(infos, scheduler.xqs) && PicksAre(infos, scheduler.xqs, order, chosen)
    {
      hide *;
      ghost var xqs := scheduler.xqs;
      StartWalk(infos, xqs, order, known, now);
      assert order[..0] == [];
      var floors := known;
      chosen := map[];
      var i := 0;
      while i < |order|
        invariant i <= |order| && MidWalk(old(infos), infos, xqs, order, order[..i], known, floors, chosen, now)
      {
        assert order[..i + 1] == order[..i] + [order[i]];
        WalkOn(old(infos), infos, xqs, order, order[..i], known, floors, chosen, now, order[i]);
        floors, chosen := EnrollAndCompare(order[i], floors, chosen, now);
        i := i + 1;
      }
      assert order[..i] == order;
      EndWalk(old(infos), infos, xqs, order, known, floors, chosen, now);
    }

    /** Carries the decision about one queue out and records it. */
    method SettleOne(h: Handle, chosen: map<Device, Handle>, now: int)
      requires h in scheduler.xqs && (scheduler.xqs[h].ready ==> h in infos && scheduler.xqs[h].device in chosen)
      modifies `infos, scheduler
      ensures var st := old(scheduler.xqs)[h];
              var wins := st.ready && chosen[st.device] == h;
              var node := NodeOf(old(infos), h);
              && infos == old(infos)[h := Settle(node, st.ready, wins, now)]
              && scheduler.View() == CarriedOne(old(scheduler.View()), h, VerdictOn(node, st.ready, wins))
    {
      var st := scheduler.xqs[h];
      if !st.ready {
        if h !in infos { infos := infos[h := DEFAULT_NODE]; }
        infos := infos[h := infos[h].(running := false)];
      } else if chosen[st.device] == h {
        if !infos[h].running {
          scheduler.Resume(h);
          infos := infos[h := infos[h].(running := true)];
          infos := infos[h := infos[h].(lastResume := now)];
        } else {
          infos := infos[h := infos[h].(lastResume := now)];
        }
      } else {
        scheduler.Suspend(h);
        infos := infos[h := infos[h].(running := false)];
      }
    }

    /** Suspends and resumes queues according to the picks, in the order of the walk. */
    method SettleAll(order: seq<Handle>, chosen: map<Device, Handle>, now: int)
      requires Enumerates(order, scheduler.xqs.Keys) && MirrorOk(scheduler.View())
      requires Covers(infos, scheduler.xqs) && PicksAre(infos, scheduler.xqs, order, chosen)
      modifies `infos, scheduler
      ensures infos == Settled(old(infos), old(scheduler.xqs), order, order, now)
      ensures scheduler.View() == Carried(old(scheduler.View()), order, Verdicts(old(infos), old(scheduler.xqs), order))
    {
      hide MirrorOk, Enumerates, PicksAre, Covers, Settled, Settling, Settle, VerdictOn, Carried, CarriedOne, Verdicts, NodeOf, Pick;
      ghost var before, m := infos, scheduler.View();
      StartSettling(before, m, order, chosen, now);
      assert order[..0] == [];
      var i := 0;
      while i < |order|
        invariant i <= |order| && Settling(before, infos, m, scheduler.View(), order, order[..i], chosen, now)
      {
        WalkedApart(order, m.xqs.Keys, i);
        SettleOn(before, infos, m, scheduler.View(), order, order[..i], chosen, now, order[i]);
        SettleOne(order[i], chosen, now);
        i := i + 1;
      }
      assert order[..i] == order;
      EndSettling(before, infos, m, scheduler.View(), order, chosen, now);
    }

    /** One round: charge what ran, enroll what is new, pick per device, and carry it out.
        The timer for the next round is set exactly when some queue is ready. */
    method Sched(order: seq<Handle>, now: int) returns (timer: Option<int>)
      requires Enumerates(order, scheduler.xqs.Keys) && MirrorOk(scheduler.View())
      modifies `infos, scheduler
      ensures var xqs := old(scheduler.xqs);
              var prepared := Prepared(old(infos), xqs, order, now);
              && infos == Settled(prepared, xqs, order, order, now)
              && scheduler.View() == Carried(old(scheduler.View()), order, Verdicts(prepared, xqs, order))
      ensures timer == if exists h :: h in old(scheduler.xqs) && old(scheduler.xqs)[h].ready then Some(now + TIME_SLICE) else None
    {
      ghost var xqs := scheduler.xqs;
      PreparedIs(infos, xqs, order, now);
      hide MirrorOk, Enumerates, PicksAre, Covers, Settled, Enrolled, Charged, Carried, Verdicts, Pick, Prepared;
      UpdateRuntimes(order, now);
      var floors, hasReady := FindFloors(order);
      var chosen := EnrollAndPick(order, floors, now);
      SettleAll(order, chosen, now);
      timer := if hasReady then Some(now + TIME_SLICE) else None;
    }
  }
}
