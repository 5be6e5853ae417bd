/** The SLO policy: on every device an urgent queue goes first, then a latency-sensitive one,
    then the batch queue that has had least. */
module Slo {
  import opened Sequences
  import opened Options
  import opened Mirror
  import opened Policies
  import opened Walks

  const PRIORITY_MIN := -255
  const PRIORITY_DEFAULT := 0
  const PRIORITY_MAX := 255
  const NO_DEADLINE := -1
  const UTILIZATION_MIN := 0
  const UTILIZATION_DEFAULT := 100
  const UTILIZATION_MAX := 100
  const TIMESLICE_MIN := 100
  const TIMESLICE_DEFAULT := 5000
  const TIMESLICE_MAX := 100000

  datatype QueueInfo = QueueInfo(priority: int, deadline: int, utilization: int, vruntime: real, running: bool, lastResume: int)

  datatype Hint =
    | PriorityHint(handle: Handle, priority: int)
    | DeadlineHint(handle: Handle, deadline: int)
    | UtilizationHint(pid: Pid, handle: Handle, utilization: int)
    | TimesliceHint(timeslice: int)
    | OtherHint

  function FirstInfo(now: int): QueueInfo {
    QueueInfo(PRIORITY_DEFAULT, NO_DEADLINE, UTILIZATION_DEFAULT, 0.0, false, now)
  }

  function Clamp(x: int, low: int, high: int): int {
    if x < low then low else if x > high then high else x
  }

  /** The share of a queue: its process's, if one was set for it, else its own. */
  function Utilization(utils: map<Pid, int>, st: XQueueStatus, info: QueueInfo): int {
    Clamp(if st.pid in utils then utils[st.pid] else info.utilization, UTILIZATION_MIN, UTILIZATION_MAX)
  }

  predicate LatencySensitive(info: QueueInfo) {
    info.deadline != NO_DEADLINE || info.priority > PRIORITY_DEFAULT
  }

  /** The time left until the deadline; nothing stands for no deadline, which is infinitely far. */
  function Slack(st: XQueueStatus, info: QueueInfo, now: int): Option<int> {
    if info.deadline == NO_DEADLINE then None else Some(info.deadline - (now - st.readyTime))
  }

  predicate Sooner(a: Option<int>, b: Option<int>) {
    a.Some? && (b.None? || a.value < b.value)
  }

  predicate Urgent(st: XQueueStatus, info: QueueInfo, now: int, tick: int) {
    info.deadline != NO_DEADLINE && info.deadline - (now - st.readyTime) <= tick
  }

  function InfoOf(infos: map<Handle, QueueInfo>, h: Handle, now: int): QueueInfo {
    if h in infos then infos[h] else FirstInfo(now)
  }

  /** A running queue is charged for the time since it was last charged, more the smaller its share. */
  function Charge(info: QueueInfo, util: int, now: int): QueueInfo {
    var elapsed := now - info.lastResume;
    if !info.running || elapsed <= 0 then info
    else info.(vruntime := info.vruntime
                 + elapsed as real * (UTILIZATION_DEFAULT as real / (if util > 1 then util else 1) as real),
               lastResume := now)
  }

  function Charged(infos: map<Handle, QueueInfo>, xqs: map<Handle, XQueueStatus>, utils: map<Pid, int>,
                   walked: seq<Handle>, now: int): map<Handle, QueueInfo>
  {
    map h | h in infos.Keys + (set g | g in walked && g in xqs) ::
      var info := InfoOf(infos, h, now);
      if h in walked && h in xqs then Charge(info, Utilization(utils, xqs[h], info), now) else info
  }

  predicate Covers(infos: map<Handle, QueueInfo>, xqs: map<Handle, XQueueStatus>) {
    forall h :: h in xqs ==> h in infos
  }

  /** Whether urgent `a` goes before urgent `b`: less slack, then more priority. */
  predicate MoreUrgent(infos: map<Handle, QueueInfo>, xqs: map<Handle, XQueueStatus>, now: int, a: Handle, b: Handle)
    requires Covers(infos, xqs) && a in xqs && b in xqs
  {
    var s, t := Slack(xqs[a], infos[a], now), Slack(xqs[b], infos[b], now);
    Sooner(s, t) || (s == t && infos[a].priority > infos[b].priority)
  }

  /** Whether latency-sensitive `a` goes before latency-sensitive `b`: more priority, then less slack. */
  predicate MoreSensitive(infos: map<Handle, QueueInfo>, xqs: map<Handle, XQueueStatus>, now: int, a: Handle, b: Handle)
    requires Covers(infos, xqs) && a in xqs && b in xqs
  {
    infos[a].priority > infos[b].priority
    || (infos[a].priority == infos[b].priority && Sooner(Slack(xqs[a], infos[a], now), Slack(xqs[b], infos[b], now)))
  }

  datatype Class = UrgentClass | LatencyClass | BatchClass

  predicate InClass(infos: map<Handle, QueueInfo>, xqs: map<Handle, XQueueStatus>, now: int, tick: int, c: Class, h: Handle)
    requires Covers(infos, xqs) && h in xqs
  {
    match c
    case UrgentClass => Urgent(xqs[h], infos[h], now, tick)
    case LatencyClass => LatencySensitive(infos[h])
    case BatchClass => !LatencySensitive(infos[h])
  }

  /** Whether `a` goes before `b` when both are in class `c`. */
  predicate Before(infos: map<Handle, QueueInfo>, xqs: map<Handle, XQueueStatus>, now: int, c: Class, a: Handle, b: Handle)
    requires Covers(infos, xqs) && a in xqs && b in xqs
  {
    match c
    case UrgentClass => MoreUrgent(infos, xqs, now, a, b)
    case LatencyClass => MoreSensitive(infos, xqs, now, a, b)
    case BatchClass => infos[a].vruntime < infos[b].vruntime
  }

  /** The first of the best ready queues of a device in one class. */
  function BestOf(infos: map<Handle, QueueInfo>, xqs: map<Handle, XQueueStatus>, now: int, tick: int, c: Class,
                  walked: seq<Handle>, d: Device): (best: Option<Handle>)
    requires Covers(infos, xqs) && forall h :: h in walked ==> h in xqs
    ensures best.Some? ==>
              best.value in walked && ReadyOn(xqs, best.value, d) && InClass(infos, xqs, now, tick, c, best.value)
  {
    if walked == [] then None else
      var best, h := BestOf(infos, xqs, now, tick, c, walked[..|walked| - 1], d), walked[|walked| - 1];
      if ReadyOn(xqs, h, d) && InClass(infos, xqs, now, tick, c, h)
         && (best.None? || Before(infos, xqs, now, c, h, best.value)) then Some(h) else best
  }

  /** The pass over the queues writes zero for no queue, and so cannot tell it from queue zero. */
  function HandleOf(best: Option<Handle>): Handle {
    if best.Some? then best.value else 0
  }

  /** The queue that a device gets: the classes come in order. */
  function Best(infos: map<Handle, QueueInfo>, xqs: map<Handle, XQueueStatus>, now: int, tick: int,
                walked: seq<Handle>, d: Device): Handle
    requires Covers(infos, xqs) && forall h :: h in walked ==> h in xqs
  {
    var urgent := HandleOf(BestOf(infos, xqs, now, tick, UrgentClass, walked, d));
    var latency := HandleOf(BestOf(infos, xqs, now, tick, LatencyClass, walked, d));
    if urgent != 0 then urgent
    else if latency != 0 then latency
    else HandleOf(BestOf(infos, xqs, now, tick, BatchClass, walked, d))
  }

  /** What a round leaves in the entry of a queue. */
  function Settle(info: QueueInfo, ready: bool, chosen: bool, now: int): QueueInfo {
    if ready && chosen then info.(running := true, lastResume := now) else info.(running := false)
  }

  function VerdictOn(info: QueueInfo, st: XQueueStatus, chosen: bool): Verdict {
    if !st.ready then Leave
    else if chosen then (if info.running then Leave else ToRun)
    else if info.running || !st.suspended then ToPark else Leave
  }

  predicate Wins(infos: map<Handle, QueueInfo>, xqs: map<Handle, XQueueStatus>, now: int, tick: int, order: seq<Handle>, h: Handle)
    requires Covers(infos, xqs) && (forall g :: g in order ==> g in xqs) && h in xqs
  {
    xqs[h].ready && Best(infos, xqs, now, tick, order, xqs[h].device) == h
  }

  function Settled(infos: map<Handle, QueueInfo>, xqs: map<Handle, XQueueStatus>, now: int, tick: int, order: seq<Handle>,
                   walked: seq<Handle>): map<Handle, QueueInfo>
    requires Covers(infos, xqs) && forall g :: g in order ==> g in xqs
  {
    map h | h in infos ::
      if h in walked && h in xqs then Settle(infos[h], xqs[h].ready, Wins(infos, xqs, now, tick, order, h), now)
      else infos[h]
  }

  function Verdicts(infos: map<Handle, QueueInfo>, xqs: map<Handle, XQueueStatus>, now: int, tick: int, order: seq<Handle>):
    map<Handle, Verdict>
    requires Covers(infos, xqs) && forall g :: g in order ==> g in xqs
  {
    map h | h in xqs :: VerdictOn(infos[h], xqs[h], Wins(infos, xqs, now, tick, order, h))
  }

  function Hinted(infos: map<Handle, QueueInfo>, hint: Hint, now: int): map<Handle, QueueInfo> {
    match hint
    case PriorityHint(h, p) => infos[h := InfoOf(infos, h, now).(priority := Clamp(p, PRIORITY_MIN, PRIORITY_MAX))]
    case DeadlineHint(h, ddl) => infos[h := InfoOf(infos, h, now).(deadline := ddl)]
    case UtilizationHint(_, h, u) =>
      if h == 0 then infos
      else infos[h := InfoOf(infos, h, now).(utilization := Clamp(u, UTILIZATION_MIN, UTILIZATION_MAX))]
    case _ => infos
  }

  predicate PrioritiesOk(infos: map<Handle, QueueInfo>) {
    forall h :: h in infos ==> PRIORITY_MIN <= infos[h].priority
  }

  lemma ChargedNothing(infos: map<Handle, QueueInfo>, xqs: map<Handle, XQueueStatus>, utils: map<Pid, int>, now: int)
    ensures Charged(infos, xqs, utils, [], now) == infos
  {
  }

  lemma ChargedStep(infos: map<Handle, QueueInfo>, xqs: map<Handle, XQueueStatus>, utils: map<Pid, int>,
                    walked: seq<Handle>, h: Handle, now: int)
    requires h in xqs && h !in walked
    ensures var before := Charged(infos, xqs, utils, walked, now);
            var info := InfoOf(before, h, now);
            Charged(infos, xqs, utils, walked + [h], now) == before[h := Charge(info, Utilization(utils, xqs[h], info), now)]
  {
    hide Charge, Utilization;
  }

  /** The running best of each class, as the walk over the queues keeps it. */
  datatype Bests = Bests(urgent: Handle, urgentSlack: Option<int>, urgentPriority: int,
                         latency: Handle, latencyPriority: int, latencySlack: Option<int>,
                         batch: Handle, batchRuntime: Option<real>)

  /** The running bests describe the best queues of what was walked so far. */
  ghost predicate BestsAre(b: Bests, infos: map<Handle, QueueInfo>, xqs: map<Handle, XQueueStatus>, now: int, tick: int,
                           walked: seq<Handle>, d: Device)
    requires Covers(infos, xqs) && forall g :: g in walked ==> g in xqs
  {
    var urgent := BestOf(infos, xqs, now, tick, UrgentClass, walked, d);
    var latency := BestOf(infos, xqs, now, tick, LatencyClass, walked, d);
    var batch := BestOf(infos, xqs, now, tick, BatchClass, walked, d);
    && b.urgent == HandleOf(urgent) && b.latency == HandleOf(latency) && b.batch == HandleOf(batch)
    && b.urgentSlack == (if urgent.None? then None else Slack(xqs[b.urgent], infos[b.urgent], now))
    && b.urgentPriority == (if urgent.None? then PRIORITY_MIN else infos[b.urgent].priority)
    && b.latencySlack == (if latency.None? then None else Slack(xqs[b.latency], infos[b.latency], now))
    && b.latencyPriority == (if latency.None? then PRIORITY_MIN else infos[b.latency].priority)
    && b.batchRuntime == (if batch.None? then None else Some(infos[b.batch].vruntime))
  }

  /** One queue competes in every class it is in. */
  function Compete(b: Bests, h: Handle, st: XQueueStatus, info: QueueInfo, now: int, tick: int): Bests {
    var slack := Slack(st, info, now);
    var sensitive := LatencySensitive(info);
    var b := if info.deadline != NO_DEADLINE && slack.Some? && slack.value <= tick
                && (Sooner(slack, b.urgentSlack) || (slack == b.urgentSlack && info.priority > b.urgentPriority))
             then b.(urgent := h, urgentSlack := slack, urgentPriority := info.priority) else b;
    var b := if sensitive && (info.priority > b.latencyPriority
                              || (info.priority == b.latencyPriority && Sooner(slack, b.latencySlack)))
             then b.(latency := h, latencyPriority := info.priority, latencySlack := slack) else b;
    if !sensitive && (b.batchRuntime.None? || info.vruntime < b.batchRuntime.value)
    then b.(batch := h, batchRuntime := Some(info.vruntime)) else b
  }

  lemma CompeteKeepsBests(b: Bests, infos: map<Handle, QueueInfo>, xqs: map<Handle, XQueueStatus>, now: int, tick: int,
                          walked: seq<Handle>, d: Device, h: Handle)
    requires Covers(infos, xqs) && (forall g :: g in walked ==> g in xqs) && h in xqs && PrioritiesOk(infos)
    requires BestsAre(b, infos, xqs, now, tick, walked, d)
    ensures BestsAre(if ReadyOn(xqs, h, d) then Compete(b, h, xqs[h], infos[h], now, tick) else b,
                     infos, xqs, now, tick, walked + [h], d)
  {
    assert (walked + [h])[..|walked|] == walked;
  }

  /** The entries a round decides on: charged, and one for every queue. */
  function Prepared(infos: map<Handle, QueueInfo>, xqs: map<Handle, XQueueStatus>, utils: map<Pid, int>,
                    order: seq<Handle>, now: int): (r: map<Handle, QueueInfo>)
    requires Enumerates(order, xqs.Keys)
    ensures Covers(r, xqs)
  {
    Charged(infos, xqs, utils, order, now)
  }

  lemma ChargedIs(infos: map<Handle, QueueInfo>, xqs: map<Handle, XQueueStatus>, utils: map<Pid, int>,
                  order: seq<Handle>, now: int)
    requires Enumerates(order, xqs.Keys)
    ensures Prepared(infos, xqs, utils, order, now) == Charged(infos, xqs, utils, order, now)
    ensures PrioritiesOk(infos) ==> PrioritiesOk(Charged(infos, xqs, utils, order, now))
    ensures forall g :: g in order ==> g in xqs
  {
    hide Utilization;
  }

  ghost predicate ChoiceIs(infos: map<Handle, QueueInfo>, xqs: map<Handle, XQueueStatus>, now: int, tick: int,
                           order: seq<Handle>, walked: seq<Handle>, chosen: map<Device, Handle>)
    requires Covers(infos, xqs)
  {
    && (forall g :: g in order ==> g in xqs)
    && (forall h :: h in walked && h in xqs && xqs[h].ready ==> xqs[h].device in chosen)
    && (forall d :: d in chosen ==> chosen[d] == Best(infos, xqs, now, tick, order, d))
  }

  /** The state of the walk that carries the choice out. */
  ghost predicate Settling(before: map<Handle, QueueInfo>, infos: map<Handle, QueueInfo>, m: Mirror, n: Mirror,
                           now: int, tick: int, order: seq<Handle>, walked: seq<Handle>, chosen: map<Device, Handle>)
  {
    && Enumerates(order, m.xqs.Keys) && MirrorOk(m) && Covers(before, m.xqs)
    && ChoiceIs(before, m.xqs, now, tick, order, order, chosen) && (forall h :: h in walked ==> h in m.xqs)
    && infos == Settled(before, m.xqs, now, tick, order, walked)
    && n == Carried(m, walked, Verdicts(before, m.xqs, now, tick, order))
  }

  lemma StartSettling(infos: map<Handle, QueueInfo>, m: Mirror, now: int, tick: int, order: seq<Handle>, chosen: map<Device, Handle>)
    requires Enumerates(order, m.xqs.Keys) && MirrorOk(m) && Covers(infos, m.xqs)
    requires ChoiceIs(infos, m.xqs, now, tick, order, order, chosen)
    ensures Settling(infos, infos, m, m, now, tick, order, [], chosen)
  {
    hide MirrorOk, Enumerates, Wins;
    assert Settled(infos, m.xqs, now, tick, order, []) == infos;
  }

  lemma SettledStep(infos: map<Handle, QueueInfo>, xqs: map<Handle, XQueueStatus>, now: int, tick: int, order: seq<Handle>,
                    walked: seq<Handle>, h: Handle)
    requires Covers(infos, xqs) && (forall g :: g in order ==> g in xqs) && h in xqs && h !in walked
    ensures var before := Settled(infos, xqs, now, tick, order, walked);
            && h in before && before[h] == infos[h]
            && Settled(infos, xqs, now, tick, order, walked + [h])
               == before[h := Settle(infos[h], xqs[h].ready, Wins(infos, xqs, now, tick, order, h), now)]
  {
    hide Wins, Settle;
  }

  lemma SettleOn(before: map<Handle, QueueInfo>, infos: map<Handle, QueueInfo>, m: Mirror, n: Mirror,
                 now: int, tick: int, order: seq<Handle>, walked: seq<Handle>, chosen: map<Device, Handle>, h: Handle)
    requires Settling(before, infos, m, n, now, tick, order, walked, chosen)
    requires h in m.xqs && h !in walked && Distinct(walked)
    ensures h in n.xqs && h in infos && (n.xqs[h].ready ==> n.xqs[h].device in chosen)
    ensures var st := n.xqs[h];
            var wins := st.ready && chosen[st.device] == h;
            Settling(before, infos[h := Settle(infos[h], st.ready, wins, now)],
              m, CarriedOne(n, h, VerdictOn(infos[h], st, wins)), now, tick, order, walked + [h], chosen)
  {
    hide MirrorOk, Best, Settle, VerdictOn, CarriedOne, Settled;
    CarriedFlags(m, walked, Verdicts(before, m.xqs, now, tick, order));
    SettledStep(before, m.xqs, now, tick, order, walked, h);
    assert (walked + [h])[..|walked|] == walked;
  }

  lemma EndSettling(before: map<Handle, QueueInfo>, infos: map<Handle, QueueInfo>, m: Mirror, n: Mirror,
                    now: int, tick: int, order: seq<Handle>, chosen: map<Device, Handle>)
    requires Settling(before, infos, m, n, now, tick, order, order, chosen)
    ensures Covers(before, m.xqs) && infos == Settled(before, m.xqs, now, tick, order, order)
    ensures n == Carried(m, order, Verdicts(before, m.xqs, now, tick, order))
  {
  }

  class SLOAdaptivePolicy {
    const scheduler: LocalScheduler
    var infos: map<Handle, QueueInfo>
    var utils: map<Pid, int>
    var tick: int

    constructor (scheduler: LocalScheduler)
      ensures this.scheduler == scheduler && infos == map[] && utils == map[] && tick == TIMESLICE_DEFAULT
    {
      this.scheduler, infos, utils, tick := scheduler, map[], map[], TIMESLICE_DEFAULT;
    }

    /** Makes sure the queue has an entry. */
    method GetInfo(h: Handle, now: int) returns (info: QueueInfo)
      modifies `infos
      ensures info == InfoOf(old(infos), h, now) && infos == old(infos)[h := info]
    {
      if h !in infos { infos := infos[h := FirstInfo(now)]; }
      info := infos[h];
    }

    method RecvHint(hint: Hint, now: int)
      requires PrioritiesOk(infos)
      modifies `infos, `utils, `tick
      ensures infos == Hinted(old(infos), hint, now) && PrioritiesOk(infos)
      ensures utils == if hint.UtilizationHint? && hint.pid != 0
                       then old(utils)[hint.pid := Clamp(hint.utilization, UTILIZATION_MIN, UTILIZATION_MAX)]
                       else old(utils)
      ensures tick == if hint.TimesliceHint? && TIMESLICE_MIN <= hint.timeslice <= TIMESLICE_MAX
                      then hint.timeslice else old(tick)
    {
      match hint {
        case PriorityHint(h, priority) =>
          var info := GetInfo(h, now);
          infos := infos[h := info.(priority := Clamp(priority, PRIORITY_MIN, PRIORITY_MAX))];
        case DeadlineHint(h, deadline) =>
          var info := GetInfo(h, now);
          infos := infos[h := info.(deadline := deadline)];
        case UtilizationHint(pid, h, utilization) =>
          var util := Clamp(utilization, UTILIZATION_MIN, UTILIZATION_MAX);
          if h != 0 {
            var info := GetInfo(h, now);
            infos := infos[h := info.(utilization := util)];
          }
          if pid != 0 { utils := utils[pid := util]; }
        case TimesliceHint(timeslice) =>
          if TIMESLICE_MIN <= timeslice <= TIMESLICE_MAX { tick := timeslice; }
        case OtherHint =>
      }
    }

    method ChargeOne(h: Handle, st: XQueueStatus, now: int)
      modifies `infos
      ensures var info := InfoOf(old(infos), h, now);
              infos == old(infos)[h := Charge(info, Utilization(utils, st, info), now)]
    {
      hide Utilization;
      var info := GetInfo(h, now);
      if !info.running { return; }
      var elapsed := now - info.lastResume;
      if elapsed <= 0 { return; }
      var util := Utilization(utils, st, info);
      var share := if util > 1 then util else 1;
      var vruntime := info.vruntime + elapsed as real * (UTILIZATION_DEFAULT as real / share as real);
      assert Charge(info, util, now) == info.(vruntime := vruntime, lastResume := now);
      infos := infos[h := info.(vruntime := vruntime)];
      infos := infos[h := infos[h].(lastResume := now)];
    }

    method UpdateRuntime(order: seq<Handle>, now: int)
      requires Enumerates(order, scheduler.xqs.Keys)
      modifies `infos
      ensures infos == Charged(old(infos), scheduler.xqs, utils, order, now)
    {
      assert order[..0] == [];
      ChargedNothing(infos, scheduler.xqs, utils, now);
      hide Charged, Enumerates, Charge, Utilization;
      var i := 0;
      while i < |order|
        invariant i <= |order| && infos == Charged(old(infos), scheduler.xqs, utils, order[..i], now)
      {
        var h := order[i];
        WalkedApart(order, scheduler.xqs.Keys, i);
        ChargedStep(old(infos), scheduler.xqs, utils, order[..i], h, now);
        ChargeOne(h, scheduler.xqs[h], now);
        i := i + 1;
      }
      assert order[..i] == order;
    }

    method PickBestQueue(d: Device, order: seq<Handle>, now: int) returns (best: Handle)
      requires Enumerates(order, scheduler.xqs.Keys) && Covers(infos, scheduler.xqs)
      requires PrioritiesOk(infos)
      ensures best == Best(infos, scheduler.xqs, now, tick, order, d)
    {
      hide Covers, PrioritiesOk, BestOf, BestsAre;
      var b := Bests(0, None, PRIORITY_MIN, 0, PRIORITY_MIN, None, 0, None);
      assert order[..0] == [];
      NoBests(b, infos, scheduler.xqs, now, tick, d);
      var i := 0;
      while i < |order|
        invariant i <= |order| && BestsAre(b, infos, scheduler.xqs, now, tick, order[..i], d)
      {
        var h := order[i];
        WalkedApart(order, scheduler.xqs.Keys, i);
        CompeteKeepsBests(b, infos, scheduler.xqs, now, tick, order[..i], d, h);
        var st := scheduler.xqs[h];
        if st.ready && st.device == d {
          CoversOne(infos, scheduler.xqs, h);
          var info := infos[h];
          var slack := Slack(st, info, now);
          var sensitive := LatencySensitive(info);
          var urgent := info.deadline != NO_DEADLINE && slack.value <= tick;
          if urgent && (Sooner(slack, b.urgentSlack) || (slack == b.urgentSlack && info.priority > b.urgentPriority)) {
            b := b.(urgent := h, urgentSlack := slack, urgentPriority := info.priority);
          }
          if sensitive && (info.priority > b.latencyPriority
                           || (info.priority == b.latencyPriority && Sooner(slack, b.latencySlack))) {
            b := b.(latency := h, latencyPriority := info.priority, latencySlack := slack);
          }
          if !sensitive && (b.batchRuntime.None? || info.vruntime < b.batchRuntime.value) {
            b := b.(batch := h, batchRuntime := Some(info.vruntime));
          }
        }
        i := i + 1;
      }
      assert order[..i] == order;
      BestsGiveBest(b, infos, scheduler.xqs, now, tick, order, d);
      if b.urgent != 0 { return b.urgent; }
      if b.latency != 0 { return b.latency; }
      best := b.batch;
    }

    /** The queue each device should run, for the devices that have a ready queue. */
    method ChooseQueues(order: seq<Handle>, now: int) returns (chosen: map<Device, Handle>, hasReady: bool)
      requires Enumerates(order, scheduler.xqs.Keys) && Covers(infos, scheduler.xqs)
      requires PrioritiesOk(infos)
      ensures ChoiceIs(infos, scheduler.xqs, now, tick, order, order, chosen)
      ensures hasReady <==> exists h :: h in scheduler.xqs && scheduler.xqs[h].ready
    {
      hide Covers, PrioritiesOk, Best;
      chosen, hasReady := map[], false;
      var i := 0;
      while i < |order|
        invariant i <= |order| && ChoiceIs(infos, scheduler.xqs, now, tick, order, order[..i], chosen)
        invariant hasReady <==> exists h :: h in order[..i] && scheduler.xqs[h].ready
      {
        var h := order[i];
        WalkedApart(order, scheduler.xqs.Keys, i);
        if scheduler.xqs[h].ready {
          hasReady := true;
          var d := scheduler.xqs[h].device;
          if d !in chosen {
            var best := PickBestQueue(d, order, now);
            chosen := chosen[d := best];
          }
        }
        i := i + 1;
      }
      assert order[..i] == order;
    }

    method SettleOne(h: Handle, chosen: map<Device, Handle>, now: int)
      requires h in scheduler.xqs && h in infos && (scheduler.xqs[h].ready ==> scheduler.xqs[h].device in chosen)
      modifies `infos, scheduler
      ensures var st := old(scheduler.xqs)[h];
              var wins := st.ready && chosen[st.device] == h;
              && infos == old(infos)[h := Settle(old(infos)[h], st.ready, wins, now)]
              && scheduler.View() == CarriedOne(old(scheduler.View()), h, VerdictOn(old(infos)[h], st, wins))
    {
      var st := scheduler.xqs[h];
      var info := GetInfo(h, now);
      if !st.ready {
        infos := infos[h := info.(running := false)];
        return;
      }
      if chosen[st.device] == h {
        if !info.running {
          scheduler.Resume(h);
          infos := infos[h := info.(running := true)];
        }
        infos := infos[h := infos[h].(lastResume := now)];
      } else {
        if info.running || !st.suspended { scheduler.Suspend(h); }
        infos := infos[h := info.(running := false)];
      }
    }

    method SettleAll(order: seq<Handle>, chosen: map<Device, Handle>, now: int)
      requires Enumerates(order, scheduler.xqs.Keys) && MirrorOk(scheduler.View()) && Covers(infos, scheduler.xqs)
      requires ChoiceIs(infos, scheduler.xqs, now, tick, order, order, chosen)
      modifies `infos, scheduler
      ensures infos == Settled(old(infos), old(scheduler.xqs), now, tick, order, order)
      ensures scheduler.View() == Carried(old(scheduler.View()), order, Verdicts(old(infos), old(scheduler.xqs), now, tick, order))
    {
      hide MirrorOk, Enumerates, Covers, Settled, Settling, Settle, VerdictOn, Carried, CarriedOne, Verdicts, Wins, ChoiceIs;
      ghost var before, m := infos, scheduler.View();
      StartSettling(before, m, now, tick, order, chosen);
      assert order[..0] == [];
      var i := 0;
      while i < |order|
        invariant i <= |order| && Settling(before, infos, m, scheduler.View(), now, tick, order, order[..i], chosen)
      {
        WalkedApart(order, m.xqs.Keys, i);
        SettleOn(before, infos, m, scheduler.View(), now, tick, order, order[..i], chosen, order[i]);
        SettleOne(order[i], chosen, now);
        i := i + 1;
      }
      assert order[..i] == order;
      EndSettling(before, infos, m, scheduler.View(), now, tick, order, chosen);
    }

    /** One round: charge what ran, choose per device, and carry it out. The timer for the next
        round is set exactly when some queue is ready. */
    method Sched(order: seq<Handle>, now: int) returns (timer: Option<int>)
      requires Enumerates(order, scheduler.xqs.Keys) && MirrorOk(scheduler.View())
      requires PrioritiesOk(infos)
      modifies `infos, scheduler
      ensures var xqs := old(scheduler.xqs);
              var charged := Prepared(old(infos), xqs, utils, order, now);
              && infos == Settled(charged, xqs, now, tick, order, order)
              && scheduler.View() == Carried(old(scheduler.View()), order, Verdicts(charged, xqs, now, tick, order))
      ensures timer == if exists h :: h in old(scheduler.xqs) && old(scheduler.xqs)[h].ready then Some(now + tick) else None
    {
      ChargedIs(infos, scheduler.xqs, utils, order, now);
      hide MirrorOk, Enumerates, Covers, Settled, Charged, Prepared, Carried, Verdicts, ChoiceIs, PrioritiesOk;
      UpdateRuntime(order, now);
      var chosen, hasReady := ChooseQueues(order, now);
      SettleAll(order, chosen, now);
      timer := if hasReady then Some(now + tick) else None;
    }
  }

  lemma CoversOne(infos: map<Handle, QueueInfo>, xqs: map<Handle, XQueueStatus>, h: Handle)
    requires Covers(infos, xqs) && h in xqs
    ensures h in infos
  {
  }

  lemma NoBests(b: Bests, infos: map<Handle, QueueInfo>, xqs: map<Handle, XQueueStatus>, now: int, tick: int, d: Device)
    requires Covers(infos, xqs) && b == Bests(0, None, PRIORITY_MIN, 0, PRIORITY_MIN, None, 0, None)
    ensures BestsAre(b, infos, xqs, now, tick, [], d)
  {
  }

  lemma BestsGiveBest(b: Bests, infos: map<Handle, QueueInfo>, xqs: map<Handle, XQueueStatus>, now: int, tick: int,
                      walked: seq<Handle>, d: Device)
    requires Covers(infos, xqs) && (forall g :: g in walked ==> g in xqs) && BestsAre(b, infos, xqs, now, tick, walked, d)
    ensures Best(infos, xqs, now, tick, walked, d)
            == if b.urgent != 0 then b.urgent else if b.latency != 0 then b.latency else b.batch
  {
  }
}
