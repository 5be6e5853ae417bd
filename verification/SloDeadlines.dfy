/** What the SLO policy goes by, told by the fields of queues and entries: when a queue is due, who
    is due first, and what running costs. */
module SloDeadlines {
  import opened Options
  import opened Mirror
  import opened Policies
  import opened Walks
  import opened Slo
  import opened SloTheorems

  /** A queue is urgent exactly if it has a deadline that, counted from when it got ready, falls
      within the coming tick. */
  lemma UrgentIff(st: XQueueStatus, info: QueueInfo, now: int, tick: int)
    ensures Urgent(st, info, now, tick) <==> info.deadline != -1 && st.readyTime + info.deadline <= now + tick
  {
  }

  /** Once urgent a queue stays so: waiting never makes it less urgent. */
  lemma UrgencyStays(st: XQueueStatus, info: QueueInfo, now: int, later: int, tick: int)
    requires Urgent(st, info, now, tick) && now <= later
    ensures Urgent(st, info, later, tick)
  {
  }

  /** When a queue is due; only meaningful if it has a deadline. */
  function Due(infos: map<Handle, QueueInfo>, xqs: map<Handle, XQueueStatus>, h: Handle): int
    requires h in infos && h in xqs
  {
    xqs[h].readyTime + infos[h].deadline
  }

  predicate IsDue(infos: map<Handle, QueueInfo>, xqs: map<Handle, XQueueStatus>, now: int, tick: int, d: Device, h: Handle) {
    ReadyOn(xqs, h, d) && h in infos && infos[h].deadline != -1 && Due(infos, xqs, h) <= now + tick
  }

  predicate IsSensitive(infos: map<Handle, QueueInfo>, xqs: map<Handle, XQueueStatus>, d: Device, h: Handle) {
    ReadyOn(xqs, h, d) && h in infos && (infos[h].deadline != -1 || infos[h].priority > 0)
  }

  /** `h` is the urgent queue that is due first; of several that are due at once, one of highest priority. */
  ghost predicate DueFirst(infos: map<Handle, QueueInfo>, xqs: map<Handle, XQueueStatus>, now: int, tick: int, d: Device, h: Handle) {
    && IsDue(infos, xqs, now, tick, d, h)
    && forall g :: IsDue(infos, xqs, now, tick, d, g) ==>
         || Due(infos, xqs, h) < Due(infos, xqs, g)
         || (Due(infos, xqs, h) == Due(infos, xqs, g) && infos[h].priority >= infos[g].priority)
  }

  /** `h` has the highest priority of the latency-sensitive queues; of several, it is due first,
      queues without a deadline being due last. */
  ghost predicate MostSensitive(infos: map<Handle, QueueInfo>, xqs: map<Handle, XQueueStatus>, d: Device, h: Handle) {
    && IsSensitive(infos, xqs, d, h)
    && forall g :: IsSensitive(infos, xqs, d, g) ==>
         || infos[h].priority > infos[g].priority
         || (infos[h].priority == infos[g].priority
             && (infos[g].deadline == -1 || (infos[h].deadline != -1 && Due(infos, xqs, h) <= Due(infos, xqs, g))))
  }

  ghost predicate LeastServed(infos: map<Handle, QueueInfo>, xqs: map<Handle, XQueueStatus>, d: Device, h: Handle) {
    && ReadyOn(xqs, h, d) && h in infos
    && forall g :: ReadyOn(xqs, g, d) && g in infos ==> infos[h].vruntime <= infos[g].vruntime
  }

  lemma UrgentOnFields(infos: map<Handle, QueueInfo>, xqs: map<Handle, XQueueStatus>, now: int, tick: int, d: Device, h: Handle)
    requires Covers(infos, xqs)
    ensures FirstOf(infos, xqs, now, tick, UrgentClass, d, h) <==> DueFirst(infos, xqs, now, tick, d, h)
    ensures SomeReady(infos, xqs, now, tick, UrgentClass, d) <==> exists g :: IsDue(infos, xqs, now, tick, d, g)
  {
    forall g ensures IsDue(infos, xqs, now, tick, d, g) <==> ReadyOn(xqs, g, d) && InClass(infos, xqs, now, tick, UrgentClass, g) {
    }
    forall g | IsDue(infos, xqs, now, tick, d, g) && IsDue(infos, xqs, now, tick, d, h)
      ensures Before(infos, xqs, now, UrgentClass, g, h)
              <==> || Due(infos, xqs, g) < Due(infos, xqs, h)
                   || (Due(infos, xqs, g) == Due(infos, xqs, h) && infos[g].priority > infos[h].priority)
    {
    }
    hide InClass, Before, Covers, ReadyOn;
  }

  lemma SensitiveOnFields(infos: map<Handle, QueueInfo>, xqs: map<Handle, XQueueStatus>, now: int, tick: int, d: Device, h: Handle)
    requires Covers(infos, xqs)
    ensures FirstOf(infos, xqs, now, tick, LatencyClass, d, h) <==> MostSensitive(infos, xqs, d, h)
    ensures SomeReady(infos, xqs, now, tick, LatencyClass, d) <==> exists g :: IsSensitive(infos, xqs, d, g)
  {
    forall g ensures IsSensitive(infos, xqs, d, g) <==> ReadyOn(xqs, g, d) && InClass(infos, xqs, now, tick, LatencyClass, g) {
    }
    forall g | IsSensitive(infos, xqs, d, g) && IsSensitive(infos, xqs, d, h)
      ensures Before(infos, xqs, now, LatencyClass, g, h)
              <==> || infos[g].priority > infos[h].priority
                   || (infos[g].priority == infos[h].priority && infos[g].deadline != -1
                       && (infos[h].deadline == -1 || Due(infos, xqs, g) < Due(infos, xqs, h)))
    {
    }
    hide InClass, Before, Covers, ReadyOn;
  }

  /** Who deserves a device, on the fields alone: the queue due first if any is due within the tick,
      else the one of highest priority among those with a deadline or a positive priority, else the
      one served least. */
  lemma DeservesOnFields(infos: map<Handle, QueueInfo>, xqs: map<Handle, XQueueStatus>, now: int, tick: int, d: Device, h: Handle)
    requires Covers(infos, xqs)
    ensures Deserves(infos, xqs, now, tick, d, h)
            <==> if exists g :: IsDue(infos, xqs, now, tick, d, g) then DueFirst(infos, xqs, now, tick, d, h)
                 else if exists g :: IsSensitive(infos, xqs, d, g) then MostSensitive(infos, xqs, d, h)
                 else LeastServed(infos, xqs, d, h)
  {
    UrgentOnFields(infos, xqs, now, tick, d, h);
    SensitiveOnFields(infos, xqs, now, tick, d, h);
    hide FirstOf, SomeReady, DueFirst, MostSensitive, IsDue, IsSensitive;
  }

  /** The entry of a queue when a round decides: only its virtual runtime and its time differ from
      what it was, and a queue without an entry has priority 0 and no deadline. */
  lemma DecidedOnEntry(s: System, order: seq<Handle>, now: int, h: Handle)
    requires Enumerates(order, s.m.xqs.Keys) && h in s.m.xqs
    ensures var charged := Prepared(s.infos, s.m.xqs, s.utils, order, now);
            && h in charged
            && charged[h].deadline == (if h in s.infos then s.infos[h].deadline else -1)
            && charged[h].priority == (if h in s.infos then s.infos[h].priority else 0)
  {
    hide Utilization;
  }

  /** Deadlines come first: after any round of any run, if some ready queue of a device is due within
      the tick, the one ready queue of the device that is not suspended has a deadline too and is
      due no later, unless queue zero is passed over. */
  lemma EarliestDueRuns(inputs: seq<Input>, order: seq<Handle>, now: int, d: Device, g: Handle) returns (h: Handle)
    requires SystemAfter(inputs).Some? && SystemAfter(inputs + [Round(order, now)]).Some?
    requires var s := SystemAfter(inputs).value;
             ReadyOn(s.m.xqs, g, d) && g in s.infos && s.infos[g].deadline != -1
             && s.m.xqs[g].readyTime + s.infos[g].deadline <= now + s.tick
    requires var s := SystemAfter(inputs).value;
             && Enumerates(order, s.m.xqs.Keys)
             && !ZeroIsPassedOver(Prepared(s.infos, s.m.xqs, s.utils, order, now), s.m.xqs, now, s.tick, order, d)
    ensures var s, after := SystemAfter(inputs).value, SystemAfter(inputs + [Round(order, now)]).value.m.xqs;
            && ReadyOn(after, h, d) && !after[h].suspended && (forall k :: ReadyOn(after, k, d) && k != h ==> after[k].suspended)
            && h in s.m.xqs && h in s.infos && s.infos[h].deadline != -1
            && s.m.xqs[h].readyTime + s.infos[h].deadline <= s.m.xqs[g].readyTime + s.infos[g].deadline
  {
    var all := inputs + [Round(order, now)];
    assert all[..|all| - 1] == inputs;
    RunKeepsSystem(inputs);
    var s, s' := SystemAfter(inputs).value, SystemAfter(all).value;
    var charged := Prepared(s.infos, s.m.xqs, s.utils, order, now);
    hide SystemOk, Enumerates, AfterRound, Prepared, Best, Deserves, Covers, Winner, SystemAfter, Urgent, Slack, ZeroIsPassedOver;
    RoundOnReady(s, order, now, d, g);
    OneReadyQueuePerDevice(inputs, order, now, d, g);
    h :| ReadyOn(s'.m.xqs, h, d) && !s'.m.xqs[h].suspended
         && Deserves(charged, s.m.xqs, now, s.tick, d, h)
         && forall k :: ReadyOn(s'.m.xqs, k, d) && k != h ==> s'.m.xqs[k].suspended;
    RoundOnReady(s, order, now, d, h);
    DecidedOnEntry(s, order, now, g);
    DecidedOnEntry(s, order, now, h);
    DeservesOnFields(charged, s.m.xqs, now, s.tick, d, h);
    assert IsDue(charged, s.m.xqs, now, s.tick, d, g);
  }
}
