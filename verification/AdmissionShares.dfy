/** What an active queue may keep on the device: its share of the usable memory, by its weight. */
module AdmissionShares {
  import opened Options
  import opened Admission
  import opened Walks
  import opened AdmissionTheorems
  import opened AdmissionEviction

  /** A watermark is its percentage of the total, rounded down. */
  lemma WatermarksArePercentages(cfg: Settings, total: nat)
    ensures 100 * HighWatermark(cfg, total) <= total * HighPercent(cfg) < 100 * (HighWatermark(cfg, total) + 1)
    ensures 100 * LowWatermark(cfg, total) <= total * LowPercent(cfg) < 100 * (LowWatermark(cfg, total) + 1)
  {
    hide HighPercent, LowPercent;
  }

  /** A valid percentage is taken as it is set, the own variable before the compatible one; the low
      one gives way where it does not stay below the high one. */
  lemma PercentagesAreTaken(cfg: Settings)
    ensures var high := if cfg.high.Some? then cfg.high else cfg.highCompat;
            HighPercent(cfg) == if high.Some? && 0 < high.value < 100 then high.value else 85
    ensures var low := if cfg.low.Some? then cfg.low else cfg.lowCompat;
            var wanted := if low.Some? && 0 < low.value < 100 then low.value else 75;
            if wanted < HighPercent(cfg) then LowPercent(cfg) == wanted
            else LowPercent(cfg) == 1 || LowPercent(cfg) == HighPercent(cfg) - 10 > 1
  {
  }

  lemma QuotientIs(usable: nat, weight: nat, sum: nat)
    requires sum > 0
    ensures usable * weight / sum * sum <= usable * weight < (usable * weight / sum + 1) * sum
  {
    var x := usable * weight;
    assert x == x / sum * sum + x % sum;
    assert (x / sum + 1) * sum == x / sum * sum + sum;
  }

  /** A share is to the usable memory as the weight of the queue is to that of all active queues,
      rounded down; weights count up from one at the least priority. */
  lemma ShareIsProportional(cfg: Settings, queues: map<Handle, QueueState>, place: Place, queue: Handle, total: nat, qorder: seq<Handle>)
    requires queue in qorder && ActiveAt(queues, place, queue)
    ensures var weight := if queues[queue].priority < -255 then 1 else queues[queue].priority + 256;
            var sum, share := ActiveWeight(queues, place, qorder), Share(cfg, queues, place, queue, total, qorder);
            sum > 0 && share * sum <= LowWatermark(cfg, total) * weight < (share + 1) * sum
  {
    ActiveCounts(queues, place, qorder, queue);
    hide LowWatermark, ActiveWeight;
    QuotientIs(LowWatermark(cfg, total), QueueWeight(queues[queue]), ActiveWeight(queues, place, qorder));
  }

  function ActiveCount(queues: map<Handle, QueueState>, place: Place, walked: seq<Handle>): nat {
    if walked == [] then 0 else
      ActiveCount(queues, place, walked[..|walked| - 1]) + if ActiveAt(queues, place, walked[|walked| - 1]) then 1 else 0
  }

  lemma {:induction false} SharesOfSomeAtLeast(cfg: Settings, queues: map<Handle, QueueState>, place: Place, total: nat,
                                               qorder: seq<Handle>, walked: seq<Handle>)
    requires ActiveWeight(queues, place, qorder) > 0 && forall q :: q in walked ==> q in qorder
    ensures var n, sum := ActiveCount(queues, place, walked), ActiveWeight(queues, place, qorder);
            LowWatermark(cfg, total) * ActiveWeight(queues, place, walked) + n
            <= (TotalShare(cfg, queues, place, total, qorder, walked) + n) * sum
  {
    if walked != [] {
      var rest, q := walked[..|walked| - 1], walked[|walked| - 1];
      var sum, usable := ActiveWeight(queues, place, qorder), LowWatermark(cfg, total);
      SharesOfSomeAtLeast(cfg, queues, place, total, qorder, rest);
      if ActiveAt(queues, place, q) {
        hide LowWatermark, QueueWeight;
        var weight := QueueWeight(queues[q]);
        QuotientIs(usable, weight, sum);
        OneMoreShare(TotalShare(cfg, queues, place, total, qorder, rest), ActiveCount(queues, place, rest),
          Share(cfg, queues, place, q, total, qorder), sum, usable, ActiveWeight(queues, place, rest), weight);
      }
    }
  }

  lemma OneMoreShare(t: nat, n: nat, share: nat, sum: nat, usable: nat, weights: nat, weight: nat)
    requires usable * weights + n <= (t + n) * sum && usable * weight < (share + 1) * sum
    ensures usable * (weights + weight) + (n + 1) <= (t + share + (n + 1)) * sum
  {
    assert usable * (weights + weight) == usable * weights + usable * weight;
    assert (t + share + (n + 1)) * sum == (t + n) * sum + (share + 1) * sum;
  }

  /** The shares of all active queues of a place use the memory up: what rounding leaves over is less
      than one byte for each of them. */
  lemma SharesUseTheMemory(cfg: Settings, queues: map<Handle, QueueState>, place: Place, total: nat, qorder: seq<Handle>)
    requires ActiveWeight(queues, place, qorder) > 0
    ensures var shares := TotalShare(cfg, queues, place, total, qorder, qorder);
            shares <= LowWatermark(cfg, total) < shares + ActiveCount(queues, place, qorder)
  {
    BudgetsFitTogether(cfg, queues, place, total, qorder);
    SharesOfSomeAtLeast(cfg, queues, place, total, qorder, qorder);
    WeightNeedsAQueue(queues, place, qorder);
    var sum, n := ActiveWeight(queues, place, qorder), ActiveCount(queues, place, qorder);
    hide LowWatermark;
    StrictFactor(LowWatermark(cfg, total), TotalShare(cfg, queues, place, total, qorder, qorder) + n, sum);
  }

  lemma StrictFactor(a: nat, b: nat, k: nat)
    requires a * k < b * k
    ensures a < b
  {
    assert a >= b ==> a * k >= b * k;
  }

  lemma {:induction false} WeightNeedsAQueue(queues: map<Handle, QueueState>, place: Place, walked: seq<Handle>)
    ensures ActiveWeight(queues, place, walked) > 0 <==> ActiveCount(queues, place, walked) > 0
  {
    if walked != [] { WeightNeedsAQueue(queues, place, walked[..|walked| - 1]); }
  }

  /** A budget is the share, or all that the queue owns if that is less. */
  lemma BudgetIsCapped(cfg: Settings, m: Memory, place: Place, queue: Handle, total: nat, order: seq<Ptr>, qorder: seq<Handle>)
    requires queue in qorder && ActiveAt(m.queues, place, queue) && Bytes(m.regions, QueueHot(place, queue), order) > 0
    ensures var owned := Bytes(m.regions, QueueHot(place, queue), order);
            var share, budget := Share(cfg, m.queues, place, queue, total, qorder), QueueBudget(cfg, m, place, queue, total, order, qorder);
            budget <= share && budget <= owned && (budget == share || budget == owned)
  {
    ActiveCounts(m.queues, place, qorder, queue);
    hide Share, Bytes;
  }

  /** The three sums, region by region: what is resident at a place, what of it a queue owns, and
      all that the queue owns there. */
  lemma BytesAreSums(regions: map<Ptr, Region>, place: Place, queue: Handle, a: seq<Ptr>, p: Ptr)
    requires p in regions
    ensures var r := regions[p];
            && Bytes(regions, TrackedResident(place), a + [p])
               == Bytes(regions, TrackedResident(place), a) + (if r.place == place && r.resident then r.size else 0)
            && Bytes(regions, QueueResident(place, queue), a + [p])
               == Bytes(regions, QueueResident(place, queue), a) + (if r.place == place && r.resident && r.owner == queue then r.size else 0)
            && Bytes(regions, QueueHot(place, queue), a + [p])
               == Bytes(regions, QueueHot(place, queue), a) + (if r.place == place && r.owner == queue then r.size else 0)
  {
    assert (a + [p])[..|a|] == a;
  }

  ghost predicate PrioritiesInRange(m: Memory) {
    forall q :: q in m.queues ==> -255 <= m.queues[q].priority <= 255
  }

  lemma OperationKeepsPriorities(m: Memory, cfg: Settings, op: Operation)
    requires Possible(m, op) && PrioritiesInRange(m)
    ensures PrioritiesInRange(Apply(m, cfg, op))
  {
    hide Adopted, Transfer, EvictionNeed, PrefetchNeed, FirstHolding, Enumerates, Disowned;
  }

  /** In every run the priorities of all queues stay between -255 and 255. */
  lemma {:induction false} PrioritiesStayInRange(ops: seq<Operation>, cfg: Settings)
    requires Run(ops, cfg).Some?
    ensures PrioritiesInRange(Run(ops, cfg).value)
  {
    hide Apply, Possible;
    if ops != [] {
      PrioritiesStayInRange(ops[..|ops| - 1], cfg);
      OperationKeepsPriorities(Run(ops[..|ops| - 1], cfg).value, cfg, ops[|ops| - 1]);
    }
  }
}
