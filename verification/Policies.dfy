/** What the policies have in common: they walk over the known queues in the order the hash
    table yields them and suspend or resume some of them as they go. */
module Policies {
  import opened Sequences
  import opened Mirror
  import opened Walks

  datatype Verdict = Leave | ToRun | ToPark

  /** `h` is a known queue of device `d` and ready. */
  predicate ReadyOn(xqs: map<Handle, XQueueStatus>, h: Handle, d: Device) {
    h in xqs && xqs[h].ready && xqs[h].device == d
  }

  lemma InTable(xqs: map<Handle, XQueueStatus>, h: Handle, d: Device)
    requires ReadyOn(xqs, h, d)
    ensures h in xqs
  {
  }

  /** The mirror after the verdicts on `walked` have been carried out one after the other. */
  function Carried(m: Mirror, walked: seq<Handle>, verdicts: map<Handle, Verdict>): Mirror
    requires forall h :: h in walked ==> h in verdicts
  {
    if walked == [] then m else
      var h := walked[|walked| - 1];
      CarriedOne(Carried(m, walked[..|walked| - 1], verdicts), h, verdicts[h])
  }

  function CarriedOne(m: Mirror, h: Handle, verdict: Verdict): Mirror {
    match verdict
    case Leave => m
    case ToRun => Released(m, h)
    case ToPark => Parked(m, h)
  }

  function FlagAfter(flag: bool, verdict: Verdict): bool {
    match verdict
    case Leave => flag
    case ToRun => false
    case ToPark => true
  }

  /** Carrying verdicts out changes the flags they are about and nothing else. */
  lemma {:induction false} CarriedFlags(m: Mirror, walked: seq<Handle>, verdicts: map<Handle, Verdict>)
    requires MirrorOk(m) && Distinct(walked)
    requires forall h :: h in walked ==> h in verdicts && h in m.xqs
    ensures var m' := Carried(m, walked, verdicts);
            && MirrorOk(m') && m'.xqs.Keys == m.xqs.Keys && m'.procs.Keys == m.procs.Keys
            && forall h :: h in m.xqs ==>
                 m'.xqs[h] == if h in walked then m.xqs[h].(suspended := FlagAfter(m.xqs[h].suspended, verdicts[h]))
                              else m.xqs[h]
  {
    hide MirrorOk, Released, Parked;
    if walked != [] {
      var rest, h := walked[..|walked| - 1], walked[|walked| - 1];
      assert walked == rest + [h];
      CarriedFlags(m, rest, verdicts);
      var before := Carried(m, rest, verdicts);
      DecisionKeepsMirror(before, h);
      assert h !in rest;
    }
  }

  /** The mirror that `m` becomes when its queues are `xqs`: the sets follow from the flags. */
  function Rebuilt(m: Mirror, xqs: map<Handle, XQueueStatus>): Mirror {
    Mirror(xqs, map p | p in m.procs ::
      ProcessStatus(m.procs[p].cmdline,
        set h | h in xqs && xqs[h].pid == p && !xqs[h].suspended,
        set h | h in xqs && xqs[h].pid == p && xqs[h].suspended))
  }

  lemma RebuiltIsOk(m: Mirror, xqs: map<Handle, XQueueStatus>)
    requires forall h :: h in xqs ==> xqs[h].pid in m.procs
    ensures MirrorOk(Rebuilt(m, xqs))
  {
  }

  /** A consistent mirror is rebuilt from its own queues. */
  lemma RebuiltIsOnly(m: Mirror, n: Mirror)
    requires MirrorOk(n) && n.procs.Keys == m.procs.Keys
    requires forall p :: p in m.procs ==> n.procs[p].cmdline == m.procs[p].cmdline
    ensures n == Rebuilt(m, n.xqs)
  {
    var r := Rebuilt(m, n.xqs);
    RebuiltIsOk(m, n.xqs);
    forall p | p in n.procs ensures n.procs[p] == r.procs[p] {
      QueuesDetermineSets(n, r, p);
    }
  }

  lemma DecisionRebuilds(m: Mirror, h: Handle)
    requires MirrorOk(m)
    ensures MirrorOk(Parked(m, h)) && Parked(m, h) == Rebuilt(m, WithFlag(m, h, true))
    ensures MirrorOk(Released(m, h)) && Released(m, h) == Rebuilt(m, WithFlag(m, h, false))
  {
    DecisionKeepsMirror(m, h);
    RebuiltIsOnly(m, Parked(m, h));
    RebuiltIsOnly(m, Released(m, h));
  }

  /** All of `queues` get the same flag. */
  function Flagged(xqs: map<Handle, XQueueStatus>, queues: set<Handle>, suspended: bool): map<Handle, XQueueStatus> {
    map h | h in xqs :: if h in queues then xqs[h].(suspended := suspended) else xqs[h]
  }

  lemma FlaggedStep(m: Mirror, done: set<Handle>, h: Handle, suspended: bool)
    ensures Flagged(m.xqs, {}, suspended) == m.xqs
    ensures WithFlag(m.(xqs := Flagged(m.xqs, done, suspended)), h, suspended) == Flagged(m.xqs, done + {h}, suspended)
  {
  }

  /** Suspends or resumes every queue of a set, in whatever order it yields them. */
  method SetEach(scheduler: LocalScheduler, queues: set<Handle>, suspended: bool)
    requires MirrorOk(scheduler.View())
    modifies scheduler
    ensures MirrorOk(scheduler.View())
    ensures scheduler.View() == Rebuilt(old(scheduler.View()), Flagged(old(scheduler.xqs), queues, suspended))
  {
    hide MirrorOk, Parked, Released, Rebuilt, Flagged;
    ghost var m := scheduler.View();
    RebuiltIsOnly(m, m);
    FlaggedStep(m, {}, 0, suspended);
    var rest := queues;
    ghost var done: set<Handle> := {};
    while rest != {}
      invariant done + rest == queues && MirrorOk(scheduler.View())
      invariant scheduler.View() == Rebuilt(m, Flagged(m.xqs, done, suspended))
    {
      var h: Handle :| h in rest;
      DecisionRebuilds(scheduler.View(), h);
      RebuiltTwice(m, Flagged(m.xqs, done, suspended), Flagged(m.xqs, done + {h}, suspended));
      FlaggedStep(m, done, h, suspended);
      if suspended { scheduler.Suspend(h); } else { scheduler.Resume(h); }
      rest, done := rest - {h}, done + {h};
    }
    assert done == queues;
  }

  lemma RebuiltTwice(m: Mirror, xqs: map<Handle, XQueueStatus>, again: map<Handle, XQueueStatus>)
    ensures Rebuilt(m, xqs).xqs == xqs && Rebuilt(m, xqs).procs.Keys == m.procs.Keys
    ensures Rebuilt(Rebuilt(m, xqs), again) == Rebuilt(m, again)
  {
  }
}
