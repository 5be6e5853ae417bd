/** The arithmetic of the launch worker's two logs: which prefix a completed
    synchronization pops, and which command a full or unsafe log waits on.
    A log is a sequence of command indices. */
module LaunchLog {
  import opened Options

  ghost predicate Increasing(s: seq<int>) {
    forall i, j :: 0 <= i < j < |s| ==> s[i] < s[j]
  }

  lemma IncreasingAppend(s: seq<int>, h: int)
    requires Increasing(s) && forall x :: x in s ==> x < h
    ensures Increasing(s + [h])
    ensures forall x :: x in s + [h] <==> x in s || x == h
  {
    forall i | 0 <= i < |s| ensures s[i] < h {
      assert s[i] in s;
    }
  }

  /** How many leading entries the pop loop removes when it is told that every
      command up to index `c` has finished. */
  function CutPoint(s: seq<int>, c: int): (k: nat)
    ensures k <= |s|
    ensures forall i :: 0 <= i < k ==> s[i] <= c
    ensures k < |s| ==> s[k] > c
  {
    if s == [] || s[0] > c then 0 else 1 + CutPoint(s[1..], c)
  }

  /** What is left of a log after the pop loop. */
  function PopThrough(s: seq<int>, c: int): seq<int> {
    s[CutPoint(s, c)..]
  }

  /** On an increasing log the pop loop keeps exactly the later commands, in order. */
  lemma PopThroughKeepsLater(s: seq<int>, c: int)
    requires Increasing(s)
    ensures Increasing(PopThrough(s, c))
    ensures forall x :: x in PopThrough(s, c) <==> x in s && x > c
    ensures |PopThrough(s, c)| <= |s|
    ensures (exists x :: x in s && x <= c) ==> |PopThrough(s, c)| < |s|
  {
    var k := CutPoint(s, c);
    var t := s[k..];
    forall x | x in s && x > c
      ensures x in t
    {
      var i :| 0 <= i < |s| && s[i] == x;
      assert t[i - k] == x;
    }
    forall x | x in t
      ensures x in s && x > c
    {
      var i :| 0 <= i < |t| && t[i] == x;
      assert s[k + i] == x;
    }
  }

  /** Outcome of the backward scan made before launching a command that is neither
      deactivatable nor idempotent. */
  datatype Scan = NothingToWaitFor | WaitForCommand(index: int) | WaitForAll

  /** The scan over the first `n` entries, newest first; `best` is the oldest
      synchronizable command seen so far. */
  function ScanBack(log: seq<int>, n: nat, deactivatable: set<int>, synchronizable: set<int>, best: Option<int>): Scan
    requires n <= |log|
  {
    if n == 0 then NothingToWaitFor
    else
      var x := log[n - 1];
      var best' := if x in synchronizable then Some(x) else best;
      if x !in deactivatable then ScanBack(log, n - 1, deactivatable, synchronizable, best')
      else if best'.None? then WaitForAll
      else WaitForCommand(best'.value)
  }

  /** `c` is the newest deactivatable command of the log. */
  ghost predicate NewestDeactivatable(log: seq<int>, deactivatable: set<int>, c: int) {
    && c in log && c in deactivatable
    && forall x :: x in log && x in deactivatable ==> x <= c
  }

  /** What the scan has to find, stated without the scan: the oldest synchronizable
      command that is not older than the newest deactivatable one. */
  ghost predicate ScanIsRight(log: seq<int>, deactivatable: set<int>, synchronizable: set<int>, r: Scan) {
    match r
    case NothingToWaitFor =>
      forall x :: x in log ==> x !in deactivatable
    case WaitForAll =>
      exists d :: NewestDeactivatable(log, deactivatable, d)
                  && forall y :: y in log && y in synchronizable ==> y < d
    case WaitForCommand(c) =>
      && c in log && c in synchronizable
      && exists d :: NewestDeactivatable(log, deactivatable, d) && d <= c
                     && forall y :: y in log && y in synchronizable && d <= y ==> c <= y
  }

  lemma {:induction false} ScanBackIsRight(log: seq<int>, n: nat, deactivatable: set<int>, synchronizable: set<int>,
                                           best: Option<int>)
    requires n <= |log| && Increasing(log)
    requires forall i :: n <= i < |log| ==> log[i] !in deactivatable
    requires best.None? ==> forall i :: n <= i < |log| ==> log[i] !in synchronizable
    requires best.Some? ==> exists i :: n <= i < |log| && log[i] == best.value && log[i] in synchronizable
                                        && forall j :: n <= j < i ==> log[j] !in synchronizable
    ensures ScanIsRight(log, deactivatable, synchronizable, ScanBack(log, n, deactivatable, synchronizable, best))
  {
    if n > 0 {
      var x := log[n - 1];
      var best' := if x in synchronizable then Some(x) else best;
      if x !in deactivatable {
        ScanBackIsRight(log, n - 1, deactivatable, synchronizable, best');
      } else {
        assert NewestDeactivatable(log, deactivatable, x);
      }
    }
  }

  /** The first synchronizable command whose completion frees a slot of a full log. */
  function SlotCommand(syncLog: seq<int>, front: int): Option<int> {
    if syncLog == [] then None
    else if syncLog[0] >= front then Some(syncLog[0])
    else SlotCommand(syncLog[1..], front)
  }

  lemma SlotCommandIsOldest(syncLog: seq<int>, front: int)
    requires forall x :: x in syncLog ==> x >= front
    ensures SlotCommand(syncLog, front) == if syncLog == [] then None else Some(syncLog[0])
  {
    if syncLog != [] {
      assert syncLog[0] in syncLog;
    }
  }
}
