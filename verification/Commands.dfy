/** The life cycle of a command object and its listeners. */
module Commands {
  import opened Pipeline

  datatype CommandState = Created | Pending | InFlight | Completed

  function Rank(s: CommandState): nat {
    match s case Created => 0 case Pending => 1 case InFlight => 2 case Completed => 3
  }

  function StateOf(rank: nat): (s: CommandState)
    requires rank <= 3
    ensures Rank(s) == rank
  {
    if rank == 0 then Created else if rank == 1 then Pending else if rank == 2 then InFlight else Completed
  }

  /** The states passed on the way from `a` to `b`, without `a`. */
  function Passed(a: CommandState, b: CommandState): seq<CommandState>
    decreases Rank(b)
  {
    if Rank(b) <= Rank(a) then [] else Passed(a, StateOf(Rank(b) - 1)) + [b]
  }

  lemma {:induction false} PassedEachOnce(a: CommandState, b: CommandState)
    ensures forall s :: s in Passed(a, b) <==> Rank(a) < Rank(s) <= Rank(b)
    ensures forall i, j :: 0 <= i < j < |Passed(a, b)| ==> Rank(Passed(a, b)[i]) < Rank(Passed(a, b)[j])
    decreases Rank(b)
  {
    if Rank(b) > Rank(a) {
      var before := StateOf(Rank(b) - 1);
      PassedEachOnce(a, before);
      var p := Passed(a, before);
      assert forall i :: 0 <= i < |p| ==> p[i] in p;
    }
  }

  lemma {:induction false} PassedConcat(a: CommandState, b: CommandState, c: CommandState)
    requires Rank(a) <= Rank(b) <= Rank(c)
    ensures Passed(a, b) + Passed(b, c) == Passed(a, c)
    decreases Rank(c)
  {
    if Rank(b) < Rank(c) {
      PassedConcat(a, b, StateOf(Rank(c) - 1));
    }
  }

  datatype CommandKind = Hardware | Other(kind: AuxKind)

  /** `heard` records what each state listener has been called with, `since` the state the
      command had when the listener was added. A hardware command is named by `index`,
      any other by `id`. */
  class XCommand {
    const kind: CommandKind
    ghost const id: nat
    const deactivatable: bool
    const idempotent: bool
    const canEnable: bool
    const index: int
    var state: CommandState
    var synchronizable: bool
    var heard: seq<seq<CommandState>>
    ghost var since: seq<CommandState>

    /** Every listener has been told every state passed since it was added, in order, once. */
    ghost predicate Valid()
      reads this`heard, this`since, this`state
    {
      && |heard| == |since|
      && forall k :: 0 <= k < |heard| ==> Rank(since[k]) <= Rank(state) && heard[k] == Passed(since[k], state)
    }

    constructor (kind: CommandKind, ghost id: nat, index: int, deactivatable: bool, idempotent: bool, canEnable: bool,
                 synchronizable: bool)
      ensures Valid() && state == Created && heard == []
      ensures this.kind == kind && this.id == id && this.index == index && this.canEnable == canEnable
      ensures this.deactivatable == deactivatable && this.idempotent == idempotent
      ensures this.synchronizable == synchronizable
    {
      this.kind, this.id, this.index := kind, id, index;
      this.deactivatable, this.idempotent, this.canEnable := deactivatable, idempotent, canEnable;
      this.synchronizable := synchronizable;
      state, heard, since := Created, [], [];
    }

    method AddStateListener()
      requires Valid()
      modifies this`heard, this`since
      ensures Valid() && heard == old(heard) + [[]] && since == old(since) + [state]
    {
      heard := heard + [[]];
      since := since + [state];
    }

    /** Calls every listener with one state. */
    method CallListeners(passed: CommandState)
      modifies this`heard
      ensures |heard| == old(|heard|) && forall k :: 0 <= k < |heard| ==> heard[k] == old(heard)[k] + [passed]
    {
      var l := 0;
      while l < |heard|
        invariant 0 <= l <= |heard| == old(|heard|)
        invariant forall k :: 0 <= k < |heard| ==> heard[k] == if k < l then old(heard)[k] + [passed] else old(heard)[k]
      {
        heard := heard[l := heard[l] + [passed]];
        l := l + 1;
      }
    }

    method SetState(newState: CommandState)
      requires Valid() && Rank(state) <= Rank(newState)
      modifies this`state, this`heard
      ensures Valid() && state == newState && |heard| == old(|heard|)
      ensures forall k :: 0 <= k < |heard| ==> heard[k] == old(heard)[k] + Passed(old(state), newState)
    {
      var oldState := state;
      state := newState;
      if newState == oldState { return; }
      var i := Rank(oldState) + 1;
      while i <= Rank(newState)
        invariant Rank(oldState) + 1 <= i <= Rank(newState) + 1 && |heard| == old(|heard|) && state == newState
        invariant forall k :: 0 <= k < |heard| ==> heard[k] == old(heard)[k] + Passed(oldState, StateOf(i - 1))
      {
        CallListeners(StateOf(i));
        i := i + 1;
      }
      forall k | 0 <= k < |heard|
        ensures heard[k] == Passed(since[k], state)
      {
        PassedConcat(since[k], oldState, newState);
      }
    }

    /** Making a command synchronizable may fail; it never takes the property away. */
    method EnableSynchronization() returns (ok: bool)
      modifies this`synchronizable
      ensures ok == canEnable && synchronizable == (old(synchronizable) || canEnable)
    {
      ok := canEnable;
      if canEnable { synchronizable := true; }
    }
  }

  /** The name the pipeline gives to a command object. */
  ghost function RefOf(c: XCommand): Ref {
    if c.kind.Hardware? then HwRef(c.index) else AuxRef(c.id)
  }
}
