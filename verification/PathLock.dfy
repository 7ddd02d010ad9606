// The lock that serialises edits of one file (packages/core/src/agent-runtime/coding-tool-paths.ts):
// a chain of promises per target, with a table of the chains' ends. One stretch between two `await`s
// is one step, and so is the settling of a promise.
module PathLock {
  import opened Prelude

  datatype Stage = Waiting | Inside | Left

  /** One call of `withCodingPathLock`, in the order of the calls; `previous` is the call whose
      place in the chain it queued behind. */
  datatype Caller = Caller(target: string, previous: Option<nat>, stage: Stage)

  /** `table` holds the end of each chain; `settled` are the calls whose place in the chain has
      been passed on. */
  datatype State = State(callers: seq<Caller>, table: map<string, nat>, settled: set<nat>)

  datatype Action = Call(target: string) | Enter(id: nat) | Leave(id: nat) | Settle(id: nat)

  /** The chain up to this call's place has settled. */
  predicate Free(s: State, id: nat) {
    id < |s.callers| && (s.callers[id].previous.Some? ==> s.callers[id].previous.value in s.settled)
  }

  function DoCall(s: State, target: string): State {
    var previous := if target in s.table then Some(s.table[target]) else None;
    State(s.callers + [Caller(target, previous, Waiting)], s.table[target := |s.callers|], s.settled)
  }

  predicate CanEnter(s: State, id: nat) {
    Free(s, id) && s.callers[id].stage == Waiting
  }

  function WithStage(s: State, id: nat, stage: Stage): seq<Caller>
    requires id < |s.callers|
  {
    s.callers[id := Caller(s.callers[id].target, s.callers[id].previous, stage)]
  }

  predicate IsInside(s: State, id: nat) {
    id < |s.callers| && s.callers[id].stage == Inside
  }

  /** The work is over, whether it returned or threw. */
  function DoLeave(s: State, id: nat): State
    requires IsInside(s, id)
  {
    var target := s.callers[id].target;
    State(WithStage(s, id, Left),
          if target in s.table && s.table[target] == id then s.table - {target} else s.table,
          s.settled)
  }

  predicate CanSettle(s: State, id: nat) {
    Free(s, id) && s.callers[id].stage == Left
  }

  function Next(s: State, action: Action): State {
    match action
    case Call(target) => DoCall(s, target)
    case Enter(id) => if CanEnter(s, id) then State(WithStage(s, id, Inside), s.table, s.settled) else s
    case Leave(id) => if IsInside(s, id) then DoLeave(s, id) else s
    case Settle(id) => if CanSettle(s, id) then State(s.callers, s.table, s.settled + {id}) else s
  }

  const INIT := State([], map[], {})

  function Run(actions: seq<Action>): State {
    if actions == [] then INIT else Next(Run(actions[..|actions| - 1]), actions[|actions| - 1])
  }

  // ---- invariants ---------------------------------------------------------------------------------

  ghost predicate Same(callers: seq<Caller>, a: nat, b: nat) {
    a < |callers| && b < |callers| && callers[a].target == callers[b].target
  }

  /** Every earlier call for the same target is through. */
  ghost predicate FirstOfTheRest(callers: seq<Caller>, id: nat) {
    forall earlier: nat | earlier < id && Same(callers, earlier, id) :: callers[earlier].stage == Left
  }

  /** A call queues right behind the one before it, or none before it is still there. */
  ghost predicate Queued(callers: seq<Caller>, id: nat)
    requires id < |callers|
  {
    match callers[id].previous
    case None => FirstOfTheRest(callers, id)
    case Some(before) =>
      && before < id && Same(callers, before, id)
      && forall between: nat | before < between < id :: !Same(callers, between, id)
  }

  ghost predicate InOrder(callers: seq<Caller>) {
    forall id: nat | id < |callers| ::
      Queued(callers, id) && (callers[id].stage != Waiting ==> FirstOfTheRest(callers, id))
  }

  /** The table holds the last call for each target that somebody holds or waits for. */
  ghost predicate TableExact(callers: seq<Caller>, table: map<string, nat>) {
    && (forall target | target in table ::
          && table[target] < |callers|
          && callers[table[target]].target == target
          && callers[table[target]].stage != Left
          && forall later: nat | table[target] < later < |callers| :: callers[later].target != target)
    && (forall id: nat | id < |callers| && callers[id].stage != Left :: callers[id].target in table)
  }

  ghost predicate Inv(s: State) {
    && InOrder(s.callers)
    && TableExact(s.callers, s.table)
    && forall id | id in s.settled :: id < |s.callers| && s.callers[id].stage == Left
  }

  /** Whoever comes to be free has nobody before it any more. */
  lemma FreeIsFirst(s: State, id: nat)
    requires Inv(s) && Free(s, id)
    ensures FirstOfTheRest(s.callers, id)
  {
    assert Queued(s.callers, id);
    if s.callers[id].previous.Some? {
      var before := s.callers[id].previous.value;
      assert s.callers[before].stage == Left;
      forall earlier: nat | earlier < id && Same(s.callers, earlier, id) ensures s.callers[earlier].stage == Left {
        assert earlier <= before;
        assert earlier < before ==> Same(s.callers, earlier, before);
      }
    }
  }

  lemma CallKeeps(s: State, target: string)
    requires Inv(s)
    ensures Inv(DoCall(s, target))
  {
    var t := DoCall(s, target);
    var n := |s.callers|;
    assert forall k | 0 <= k < n :: t.callers[k] == s.callers[k];
    forall id: nat | id < n
      ensures Queued(t.callers, id) && (t.callers[id].stage != Waiting ==> FirstOfTheRest(t.callers, id))
    {
      assert Queued(s.callers, id);
      assert forall k: nat | k < id :: Same(t.callers, k, id) <==> Same(s.callers, k, id);
    }
    assert Queued(t.callers, n);
  }

  /** A step of one call: its target and its place stay. */
  lemma StageKeepsOrder(s: State, id: nat, stage: Stage)
    requires Inv(s) && id < |s.callers|
    requires s.callers[id].stage == Left ==> stage == Left
    requires stage != Waiting ==> FirstOfTheRest(s.callers, id)
    ensures InOrder(WithStage(s, id, stage))
  {
    var callers := WithStage(s, id, stage);
    assert forall a: nat, b: nat :: Same(callers, a, b) <==> Same(s.callers, a, b);
    forall k: nat | k < |callers|
      ensures Queued(callers, k) && (callers[k].stage != Waiting ==> FirstOfTheRest(callers, k))
    {
      assert Queued(s.callers, k);
      assert FirstOfTheRest(s.callers, k) ==> FirstOfTheRest(callers, k);
    }
  }

  lemma EnterKeeps(s: State, id: nat)
    requires Inv(s) && CanEnter(s, id)
    ensures Inv(Next(s, Enter(id)))
  {
    FreeIsFirst(s, id);
    StageKeepsOrder(s, id, Inside);
    assert forall k | 0 <= k < |s.callers| ::
      WithStage(s, id, Inside)[k].target == s.callers[k].target
      && (WithStage(s, id, Inside)[k].stage == Left <==> s.callers[k].stage == Left);
  }

  lemma LeaveKeeps(s: State, id: nat)
    requires Inv(s) && IsInside(s, id)
    ensures Inv(DoLeave(s, id))
  {
    var t := DoLeave(s, id);
    var target := s.callers[id].target;
    assert Queued(s.callers, id) && FirstOfTheRest(s.callers, id);
    StageKeepsOrder(s, id, Left);
    assert forall k | 0 <= k < |s.callers| && k != id :: t.callers[k] == s.callers[k];
    if s.table[target] == id {
      forall k: nat | k < |t.callers| && t.callers[k].stage != Left ensures t.callers[k].target in t.table {
        assert k != id && (k < id ==> !Same(s.callers, k, id));
      }
    }
  }

  lemma NextKeeps(s: State, action: Action)
    requires Inv(s)
    ensures Inv(Next(s, action))
  {
    match action
    case Call(target) => CallKeeps(s, target);
    case Enter(id) => if CanEnter(s, id) { EnterKeeps(s, id); }
    case Leave(id) => if IsInside(s, id) { LeaveKeeps(s, id); }
    case Settle(id) =>
  }

  lemma {:induction false} RunKeeps(actions: seq<Action>)
    ensures Inv(Run(actions))
  {
    if actions != [] {
      RunKeeps(actions[..|actions| - 1]);
      NextKeeps(Run(actions[..|actions| - 1]), actions[|actions| - 1]);
    }
  }

  /** At most one caller is inside for a target. */
  lemma MutualExclusion(actions: seq<Action>, a: nat, b: nat)
    requires IsInside(Run(actions), a) && IsInside(Run(actions), b)
    requires Run(actions).callers[a].target == Run(actions).callers[b].target
    ensures a == b
  {
    RunKeeps(actions);
    var callers := Run(actions).callers;
    assert Same(callers, a, b) && Same(callers, b, a);
    assert Queued(callers, a) && Queued(callers, b);
  }

  /** Callers enter in the order of their calls: whoever is in or through came after nobody who is
      not through. */
  lemma FirstComeFirstServed(actions: seq<Action>, earlier: nat, later: nat)
    requires earlier < later < |Run(actions).callers|
    requires Run(actions).callers[earlier].target == Run(actions).callers[later].target
    requires Run(actions).callers[later].stage != Waiting
    ensures Run(actions).callers[earlier].stage == Left
  {
    RunKeeps(actions);
    var callers := Run(actions).callers;
    assert Same(callers, earlier, later) && Queued(callers, later);
  }

  /** There is an entry for a target exactly while somebody holds or waits for it. */
  lemma TableIsTight(actions: seq<Action>, target: string)
    ensures var s := Run(actions);
            target in s.table <==>
              exists id :: 0 <= id < |s.callers| && s.callers[id].target == target && s.callers[id].stage != Left
  {
    RunKeeps(actions);
  }

  function After(s: State, actions: seq<Action>): State
    decreases actions
  {
    if actions == [] then s else After(Next(s, actions[0]), actions[1..])
  }

  lemma {:induction false} AfterNext(s: State, actions: seq<Action>, action: Action)
    ensures After(s, actions + [action]) == Next(After(s, actions), action)
    decreases actions
  {
    if actions == [] {
      assert [action][1..] == [];
    } else {
      assert (actions + [action])[1..] == actions[1..] + [action];
      AfterNext(Next(s, actions[0]), actions[1..], action);
    }
  }

  /** The places of a chain settle one after the other, up to that of a call that is through. */
  lemma {:induction false} ChainSettles(s: State, id: nat) returns (actions: seq<Action>)
    requires Inv(s) && id < |s.callers| && s.callers[id].stage == Left
    ensures forall i | 0 <= i < |actions| :: actions[i].Settle?
    ensures var t := After(s, actions); t.callers == s.callers && t.table == s.table && id in t.settled
  {
    actions := [];
    assert Queued(s.callers, id);
    if s.callers[id].previous.Some? {
      assert Same(s.callers, s.callers[id].previous.value, id);
      actions := ChainSettles(s, s.callers[id].previous.value);
    }
    AfterNext(s, actions, Settle(id));
    actions := actions + [Settle(id)];
  }

  /** Nobody waits behind a chain that cannot move: once everybody before it is through, promises that
      settle are all that a caller needs to get in. */
  lemma CallerGetsIn(actions: seq<Action>, id: nat) returns (more: seq<Action>)
    requires id < |Run(actions).callers| && Run(actions).callers[id].stage == Waiting
    requires FirstOfTheRest(Run(actions).callers, id)
    ensures forall i | 0 <= i < |more| :: more[i].Settle?
    ensures IsInside(After(Run(actions), more + [Enter(id)]), id)
  {
    RunKeeps(actions);
    var s := Run(actions);
    more := [];
    if s.callers[id].previous.Some? {
      assert Queued(s.callers, id);
      more := ChainSettles(s, s.callers[id].previous.value);
    }
    AfterNext(s, more, Enter(id));
  }

  // ---- the lock table ------------------------------------------------------------------------------

  class PathLocks {
    var callers: seq<Caller>
    var table: map<string, nat>
    var settled: set<nat>

    ghost function Value(): State
      reads this
    {
      State(callers, table, settled)
    }

    constructor ()
      ensures Value() == INIT && Inv(Value())
    {
      callers, table, settled := [], map[], {};
    }

    /** `withCodingPathLock` up to its first `await`. */
    method Request(target: string) returns (id: nat)
      requires Inv(Value())
      modifies this`callers, this`table
      ensures Value() == Next(old(Value()), Call(target)) && Inv(Value()) && id == |old(callers)|
    {
      NextKeeps(Value(), Call(target));
      id := |callers|;
      var previous := if target in table then Some(table[target]) else None;
      callers := callers + [Caller(target, previous, Waiting)];
      table := table[target := id];
    }

    /** Past the `await`: the work begins. */
    method Begin(id: nat)
      requires Inv(Value()) && CanEnter(Value(), id)
      modifies this`callers
      ensures Value() == Next(old(Value()), Enter(id)) && Inv(Value())
    {
      NextKeeps(Value(), Enter(id));
      callers := callers[id := Caller(callers[id].target, callers[id].previous, Inside)];
    }

    /** The `finally`: pass the place on, and drop the entry if nobody queued behind. */
    method Release(id: nat)
      requires Inv(Value()) && IsInside(Value(), id)
      modifies this`callers, this`table
      ensures Value() == Next(old(Value()), Leave(id)) && Inv(Value())
    {
      NextKeeps(Value(), Leave(id));
      var target := callers[id].target;
      callers := callers[id := Caller(target, callers[id].previous, Left)];
      if target in table && table[target] == id {
        table := table - {target};
      }
    }
  }
}
