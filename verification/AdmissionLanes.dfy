// Process-local admission of runs (packages/core/src/agent-runtime/admission-lanes.ts): per
// conversation key the run that executes and one successor, onto which further ones coalesce.
module AdmissionLanes {
  import opened Prelude

  /** Admissions are known by their run identities. */
  datatype Lane = Lane(head: Option<string>, pending: Option<string>)

  type Lanes = map<string, Lane>

  datatype Action = Reserve(key: string, run: string) | Settle(key: string, run: string)

  // ---- what a lane is meant to be: a queue of at most two runs -------------------------------------

  function Without(queue: seq<string>, run: string): seq<string> {
    if queue == [] then [] else (if queue[0] == run then [] else [queue[0]]) + Without(queue[1..], run)
  }

  /** The runs of a key that have been scheduled and not settled, in the order of scheduling. */
  function LiveRuns(actions: seq<Action>, key: string): (queue: seq<string>)
    ensures |queue| <= 2
  {
    if actions == [] then [] else
      var queue, action := LiveRuns(actions[..|actions| - 1], key), actions[|actions| - 1];
      if action.key != key then queue
      else if action.Reserve? then (if |queue| < 2 then queue + [action.run] else queue)
      else
        WithoutIsShorter(queue, action.run);
        Without(queue, action.run)
  }

  lemma {:induction false} WithoutIsShorter(queue: seq<string>, run: string)
    ensures |Without(queue, run)| <= |queue|
    ensures forall other | other in Without(queue, run) :: other in queue && other != run
  {
    if queue != [] {
      WithoutIsShorter(queue[1..], run);
    }
  }

  // ---- lanes ---------------------------------------------------------------------------------------

  datatype Reservation = Reservation(lanes: Lanes, admission: string, shouldSchedule: bool)

  function DoReserve(lanes: Lanes, key: string, run: string): Reservation {
    var lane := if key in lanes then lanes[key] else Lane(None, None);
    if lane.head.None? then Reservation(lanes[key := Lane(Some(run), lane.pending)], run, true)
    else if lane.pending.None? then Reservation(lanes[key := Lane(lane.head, Some(run))], run, true)
    else Reservation(lanes[key := lane], lane.pending.value, false)
  }

  function DoSettle(lanes: Lanes, key: string, run: string): Lanes {
    if key !in lanes then lanes
    else
      var lane := lanes[key];
      var after :=
        if lane.head == Some(run) then Lane(lane.pending, None)
        else if lane.pending == Some(run) then Lane(lane.head, None)
        else lane;
      if after == Lane(None, None) then lanes - {key} else lanes[key := after]
  }

  function Next(lanes: Lanes, action: Action): Lanes {
    match action
    case Reserve(key, run) => DoReserve(lanes, key, run).lanes
    case Settle(key, run) => DoSettle(lanes, key, run)
  }

  function Run(actions: seq<Action>): Lanes {
    if actions == [] then map[] else Next(Run(actions[..|actions| - 1]), actions[|actions| - 1])
  }

  /** The lane that holds this queue; a key without runs has none. */
  predicate Holds(lanes: Lanes, key: string, queue: seq<string>) {
    match |queue|
    case 0 => key !in lanes
    case 1 => key in lanes && lanes[key] == Lane(Some(queue[0]), None)
    case 2 => key in lanes && lanes[key] == Lane(Some(queue[0]), Some(queue[1]))
    case _ => false
  }

  /** No run is reserved while it is the one run of its key: none becomes its own successor. */
  predicate NoneBehindItself(actions: seq<Action>, key: string) {
    actions == [] ||
    (var earlier, action := actions[..|actions| - 1], actions[|actions| - 1];
     && NoneBehindItself(earlier, key)
     && !(action == Reserve(key, action.run) && LiveRuns(earlier, key) == [action.run]))
  }

  lemma {:induction false} LiveAreDistinct(actions: seq<Action>, key: string)
    requires NoneBehindItself(actions, key)
    ensures |LiveRuns(actions, key)| == 2 ==> LiveRuns(actions, key)[0] != LiveRuns(actions, key)[1]
  {
    if actions != [] {
      var earlier, action := actions[..|actions| - 1], actions[|actions| - 1];
      LiveAreDistinct(earlier, key);
      WithoutOfTwo(LiveRuns(earlier, key), action.run);
    }
  }

  lemma WithoutOfTwo(queue: seq<string>, run: string)
    requires |queue| <= 2
    ensures Without(queue, run) ==
              (if |queue| >= 1 && queue[0] != run then [queue[0]] else [])
              + (if |queue| == 2 && queue[1] != run then [queue[1]] else [])
  {
    if |queue| >= 1 {
      var tail := queue[1..];
      assert |tail| == 1 ==> tail[1..] == [] && Without(tail[1..], run) == [];
      assert Without(tail, run) == if |queue| == 2 && queue[1] != run then [queue[1]] else [];
    }
  }

  /** Unless a run is put behind itself every lane is the queue of its live runs, after any sequence
      of calls: the first scheduled is the head, a pending run stands behind a head, promotion keeps
      the order, and a lane is stored exactly while it holds a run. */
  lemma {:induction false} LanesAreQueues(actions: seq<Action>, key: string)
    requires NoneBehindItself(actions, key)
    ensures Holds(Run(actions), key, LiveRuns(actions, key))
  {
    if actions != [] {
      var earlier, action := actions[..|actions| - 1], actions[|actions| - 1];
      LanesAreQueues(earlier, key);
      LiveAreDistinct(earlier, key);
      WithoutOfTwo(LiveRuns(earlier, key), action.run);
    }
  }

  /** Settling this run next leaves the lane the queue of what is then live. */
  predicate SettlesRight(actions: seq<Action>, key: string, run: string) {
    Holds(Run(actions + [Settle(key, run)]), key, LiveRuns(actions + [Settle(key, run)], key))
  }

  /** A run reserved while it is the one run of its key does not go away when it is settled. */
  lemma BehindItselfStays(actions: seq<Action>, key: string, run: string)
    requires NoneBehindItself(actions, key) && LiveRuns(actions, key) == [run]
    ensures !SettlesRight(actions + [Reserve(key, run)], key, run)
  {
    LanesAreQueues(actions, key);
    var twice := actions + [Reserve(key, run)];
    var all := twice + [Settle(key, run)];
    assert twice[..|twice| - 1] == actions && all[..|all| - 1] == twice;
    assert LiveRuns(twice, key) == [run, run];
    WithoutOfTwo([run, run], run);
    assert Run(twice)[key] == Lane(Some(run), Some(run));
    assert LiveRuns(all, key) == [] && key in Run(all);
  }

  /** That is the only way to go wrong: whenever runs are settled, lanes are the queues of live runs
      exactly when no run has been put behind itself. */
  lemma {:induction false} QueuesExactly(actions: seq<Action>, key: string)
    ensures NoneBehindItself(actions, key) <==> forall n, run | 0 <= n <= |actions| :: SettlesRight(actions[..n], key, run)
  {
    var whole := actions[..|actions|];
    assert whole == actions;
    if NoneBehindItself(actions, key) {
      forall run ensures SettlesRight(actions, key, run) {
        var all := actions + [Settle(key, run)];
        assert all[..|all| - 1] == actions;
        LanesAreQueues(all, key);
      }
    }
    if actions != [] {
      var earlier, action := actions[..|actions| - 1], actions[|actions| - 1];
      QueuesExactly(earlier, key);
      assert forall n | 0 <= n < |actions| :: earlier[..n] == actions[..n];
      if NoneBehindItself(earlier, key) && !NoneBehindItself(actions, key) {
        BehindItselfStays(earlier, key, action.run);
        assert actions == earlier + [action];
        assert !SettlesRight(whole, key, action.run);
      } else if !NoneBehindItself(earlier, key) {
        var n, run :| 0 <= n <= |earlier| && !SettlesRight(earlier[..n], key, run);
        assert !SettlesRight(actions[..n], key, run);
      }
    }
  }

  /** A third caller is put onto the successor, which is not the head, and nothing is scheduled;
      a first or second one is scheduled under its own identity. */
  lemma ReserveCoalesces(actions: seq<Action>, key: string, run: string)
    requires NoneBehindItself(actions, key)
    ensures var queue := LiveRuns(actions, key);
            var reservation := DoReserve(Run(actions), key, run);
            if |queue| < 2 then reservation.shouldSchedule && reservation.admission == run
            else !reservation.shouldSchedule && reservation.admission == queue[1] != queue[0]
  {
    LanesAreQueues(actions, key);
    LiveAreDistinct(actions, key);
  }

  /** The shortest such run: settled once, it is left behind as its own successor. */
  lemma RepeatedRunSettlesOnce(key: string, run: string)
    ensures var actions := [Reserve(key, run), Reserve(key, run), Settle(key, run)];
            LiveRuns(actions, key) == [] && Run(actions) == map[key := Lane(Some(run), None)]
  {
    var actions := [Reserve(key, run), Reserve(key, run), Settle(key, run)];
    var two := [Reserve(key, run), Reserve(key, run)];
    var one := [Reserve(key, run)];
    assert actions[..2] == two && two[..1] == one && one[..0] == [];
    assert Run(one) == map[key := Lane(Some(run), None)];
    assert Run(two) == map[key := Lane(Some(run), Some(run))];
    assert LiveRuns(one, key) == [run] && LiveRuns(two, key) == [run, run];
    WithoutOfTwo([run, run], run);
  }

  // ---- the lanes object ------------------------------------------------------------------------------

  class RuntimeAdmissionLanes {
    var lanes: Lanes

    constructor ()
      ensures lanes == map[]
    {
      lanes := map[];
    }

    method ReserveRun(key: string, run: string) returns (admission: string, shouldSchedule: bool)
      modifies this
      ensures Reservation(lanes, admission, shouldSchedule) == DoReserve(old(lanes), key, run)
    {
      if key !in lanes {
        lanes := lanes[key := Lane(None, None)];
      }
      var lane := lanes[key];
      if lane.head.None? {
        lanes := lanes[key := Lane(Some(run), lane.pending)];
        return run, true;
      }
      if lane.pending.None? {
        lanes := lanes[key := Lane(lane.head, Some(run))];
        return run, true;
      }
      return lane.pending.value, false;
    }

    method SettleRun(key: string, run: string)
      modifies this
      ensures lanes == DoSettle(old(lanes), key, run)
    {
      if key !in lanes {
        return;
      }
      var lane := lanes[key];
      if lane.head == Some(run) {
        lanes := lanes[key := Lane(lane.pending, None)];
      } else if lane.pending == Some(run) {
        lanes := lanes[key := Lane(lane.head, None)];
      }
      if lanes[key] == Lane(None, None) {
        lanes := lanes - {key};
      }
    }
  }
}
