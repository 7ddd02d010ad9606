// The requests of the browser controller stay serialised, within capacity, and marked by `busy`
// (packages/core/src/agent-runtime/browser-controller.ts).
module BrowserRequests {
  import opened Prelude
  import opened BrowserController

  lemma Appended(requests: seq<Request>, g: nat, tail: Option<nat>, operation: Operation)
    requires Chained(requests) && Serial(requests, g) && TailOf(requests, g, tail)
    ensures var longer := requests + [Request(operation, g, tail, Waiting, Undecided)];
            Chained(longer) && Serial(longer, g) && TailOf(longer, g, Some(|requests|))
  {
    var longer := requests + [Request(operation, g, tail, Waiting, Undecided)];
    assert forall id | 0 <= id < |requests| :: longer[id] == requests[id];
    forall id | 0 <= id < |requests| ensures ChainedAt(longer, id) {
      assert ChainedAt(requests, id);
    }
    assert ChainedAt(longer, |requests|);
  }

  /** A step on one request moves its stage and its race, nothing else. */
  ghost predicate Moves(requests: seq<Request>, moved: seq<Request>, id: nat) {
    && id < |requests| == |moved|
    && moved == requests[id := moved[id]]
    && moved[id].epoch == requests[id].epoch
    && moved[id].after == requests[id].after
  }

  lemma MovesKeepChain(requests: seq<Request>, moved: seq<Request>, id: nat)
    requires Chained(requests) && Moves(requests, moved, id)
    ensures Chained(moved)
  {
    assert forall k | 0 <= k < |requests| ::
      moved[k].epoch == requests[k].epoch && moved[k].after == requests[k].after;
    forall k | 0 <= k < |moved| ensures ChainedAt(moved, k) {
      assert ChainedAt(requests, k);
    }
  }

  /** A request of generation `g` comes to its turn when every earlier one has settled. */
  lemma TurnIsFree(requests: seq<Request>, g: nat, id: nat)
    requires Chained(requests) && Serial(requests, g)
    requires id < |requests| && requests[id].epoch == g && requests[id].stage == Waiting
    requires requests[id].after.Some? ==>
               requests[id].after.value < |requests| && requests[requests[id].after.value].race == Settled
    ensures forall k | 0 <= k < |requests| && requests[k].epoch == g ::
              requests[k].stage != Executing && (k < id ==> requests[k].race == Settled)
              && (k > id ==> requests[k].stage == Waiting)
  {
    assert ChainedAt(requests, id);
    assert requests[id].race == Undecided;
    forall k | 0 <= k < id && requests[k].epoch == g ensures requests[k].race == Settled {
      assert requests[id].after.Some?;
      var before := requests[id].after.value;
      assert requests[before].stage == Over;
      assert k <= before;
    }
  }

  lemma MovesKeepSerial(requests: seq<Request>, moved: seq<Request>, g: nat, id: nat)
    requires Serial(requests, g) && Moves(requests, moved, id)
    requires requests[id].race == Settled ==> moved[id].race == Settled
    requires requests[id].epoch == g ==>
               && (moved[id].race == Undecided <==> moved[id].stage != Over)
               && (moved[id].stage == Waiting || requests[id].stage != Waiting
                   || forall k | 0 <= k < id && requests[k].epoch == g :: requests[k].race == Settled)
    ensures Serial(moved, g)
  {
    forall a, b | 0 <= a < b < |moved| && moved[a].epoch == g && moved[b].epoch == g
      ensures moved[b].stage == Waiting || moved[a].race == Settled
    {
      assert requests[b].stage == Waiting || requests[a].race == Settled;
    }
  }

  lemma CommandKeeps(config: Config, s: State, operation: Operation)
    requires QueueInv(config, s)
    ensures QueueInv(config, DoCommand(config, s, operation))
  {
    if Admits(config, s) {
      var t := DoCommand(config, s, operation);
      Appended(s.requests, s.generation, s.tail, operation);
      assert |s.requests| !in s.pending;
      assert forall k: nat | k < |s.requests| :: t.requests[k] == s.requests[k];
      SameExecuting(s, t);
    }
  }

  lemma SameExecuting(s: State, t: State)
    requires t.generation == s.generation
    requires forall k: nat :: ExecutingNow(t, k) <==> ExecutingNow(s, k)
    ensures (exists k: nat :: ExecutingNow(t, k)) <==> (exists k: nat :: ExecutingNow(s, k))
  {
    if k: nat :| ExecutingNow(t, k) {
      assert ExecutingNow(s, k);
    }
    if k: nat :| ExecutingNow(s, k) {
      assert ExecutingNow(t, k);
    }
  }

  /** What a step on one request leaves alone. */
  ghost predicate OnlyMoves(s: State, t: State, id: nat) {
    && Moves(s.requests, t.requests, id)
    && t.generation == s.generation && t.connection == s.connection && t.closed == s.closed && t.tail == s.tail
  }

  lemma MovesKeepRequests(s: State, t: State, id: nat)
    requires RequestInv(s) && OnlyMoves(s, t, id) && Serial(t.requests, t.generation)
    ensures RequestInv(t)
  {
    MovesKeepChain(s.requests, t.requests, id);
    assert forall k | 0 <= k < |s.requests| :: t.requests[k].epoch == s.requests[k].epoch;
  }

  lemma MovesKeepPending(config: Config, s: State, t: State, id: nat)
    requires PendingInv(config, s) && OnlyMoves(s, t, id) && t.pending == s.pending
    requires t.requests[id].race == Settled <==> s.requests[id].race == Settled
    ensures PendingInv(config, t)
  {
    assert forall k: nat | k < |s.requests| ::
      (Live(t, k) <==> Live(s, k)) && (t.requests[k].race == Settled <==> s.requests[k].race == Settled);
  }

  lemma StartKeeps(config: Config, s: State, id: nat)
    requires QueueInv(config, s) && Startable(s, id)
    ensures QueueInv(config, DoStart(s, id))
  {
    var t := DoStart(s, id);
    assert OnlyMoves(s, t, id);
    if Live(s, id) {
      TurnIsFree(s.requests, s.generation, id);
    }
    MovesKeepSerial(s.requests, t.requests, s.generation, id);
    MovesKeepRequests(s, t, id);
    MovesKeepPending(config, s, t, id);
    StartKeepsBusy(s, id);
  }

  lemma StartKeepsBusy(s: State, id: nat)
    requires RequestInv(s) && BusyInv(s) && Startable(s, id)
    ensures BusyInv(DoStart(s, id))
  {
    var t := DoStart(s, id);
    if t.requests[id].stage == Executing {
      assert ExecutingNow(t, id);
    } else {
      assert forall k: nat | k != id :: ExecutingNow(t, k) <==> ExecutingNow(s, k);
      SameExecuting(s, t);
    }
  }

  /** At most one request of a generation executes. */
  lemma OneExecutes(s: State, a: nat, b: nat)
    requires RequestInv(s) && ExecutingNow(s, a) && ExecutingNow(s, b)
    ensures a == b
  {
    assert s.requests[a].race == Undecided && s.requests[b].race == Undecided;
  }

  lemma SettleKeeps(config: Config, s: State, id: nat, outcome: Outcome)
    requires QueueInv(config, s) && Executes(s, id)
    ensures QueueInv(config, DoSettle(config, s, id, outcome))
  {
    var t := DoSettle(config, s, id, outcome);
    assert OnlyMoves(s, t, id);
    MovesKeepSerial(s.requests, t.requests, s.generation, id);
    MovesKeepRequests(s, t, id);
    MovesKeepPending(config, s, t, id);
    SettleKeepsBusy(config, s, id, outcome);
  }

  lemma SettleKeepsBusy(config: Config, s: State, id: nat, outcome: Outcome)
    requires RequestInv(s) && BusyInv(s) && Executes(s, id)
    ensures BusyInv(DoSettle(config, s, id, outcome))
  {
    var t := DoSettle(config, s, id, outcome);
    if Live(s, id) {
      forall k: nat ensures !ExecutingNow(t, k) {
        if ExecutingNow(s, k) {
          OneExecutes(s, id, k);
        }
      }
    } else {
      assert forall k: nat :: ExecutingNow(t, k) <==> ExecutingNow(s, k);
      SameExecuting(s, t);
    }
  }

  lemma CleanUpKeeps(config: Config, s: State, id: nat)
    requires QueueInv(config, s) && id < |s.requests| && s.requests[id].race == Decided
    ensures QueueInv(config, DoCleanUp(config, s, id))
  {
    var t := DoCleanUp(config, s, id);
    assert OnlyMoves(s, t, id);
    MovesKeepSerial(s.requests, t.requests, s.generation, id);
    MovesKeepRequests(s, t, id);
    CleanUpKeepsPending(config, s, id);
    assert forall k: nat :: ExecutingNow(t, k) <==> ExecutingNow(s, k);
    SameExecuting(s, t);
  }

  lemma CleanUpKeepsPending(config: Config, s: State, id: nat)
    requires PendingInv(config, s) && id < |s.requests| && s.requests[id].race == Decided
    ensures PendingInv(config, DoCleanUp(config, s, id))
  {
    var t := DoCleanUp(config, s, id);
    assert t.pending == s.pending - {id} && |t.pending| <= |s.pending|;
    assert forall k: nat | k < |s.requests| && k != id :: t.requests[k] == s.requests[k];
  }

  lemma RenewedKeeps(config: Config, s: State, up: bool)
    requires RequestInv(s) && !s.closed
    ensures QueueInv(config, Renewed(s, up))
  {
    var t := Renewed(s, up);
    assert forall k | 0 <= k < |s.requests| ::
      t.requests[k].epoch == s.requests[k].epoch < t.generation && t.requests[k].after == s.requests[k].after;
    forall k | 0 <= k < |t.requests| ensures ChainedAt(t.requests, k) {
      assert ChainedAt(s.requests, k);
    }
    assert forall k: nat :: !Live(t, k);
  }

  lemma ChangedKeeps(config: Config, s: State, up: bool)
    requires RequestInv(s) && !s.closed
    ensures QueueInv(config, DoChanged(config, s, up))
  {
    RenewedKeeps(config, s, up);
    CommandKeeps(config, Renewed(s, up), Attach);
  }

  lemma CloseKeeps(config: Config, s: State)
    requires QueueInv(config, s)
    ensures QueueInv(config, DoClose(s))
  {
    assert !s.closed ==> forall k | 0 <= k < |s.requests| :: s.requests[k].epoch < DoClose(s).generation;
  }

  /** Steps that only touch what the application sees. */
  lemma ClientStepKeeps(config: Config, s: State, t: State)
    requires QueueInv(config, s)
    requires t.requests == s.requests && t.pending == s.pending && t.tail == s.tail && t.busy == s.busy
    requires t.generation == s.generation && t.connection == s.connection && t.closed == s.closed
    ensures QueueInv(config, t)
  {
    assert forall k: nat :: ExecutingNow(t, k) <==> ExecutingNow(s, k);
    SameExecuting(s, t);
    assert forall k: nat :: Live(t, k) <==> Live(s, k);
  }

  lemma RefreshKeeps(config: Config, s: State)
    requires QueueInv(config, s)
    ensures QueueInv(config, DoRefresh(config, s))
  {
    var taken := s.(refreshScheduled := false);
    if s.closed || s.client.status != Ready {
      ClientStepKeeps(config, s, taken);
    } else {
      var counted := taken.(refreshAttempts := s.refreshAttempts + 1);
      if counted.refreshAttempts > 3 {
        ClientStepKeeps(config, s, counted.(client := Fail(s.client, ResyncExhausted)));
      } else {
        ClientStepKeeps(config, s, counted);
        CommandKeeps(config, counted, TakeSnapshot);
      }
    }
  }

  lemma ReceiveKeepsQueue(config: Config, s: State, delivery: Delivery)
    requires QueueInv(config, s)
    ensures QueueInv(config, DoReceive(config, s, delivery))
  {
    ClientStepKeeps(config, s, DoReceive(config, s, delivery));
  }

  lemma ConnectionKeepsQueue(config: Config, s: State, up: bool)
    requires QueueInv(config, s)
    ensures QueueInv(config, DoConnection(config, s, up))
  {
    if s.closed {
      ClientStepKeeps(config, s, DoConnection(config, s, up));
    } else {
      ChangedKeeps(config, s, up);
    }
  }

  /** Steps of one request. */
  lemma RequestStepKeeps(config: Config, s: State, action: Action)
    requires QueueInv(config, s)
    requires action.Start? || action.Settle? || action.CleanUp?
    ensures QueueInv(config, Next(config, s, action))
  {
    match action
    case Start(id) => if Startable(s, id) { StartKeeps(config, s, id); }
    case Settle(id, outcome) => if Executes(s, id) { SettleKeeps(config, s, id, outcome); }
    case CleanUp(id) => if id < |s.requests| && s.requests[id].race == Decided { CleanUpKeeps(config, s, id); }
  }

  lemma QueueNextKeeps(config: Config, s: State, action: Action)
    requires QueueInv(config, s)
    ensures QueueInv(config, Next(config, s, action))
  {
    match action
    case Command(operation) => CommandKeeps(config, s, operation);
    case Refresh => RefreshKeeps(config, s);
    case Receive(delivery) => ReceiveKeepsQueue(config, s, delivery);
    case Connection(up) => ConnectionKeepsQueue(config, s, up);
    case Close => CloseKeeps(config, s);
    case _ => RequestStepKeeps(config, s, action);
  }
}
